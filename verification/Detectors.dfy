// The reconciliation detectors over the database, and why the ledger-integrity ones stay silent.
module Detectors {
  import opened Prelude
  import opened Lease
  import opened Ledger
  import opened Tables
  import opened LedgerProofs
  import Wallets
  import LedgerSteps

  datatype Rule =
    | TransactionUnbalanced | DepositReferenceMismatch | PayoutReferenceMismatch
    | DepositSemanticMismatch | PayoutSemanticMismatch | CustodyShortfall | CustodyExcess

  datatype Severity = Critical | Warning

  datatype LinkKind = FreezeLink | ReleaseLink | SettlementLink

  datatype Resource = JournalResource(id: string, asset: string) | IntentResource(id: string) | PayoutLinkResource(id: string, kind: LinkKind) | AssetResource(asset: string)

  datatype Finding = Finding(rule: Rule, severity: Severity, resource: Resource)

  // ---------- aggregates over the entries of one journal ----------

  /** LEFT JOIN on the journal id: no journal, no entries. */
  function EntriesOf(journals: Journals, id: string): seq<Entry> {
    if id in journals then journals[id].entries else []
  }

  /** SUM(amount) FILTER (WHERE side and asset as given). */
  function SideTotal(entries: seq<Entry>, asset: Option<string>, side: Side): int {
    if entries == [] then 0
    else
      var e := entries[|entries| - 1];
      SideTotal(entries[..|entries| - 1], asset, side)
      + (if e.side == side && (asset.Some? ==> e.asset == asset.value) then e.amount else 0)
  }

  function AssetCount(entries: seq<Entry>, asset: string): nat {
    if entries == [] then 0
    else AssetCount(entries[..|entries| - 1], asset) + (if entries[|entries| - 1].asset == asset then 1 else 0)
  }

  function CountEqual(entries: seq<Entry>, e: Entry): nat {
    if entries == [] then 0
    else CountEqual(entries[..|entries| - 1], e) + (if entries[|entries| - 1] == e then 1 else 0)
  }

  /** The account's code decides its normal side, so an entry matches when it is this very entry. */
  predicate SemanticMatch(entries: seq<Entry>, debit: Account, credit: Account, asset: string, amount: int) {
    && |entries| == 2
    && SideTotal(entries, None, DebitSide) == amount && SideTotal(entries, None, CreditSide) == amount
    && CountEqual(entries, Entry(debit, asset, DebitSide, amount)) == 1
    && CountEqual(entries, Entry(credit, asset, CreditSide, amount)) == 1
  }

  /** The group of one asset within one journal, or the empty group of a journal without entries. */
  predicate GroupUnbalanced(entries: seq<Entry>, asset: string) {
    || AssetCount(entries, asset) < 2
    || SideTotal(entries, Some(asset), DebitSide) != SideTotal(entries, Some(asset), CreditSide)
  }

  function GroupAssets(entries: seq<Entry>): set<string> {
    if entries == [] then {""} else set e | e in entries :: e.asset
  }

  // ---------- the five ledger detectors ----------

  function Unbalanced(journals: Journals): set<Finding> {
    set id, asset | id in journals && asset in GroupAssets(journals[id].entries) && GroupUnbalanced(journals[id].entries, asset) ::
      Finding(TransactionUnbalanced, Critical, JournalResource(id, asset))
  }

  predicate References(journals: Journals, link: string, referenceType: ReferenceType, id: string) {
    link in journals && journals[link].referenceType == referenceType && journals[link].referenceId == id
  }

  function DepositReferences(db: Db): set<Finding> {
    set id | id in db.intents && db.intents[id].journalId.Some?
             && !References(db.journals, db.intents[id].journalId.value, DepositReference, id) ::
      Finding(DepositReferenceMismatch, Critical, IntentResource(id))
  }

  function DepositSemantics(db: Db): set<Finding> {
    set id | id in db.intents && db.intents[id].journalId.Some?
             && !SemanticMatch(EntriesOf(db.journals, db.intents[id].journalId.value), Custody(db.intents[id].asset),
                               Available(db.intents[id].merchant, db.intents[id].asset), db.intents[id].asset, db.intents[id].credited) ::
      Finding(DepositSemanticMismatch, Critical, IntentResource(id))
  }

  function LinkId(p: Payout, kind: LinkKind): Option<string> {
    match kind
    case FreezeLink => Some(p.freezeId)
    case ReleaseLink => p.unfreezeId
    case SettlementLink => p.settlementId
  }

  /** The reference type a link must carry; links of other statuses are not checked. */
  function ExpectedReference(p: Payout, kind: LinkKind): Option<ReferenceType> {
    match kind
    case FreezeLink => Some(PayoutFreeze)
    case ReleaseLink => if p.job.status == Rejected then Some(PayoutUnfreeze) else if p.job.status == Failed then Some(PayoutFailureRelease) else None
    case SettlementLink => if p.job.status == Succeeded then Some(PayoutSettlement) else None
  }

  const LINK_KINDS: set<LinkKind> := {FreezeLink, ReleaseLink, SettlementLink}

  function PayoutReferences(db: Db): set<Finding> {
    set id, kind | id in db.payouts && kind in LINK_KINDS && LinkId(db.payouts[id], kind).Some? && ExpectedReference(db.payouts[id], kind).Some?
                   && !References(db.journals, LinkId(db.payouts[id], kind).value, ExpectedReference(db.payouts[id], kind).value, id) ::
      Finding(PayoutReferenceMismatch, Critical, PayoutLinkResource(id, kind))
  }

  function DebitAccount(p: Payout, kind: LinkKind): Account {
    if kind == FreezeLink then Available(p.merchant, p.asset) else Frozen(p.merchant, p.asset)
  }

  function CreditAccount(p: Payout, kind: LinkKind): Account {
    match kind
    case FreezeLink => Frozen(p.merchant, p.asset)
    case ReleaseLink => Available(p.merchant, p.asset)
    case SettlementLink => Custody(p.asset)
  }

  function PayoutSemantics(db: Db): set<Finding> {
    set id, kind | id in db.payouts && kind in LINK_KINDS && LinkId(db.payouts[id], kind).Some?
                   && !SemanticMatch(EntriesOf(db.journals, LinkId(db.payouts[id], kind).value), DebitAccount(db.payouts[id], kind),
                                     CreditAccount(db.payouts[id], kind), db.payouts[id].asset, db.payouts[id].amount) ::
      Finding(PayoutSemanticMismatch, Critical, PayoutLinkResource(id, kind))
  }

  function LedgerFindings(db: Db): set<Finding> {
    Unbalanced(db.journals) + DepositReferences(db) + PayoutReferences(db) + DepositSemantics(db) + PayoutSemantics(db)
  }

  // ---------- the wallet rule ----------

  /** The run with the greatest height for its asset, the later one on a tie. */
  predicate Latest(snapshots: seq<Snapshot>, i: nat) {
    i < |snapshots|
    && forall j :: 0 <= j < |snapshots| && snapshots[j].asset == snapshots[i].asset ==>
         snapshots[j].head.height < snapshots[i].head.height || (snapshots[j].head.height == snapshots[i].head.height && j <= i)
  }

  function WalletFinding(s: Snapshot): Finding {
    if Wallets.Shortfall(s) then Finding(CustodyShortfall, Critical, AssetResource(s.asset))
    else Finding(CustodyExcess, Warning, AssetResource(s.asset))
  }

  function WalletFindings(snapshots: seq<Snapshot>): set<Finding> {
    set i | 0 <= i < |snapshots| && Latest(snapshots, i) && (Wallets.Shortfall(snapshots[i]) || Wallets.Excess(snapshots[i])) ::
      WalletFinding(snapshots[i])
  }

  // ---------- silence ----------

  lemma TwoEntriesMatch(debit: Account, credit: Account, asset: string, amount: int)
    ensures SemanticMatch(TwoEntries(debit, credit, asset, amount), debit, credit, asset, amount)
    ensures GroupAssets(TwoEntries(debit, credit, asset, amount)) == {asset}
    ensures !GroupUnbalanced(TwoEntries(debit, credit, asset, amount), asset)
  {
    var entries := TwoEntries(debit, credit, asset, amount);
    assert entries[..1] == [entries[0]];
    assert entries[..1][..0] == [];
    assert entries[0] in entries;
    assert entries[1] in entries && forall e :: e in entries ==> e == entries[0] || e == entries[1];
    assert SideTotal(entries[..1], None, DebitSide) == amount && SideTotal(entries[..1], None, CreditSide) == 0;
    assert SideTotal(entries[..1], Some(asset), DebitSide) == amount && SideTotal(entries[..1], Some(asset), CreditSide) == 0;
    assert AssetCount(entries[..1], asset) == 1;
    assert CountEqual(entries[..1], entries[0]) == 1 && CountEqual(entries[..1], entries[1]) == 0;
  }

  /** A journal of the gateway is one debit and one credit of one asset. */
  lemma JournalMatches(db: Db, id: string) returns (debit: Account, credit: Account, asset: string, amount: int)
    requires Links(db) && id in db.journals
    ensures db.journals[id].entries == TwoEntries(debit, credit, asset, amount)
  {
    LedgerSteps.OwnerDecides(db, id);
    var e := db.journals[id].entries;
    debit, credit, asset, amount := e[0].account, e[1].account, e[0].asset, e[0].amount;
  }

  lemma UnbalancedSilent(db: Db)
    requires Links(db)
    ensures Unbalanced(db.journals) == {}
  {
    forall id | id in db.journals ensures forall asset :: asset in GroupAssets(db.journals[id].entries) ==> !GroupUnbalanced(db.journals[id].entries, asset) {
      var debit, credit, asset, amount := JournalMatches(db, id);
      TwoEntriesMatch(debit, credit, asset, amount);
    }
  }

  lemma DepositsSilent(db: Db)
    requires Links(db)
    ensures DepositReferences(db) == {} && DepositSemantics(db) == {}
  {
    forall id | id in db.intents && db.intents[id].journalId.Some?
      ensures References(db.journals, db.intents[id].journalId.value, DepositReference, id)
      ensures SemanticMatch(EntriesOf(db.journals, db.intents[id].journalId.value), Custody(db.intents[id].asset),
                            Available(db.intents[id].merchant, db.intents[id].asset), db.intents[id].asset, db.intents[id].credited)
    {
      assert IntentLinks(db.journals, id, db.intents[id]);
      var i := db.intents[id];
      TwoEntriesMatch(Custody(i.asset), Available(i.merchant, i.asset), i.asset, i.expected);
    }
  }

  lemma PayoutSilent(db: Db, id: string, kind: LinkKind)
    requires Links(db) && id in db.payouts && LinkId(db.payouts[id], kind).Some?
    ensures ExpectedReference(db.payouts[id], kind).Some?
    ensures References(db.journals, LinkId(db.payouts[id], kind).value, ExpectedReference(db.payouts[id], kind).value, id)
    ensures SemanticMatch(EntriesOf(db.journals, LinkId(db.payouts[id], kind).value), DebitAccount(db.payouts[id], kind),
                          CreditAccount(db.payouts[id], kind), db.payouts[id].asset, db.payouts[id].amount)
  {
    var p := db.payouts[id];
    assert PayoutLinks(db.journals, id, p);
    TwoEntriesMatch(DebitAccount(p, kind), CreditAccount(p, kind), p.asset, p.amount);
  }

  lemma PayoutsSilent(db: Db)
    requires Links(db)
    ensures PayoutReferences(db) == {} && PayoutSemantics(db) == {}
  {
    forall id, kind | id in db.payouts && kind in LINK_KINDS && LinkId(db.payouts[id], kind).Some?
      ensures References(db.journals, LinkId(db.payouts[id], kind).value, ExpectedReference(db.payouts[id], kind).value, id)
      ensures SemanticMatch(EntriesOf(db.journals, LinkId(db.payouts[id], kind).value), DebitAccount(db.payouts[id], kind),
                            CreditAccount(db.payouts[id], kind), db.payouts[id].asset, db.payouts[id].amount)
    {
      PayoutSilent(db, id, kind);
    }
  }

  /** No ledger detector has anything to report. */
  lemma LedgerSilent(db: Db)
    requires Links(db)
    ensures LedgerFindings(db) == {}
  {
    UnbalancedSilent(db);
    DepositsSilent(db);
    PayoutsSilent(db);
  }

  /** Without a false shortfall in any saved run, the wallet rule can only warn about an excess, and
      it does so exactly for the assets whose latest run shows less on the ledger than in the wallets. */
  lemma WalletsOnlyExceed(snapshots: seq<Snapshot>)
    requires forall s :: s in snapshots ==> !Wallets.Shortfall(s)
    ensures forall f :: f in WalletFindings(snapshots) <==>
              exists i :: 0 <= i < |snapshots| && Latest(snapshots, i) && Wallets.Excess(snapshots[i])
                && f == Finding(CustodyExcess, Warning, AssetResource(snapshots[i].asset))
  {
  }

  /** The row loop of a detector: one finding per selected row, in order. */
  method Report(rule: Rule, severity: Severity, rows: seq<Resource>) returns (findings: seq<Finding>)
    ensures |findings| == |rows|
    ensures forall i :: 0 <= i < |rows| ==> findings[i] == Finding(rule, severity, rows[i])
  {
    findings := [];
    for i := 0 to |rows|
      invariant |findings| == i
      invariant forall k :: 0 <= k < i ==> findings[k] == Finding(rule, severity, rows[k])
    {
      findings := findings + [Finding(rule, severity, rows[i])];
    }
  }
}
