// What each reconciliation detector reports on any database, sound or not: the wallet rule on the
// numbers of the newest run, the ledger rules on the entries and references of the linked journals.
module Findings {
  import opened Prelude
  import opened Sums
  import opened Lease
  import opened Ledger
  import opened Tables
  import opened Detectors
  import Wallets

  // ---------- the wallet rule ----------

  /** The asset's newest run: the greatest height, and the later one of two at that height. */
  predicate Newest(snapshots: seq<Snapshot>, asset: string, i: nat) {
    i < |snapshots| && snapshots[i].asset == asset
    && (forall j :: 0 <= j < i && snapshots[j].asset == asset ==> snapshots[j].head.height <= snapshots[i].head.height)
    && (forall j :: i < j < |snapshots| && snapshots[j].asset == asset ==> snapshots[j].head.height < snapshots[i].head.height)
  }

  function AssetFindings(snapshots: seq<Snapshot>, asset: string): set<Finding> {
    set f | f in WalletFindings(snapshots) && f.resource == AssetResource(asset)
  }

  /**
   * An asset whose newest run has the ledger between the wallets and the wallets plus payouts in flight
   * has no finding; any other asset with a run has exactly one, critical when the ledger is above.
   */
  lemma WalletRuleExact(snapshots: seq<Snapshot>, asset: string, i: nat)
    requires Newest(snapshots, asset, i)
    ensures
      var run := snapshots[i];
      AssetFindings(snapshots, asset) ==
        if run.total <= run.ledger.balance <= run.total + run.ledger.payoutAmount then {}
        else if run.ledger.balance > run.total + run.ledger.payoutAmount then {Finding(CustodyShortfall, Critical, AssetResource(asset))}
        else {Finding(CustodyExcess, Warning, AssetResource(asset))}
  {
    var run := snapshots[i];
    assert Latest(snapshots, i);
    assert forall j :: 0 <= j < |snapshots| && snapshots[j].asset == asset && Latest(snapshots, j) ==> j == i;
    assert forall f :: f in AssetFindings(snapshots, asset) ==> f == WalletFinding(run) && (Wallets.Shortfall(run) || Wallets.Excess(run));
    assert Wallets.Shortfall(run) || Wallets.Excess(run) ==> WalletFinding(run) in AssetFindings(snapshots, asset);
  }

  /** Every asset with a run has one newest run, an asset without any has no finding. */
  lemma {:induction false} NewestExists(snapshots: seq<Snapshot>, asset: string)
    ensures (exists run :: run in snapshots && run.asset == asset) ==> exists i :: Newest(snapshots, asset, i)
    ensures (forall run :: run in snapshots ==> run.asset != asset) ==> AssetFindings(snapshots, asset) == {}
    ensures forall i, j :: Newest(snapshots, asset, i) && Newest(snapshots, asset, j) ==> i == j
  {
    if snapshots != [] {
      var n := |snapshots| - 1;
      var init := snapshots[..n];
      NewestExists(init, asset);
      if snapshots[n].asset != asset {
        forall i | Newest(init, asset, i) ensures Newest(snapshots, asset, i) {
        }
      } else if exists i :: Newest(init, asset, i) {
        var i: nat :| Newest(init, asset, i);
        assert forall j :: 0 <= j < n && snapshots[j].asset == asset ==> snapshots[j].head.height <= snapshots[i].head.height;
        assert Newest(snapshots, asset, if snapshots[n].head.height >= snapshots[i].head.height then n else i);
      } else {
        assert forall j :: 0 <= j < n ==> snapshots[j] in init;
        assert Newest(snapshots, asset, n);
      }
    }
  }

  // ---------- two lines of one journal ----------

  /** The journal moves the amount from the debit to the credit account, in either order of its lines. */
  predicate Moves(entries: seq<Entry>, debit: Account, credit: Account, asset: string, amount: int) {
    var d, c := Entry(debit, asset, DebitSide, amount), Entry(credit, asset, CreditSide, amount);
    entries == [d, c] || entries == [c, d]
  }

  /** The semantic rules accept these two lines and no others. */
  lemma SemanticExact(entries: seq<Entry>, debit: Account, credit: Account, asset: string, amount: int)
    ensures SemanticMatch(entries, debit, credit, asset, amount) <==> Moves(entries, debit, credit, asset, amount)
  {
    if |entries| == 2 {
      var a, b := entries[0], entries[1];
      assert entries == [a, b] && entries[..1] == [a] && entries[..1][..0] == [];
      CountPair(a, b, Entry(debit, asset, DebitSide, amount));
      CountPair(a, b, Entry(credit, asset, CreditSide, amount));
      TotalPair(a, b, DebitSide);
      TotalPair(a, b, CreditSide);
    }
  }

  lemma CountPair(a: Entry, b: Entry, e: Entry)
    ensures CountEqual([a, b], e) == (if a == e then 1 else 0) + (if b == e then 1 else 0)
  {
    assert [a, b][..1] == [a] && [a][..0] == [];
    assert CountEqual([a], e) == if a == e then 1 else 0;
  }

  lemma TotalPair(a: Entry, b: Entry, side: Side)
    ensures SideTotal([a, b], None, side) == (if a.side == side then a.amount else 0) + (if b.side == side then b.amount else 0)
  {
    assert [a, b][..1] == [a] && [a][..0] == [];
    assert SideTotal([a], None, side) == if a.side == side then a.amount else 0;
  }

  // ---------- the lines of one asset ----------

  function LineOf(asset: string): Entry -> int {
    (e: Entry) => if e.asset == asset then 1 else 0
  }

  function SignedOf(asset: string): Entry -> int {
    (e: Entry) => if e.asset != asset then 0 else if e.side == DebitSide then e.amount else -e.amount
  }

  lemma {:induction false} GroupSums(entries: seq<Entry>, asset: string)
    ensures AssetCount(entries, asset) == SeqSum(entries, LineOf(asset))
    ensures SideTotal(entries, Some(asset), DebitSide) - SideTotal(entries, Some(asset), CreditSide) == SeqSum(entries, SignedOf(asset))
  {
    if entries != [] {
      GroupSums(entries[..|entries| - 1], asset);
    }
  }

  /** A journal is reported for an asset of its lines exactly when that asset has a single line or its debits and credits differ. */
  lemma UnbalancedExact(db: Db, id: string, asset: string)
    requires id in db.journals
    ensures
      var entries := db.journals[id].entries;
      Finding(TransactionUnbalanced, Critical, JournalResource(id, asset)) in LedgerFindings(db) <==>
        || (entries == [] && asset == "")
        || (SeqSum(entries, LineOf(asset)) == 1)
        || (SeqSum(entries, LineOf(asset)) >= 2 && SeqSum(entries, SignedOf(asset)) != 0)
  {
    var entries := db.journals[id].entries;
    GroupSums(entries, asset);
    CountPositive(entries, asset);
    assert Finding(TransactionUnbalanced, Critical, JournalResource(id, asset)) in LedgerFindings(db)
      <==> asset in GroupAssets(entries) && GroupUnbalanced(entries, asset);
  }

  lemma {:induction false} CountPositive(entries: seq<Entry>, asset: string)
    ensures 0 <= AssetCount(entries, asset)
    ensures AssetCount(entries, asset) > 0 <==> exists e :: e in entries && e.asset == asset
  {
    if entries != [] {
      var n := |entries| - 1;
      CountPositive(entries[..n], asset);
      assert entries == entries[..n] + [entries[n]];
    }
  }

  // ---------- links ----------

  /** The link names a journal about this very payout or intent. */
  predicate About(db: Db, link: string, kind: ReferenceType, id: string) {
    link in db.journals && db.journals[link].referenceType == kind && db.journals[link].referenceId == id
  }

  function LinesOf(db: Db, link: string): seq<Entry> {
    if link in db.journals then db.journals[link].entries else []
  }

  /** An intent is reported exactly when its credit journal is not about it, or is not the credit of its amount. */
  lemma IntentFindingsExact(db: Db, id: string)
    requires id in db.intents
    ensures
      var i := db.intents[id];
      && (Finding(DepositReferenceMismatch, Critical, IntentResource(id)) in LedgerFindings(db) <==>
            i.journalId.Some? && !About(db, i.journalId.value, DepositReference, id))
      && (Finding(DepositSemanticMismatch, Critical, IntentResource(id)) in LedgerFindings(db) <==>
            i.journalId.Some? && !Moves(LinesOf(db, i.journalId.value), Custody(i.asset), Available(i.merchant, i.asset), i.asset, i.credited))
  {
    var i := db.intents[id];
    if i.journalId.Some? {
      SemanticExact(LinesOf(db, i.journalId.value), Custody(i.asset), Available(i.merchant, i.asset), i.asset, i.credited);
    }
  }

  /** A payout's freeze, release and settlement links are reported exactly when the journal is not about it, or is not that move of its amount. */
  lemma PayoutFindingsExact(db: Db, id: string)
    requires id in db.payouts
    ensures
      var p := db.payouts[id];
      && (Finding(PayoutReferenceMismatch, Critical, PayoutLinkResource(id, FreezeLink)) in LedgerFindings(db) <==>
            !About(db, p.freezeId, PayoutFreeze, id))
      && (Finding(PayoutReferenceMismatch, Critical, PayoutLinkResource(id, ReleaseLink)) in LedgerFindings(db) <==>
            p.unfreezeId.Some? && ((p.job.status == Rejected && !About(db, p.unfreezeId.value, PayoutUnfreeze, id))
                                   || (p.job.status == Failed && !About(db, p.unfreezeId.value, PayoutFailureRelease, id))))
      && (Finding(PayoutReferenceMismatch, Critical, PayoutLinkResource(id, SettlementLink)) in LedgerFindings(db) <==>
            p.settlementId.Some? && p.job.status == Succeeded && !About(db, p.settlementId.value, PayoutSettlement, id))
  {
    hide SemanticMatch;
  }

  lemma PayoutMovesExact(db: Db, id: string)
    requires id in db.payouts
    ensures
      var p := db.payouts[id];
      var available, frozen, custody := Available(p.merchant, p.asset), Frozen(p.merchant, p.asset), Custody(p.asset);
      && (Finding(PayoutSemanticMismatch, Critical, PayoutLinkResource(id, FreezeLink)) in LedgerFindings(db) <==>
            !Moves(LinesOf(db, p.freezeId), available, frozen, p.asset, p.amount))
      && (Finding(PayoutSemanticMismatch, Critical, PayoutLinkResource(id, ReleaseLink)) in LedgerFindings(db) <==>
            p.unfreezeId.Some? && !Moves(LinesOf(db, p.unfreezeId.value), frozen, available, p.asset, p.amount))
      && (Finding(PayoutSemanticMismatch, Critical, PayoutLinkResource(id, SettlementLink)) in LedgerFindings(db) <==>
            p.settlementId.Some? && !Moves(LinesOf(db, p.settlementId.value), frozen, custody, p.asset, p.amount))
  {
    hide SemanticMatch, Moves, LedgerFindings;
    var p := db.payouts[id];
    var available, frozen, custody := Available(p.merchant, p.asset), Frozen(p.merchant, p.asset), Custody(p.asset);
    PayoutSemantic(db, id, FreezeLink);
    PayoutSemantic(db, id, ReleaseLink);
    PayoutSemantic(db, id, SettlementLink);
    SemanticExact(LinesOf(db, p.freezeId), available, frozen, p.asset, p.amount);
    if p.unfreezeId.Some? {
      SemanticExact(LinesOf(db, p.unfreezeId.value), frozen, available, p.asset, p.amount);
    }
    if p.settlementId.Some? {
      SemanticExact(LinesOf(db, p.settlementId.value), frozen, custody, p.asset, p.amount);
    }
  }

  lemma PayoutSemantic(db: Db, id: string, kind: LinkKind)
    requires id in db.payouts
    ensures
      var p := db.payouts[id];
      Finding(PayoutSemanticMismatch, Critical, PayoutLinkResource(id, kind)) in LedgerFindings(db) <==>
        && LinkId(p, kind).Some?
        && !SemanticMatch(EntriesOf(db.journals, LinkId(p, kind).value), DebitAccount(p, kind), CreditAccount(p, kind), p.asset, p.amount)
  {
    hide SemanticMatch, DebitAccount, CreditAccount, LinkId;
  }
}
