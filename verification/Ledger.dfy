// The double-entry ledger: accounts, posted journals, balances, and idempotent posting.
module Ledger {
  import opened Prelude
  import opened Sums

  // An account row is named by its unique (owner, asset, code) key; the code fixes the normal side.
  datatype Account =
    | Available(merchant: string, asset: string)
    | Frozen(merchant: string, asset: string)
    | Custody(asset: string)

  datatype AccountStatus = Active | Locked | Closed

  datatype Side = DebitSide | CreditSide

  datatype Entry = Entry(account: Account, asset: string, side: Side, amount: int)

  datatype Requester = MerchantRequester(id: string) | OperatorRequester(id: string) | DepositSystem | PayoutConfirmationSystem

  datatype ReferenceType = DepositReference | PayoutFreeze | PayoutUnfreeze | PayoutSettlement | PayoutFailureRelease

  // The text prefix of an idempotency key is the constructor.
  datatype IdempotencyKey = FreezeKey(key: string) | UnfreezeKey(id: string) | SettlementKey(id: string) | ReleaseKey(id: string) | CreditKey(id: string)

  /** A journal transaction with its entries; only posted ones are ever visible. */
  datatype Journal = Journal(
    requester: Requester,
    key: IdempotencyKey,
    referenceType: ReferenceType,
    referenceId: string,
    entries: seq<Entry>)

  type Journals = map<string, Journal>

  function NormalSide(account: Account): Side {
    if account.Custody? then DebitSide else CreditSide
  }

  function TwoEntries(debit: Account, credit: Account, asset: string, amount: int): seq<Entry> {
    [Entry(debit, asset, DebitSide, amount), Entry(credit, asset, CreditSide, amount)]
  }

  // ---------- posting ----------

  /** INSERT ... ON CONFLICT DO NOTHING inserts no row: one of the three unique keys is taken. */
  predicate Taken(journals: Journals, id: string, journal: Journal) {
    id in journals || exists other :: other in journals && SameKeys(journals[other], journal)
  }

  predicate SameKeys(a: Journal, b: Journal) {
    a.requester == b.requester && (a.key == b.key || (a.referenceType == b.referenceType && a.referenceId == b.referenceId))
  }

  /** What requestFingerprint digests; digests are taken to be collision-free. */
  predicate SameRequest(a: Journal, b: Journal) {
    a.requester == b.requester && a.referenceType == b.referenceType && a.referenceId == b.referenceId && a.entries == b.entries
  }

  datatype PostResult = Created | Existing(id: string) | IdempotencyConflict | LookupFailed

  /** PostInTransaction after validation: insert, or fall back to the row that holds the keys. */
  ghost function Post(journals: Journals, id: string, journal: Journal): PostResult {
    if !Taken(journals, id, journal) then Created
    else if exists other :: other in journals && journals[other].requester == journal.requester && journals[other].key == journal.key then
      var other :| other in journals && journals[other].requester == journal.requester && journals[other].key == journal.key;
      if SameRequest(journals[other], journal) then Existing(other) else IdempotencyConflict
    else if exists other :: other in journals && SameKeys(journals[other], journal) then
      var other :| other in journals && SameKeys(journals[other], journal);
      if SameRequest(journals[other], journal) then Existing(other) else IdempotencyConflict
    else LookupFailed
  }

  /** The journal id a caller stores, or nothing when the posting fails and the caller rolls back. */
  ghost function PostedId(journals: Journals, id: string, journal: Journal): Option<string> {
    match Post(journals, id, journal)
    case Created => Some(id)
    case Existing(other) => Some(other)
    case IdempotencyConflict => None
    case LookupFailed => None
  }

  ghost function PostedJournals(journals: Journals, id: string, journal: Journal): Journals {
    if Post(journals, id, journal) == Created then journals[id := journal] else journals
  }

  // ---------- balances ----------

  /** Debits minus credits that the entries book on an account. */
  function NetDebit(entries: seq<Entry>, account: Account): int {
    if entries == [] then 0
    else
      var e := entries[|entries| - 1];
      NetDebit(entries[..|entries| - 1], account)
      + (if e.account != account then 0 else if e.side == DebitSide then e.amount else -e.amount)
  }

  function SideSum(entries: seq<Entry>, account: Account): int {
    if NormalSide(account) == DebitSide then NetDebit(entries, account) else -NetDebit(entries, account)
  }

  ghost function Effect(account: Account): (string, Journal) -> int {
    (id: string, j: Journal) => SideSum(j.entries, account)
  }

  /** The sum that accountBalance computes over the posted entries of an account. */
  ghost function Balance(journals: Journals, account: Account): int {
    MapSum(journals, Effect(account))
  }

  lemma TwoEntriesEffect(debit: Account, credit: Account, asset: string, amount: int, account: Account)
    requires debit != credit
    ensures NetDebit(TwoEntries(debit, credit, asset, amount), account)
         == (if account == debit then amount else 0) - (if account == credit then amount else 0)
  {
    var entries := TwoEntries(debit, credit, asset, amount);
    assert entries[..1] == [entries[0]];
    assert entries[..1][..0] == [];
    assert NetDebit(entries[..1], account) == if account == debit then amount else 0;
  }

  lemma BalanceAfterPost(journals: Journals, id: string, journal: Journal, account: Account)
    requires id !in journals
    ensures Balance(journals[id := journal], account) == Balance(journals, account) + SideSum(journal.entries, account)
  {
    MapSumInsert(journals, Effect(account), id, journal);
  }

  /** How many entries the posted journals book on an account. */
  function Hits(entries: seq<Entry>, account: Account): nat {
    if entries == [] then 0
    else Hits(entries[..|entries| - 1], account) + (if entries[|entries| - 1].account == account then 1 else 0)
  }

  function HitsOf(account: Account): (string, Journal) -> int {
    (id: string, j: Journal) => Hits(j.entries, account)
  }

  ghost function EntryCount(journals: Journals, account: Account): int {
    MapSum(journals, HitsOf(account))
  }

  lemma {:induction false} NoHitsNoEffect(entries: seq<Entry>, account: Account)
    requires Hits(entries, account) == 0
    ensures NetDebit(entries, account) == 0
    decreases |entries|
  {
    if entries != [] {
      NoHitsNoEffect(entries[..|entries| - 1], account);
    }
  }

  /** Journals are only added; an unchanged entry count of an account means an unchanged balance. */
  lemma SameCountSameBalance(before: Journals, after: Journals, account: Account)
    requires forall id :: id in before ==> id in after && after[id] == before[id]
    requires EntryCount(before, account) == EntryCount(after, account)
    ensures Balance(before, account) == Balance(after, account)
  {
    MapSumGrows(before, after, HitsOf(account));
    forall id | id in after && id !in before ensures Effect(account)(id, after[id]) == 0 {
      assert HitsOf(account)(id, after[id]) == 0;
      NoHitsNoEffect(after[id].entries, account);
    }
    MapSumExtraZero(before, after, Effect(account));
  }
}
