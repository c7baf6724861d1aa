// What every transaction keeps about the ledger: journals and the rows that own them, frozen and
// available balances, custody, and conservation.
module LedgerProofs {
  import opened Prelude
  import opened Sums
  import opened Lease
  import opened Ledger
  import opened Tables
  import opened Payouts
  import Deposits

  // ---------- journals and their owners ----------

  predicate Open(status: Status) {
    status == PendingReview || status == Approved || status == ReadyForBroadcast || status == Confirming
  }

  /** The links of a payout name journals with exactly the postings its status calls for. */
  predicate PayoutLinks(journals: Journals, id: string, p: Payout) {
    && 0 < p.amount <= MAX_INT64
    && p.freezeId in journals && journals[p.freezeId] == FreezeJournal(id, p)
    && (p.unfreezeId.Some? <==> p.job.status == Rejected || p.job.status == Failed)
    && (p.settlementId.Some? <==> p.job.status == Succeeded)
    && (p.review.Some? <==> p.job.status != PendingReview)
    && (p.screeningOpen <==> p.job.status == PendingReview)
    && (p.job.status == Rejected ==>
          p.unfreezeId.value in journals && journals[p.unfreezeId.value] == UnfreezeJournal(id, p, p.review.value.reviewer))
    && (p.job.status == Failed ==>
          p.unfreezeId.value in journals && journals[p.unfreezeId.value] == TerminalJournal(id, p, false))
    && (p.job.status == Succeeded ==>
          p.settlementId.value in journals && journals[p.settlementId.value] == TerminalJournal(id, p, true))
  }

  predicate IntentLinks(journals: Journals, id: string, i: Intent) {
    && 0 < i.expected
    && (i.journalId.None? ==> i.credited == 0)
    && (i.journalId.Some? ==>
          i.expected <= MAX_INT64 && i.credited == i.expected
          && i.journalId.value in journals && journals[i.journalId.value] == Deposits.CreditJournal(id, i))
  }

  /** Each journal belongs to the one row its reference names, and that row links back to it. */
  predicate Owned(payouts: map<string, Payout>, intents: map<string, Intent>, id: string, journal: Journal) {
    var row := journal.referenceId;
    match journal.referenceType
    case PayoutFreeze => row in payouts && payouts[row].freezeId == id
    case PayoutUnfreeze => row in payouts && payouts[row].job.status == Rejected && payouts[row].unfreezeId == Some(id)
    case PayoutFailureRelease => row in payouts && payouts[row].job.status == Failed && payouts[row].unfreezeId == Some(id)
    case PayoutSettlement => row in payouts && payouts[row].job.status == Succeeded && payouts[row].settlementId == Some(id)
    case DepositReference => row in intents && intents[row].journalId == Some(id)
  }

  predicate PayoutsLinked(journals: Journals, payouts: map<string, Payout>) {
    forall id :: id in payouts ==> PayoutLinks(journals, id, payouts[id])
  }

  predicate IntentsLinked(journals: Journals, intents: map<string, Intent>) {
    forall id :: id in intents ==> IntentLinks(journals, id, intents[id])
  }

  predicate JournalsOwned(journals: Journals, payouts: map<string, Payout>, intents: map<string, Intent>) {
    forall id :: id in journals ==> Owned(payouts, intents, id, journals[id])
  }

  predicate Links(db: Db) {
    PayoutsLinked(db.journals, db.payouts) && IntentsLinked(db.journals, db.intents) && JournalsOwned(db.journals, db.payouts, db.intents)
  }

  /** UNIQUE (merchant, key) and UNIQUE (merchant, reference). */
  predicate KeysUnique(payouts: map<string, Payout>) {
    forall a, b :: a in payouts && b in payouts && a != b && payouts[a].merchant == payouts[b].merchant ==>
      payouts[a].key != payouts[b].key && payouts[a].reference != payouts[b].reference
  }

  // ---------- sums ----------

  ghost function OpenAmount(merchant: string, asset: string): (string, Payout) -> int {
    (id: string, p: Payout) => if p.merchant == merchant && p.asset == asset && Open(p.job.status) then p.amount else 0
  }

  ghost function SucceededAmount(asset: string): (string, Payout) -> int {
    (id: string, p: Payout) => if p.asset == asset && p.job.status == Succeeded then p.amount else 0
  }

  ghost function CreditedAmount(asset: string): (string, Intent) -> int {
    (id: string, i: Intent) => if i.asset == asset then i.credited else 0
  }

  ghost predicate FrozenMatches(journals: Journals, payouts: map<string, Payout>) {
    forall m, a :: Balance(journals, Frozen(m, a)) == MapSum(payouts, OpenAmount(m, a))
  }

  ghost predicate AvailableCovered(journals: Journals) {
    forall m, a :: 0 <= Balance(journals, Available(m, a))
  }

  ghost predicate CustodyMatches(journals: Journals, payouts: map<string, Payout>, intents: map<string, Intent>) {
    forall a :: Balance(journals, Custody(a)) == MapSum(intents, CreditedAmount(a)) - MapSum(payouts, SucceededAmount(a))
  }

  /** Frozen equals the open payouts, available is never overdrawn, custody is credited minus paid. */
  ghost predicate Balances(db: Db) {
    FrozenMatches(db.journals, db.payouts) && AvailableCovered(db.journals) && CustodyMatches(db.journals, db.payouts, db.intents)
  }

  predicate Liability(account: Account, asset: string) {
    !account.Custody? && account.asset == asset
  }

  ghost function LiabilityBalance(journals: Journals, asset: string): (Account, AccountStatus) -> int {
    (account: Account, status: AccountStatus) => if Liability(account, asset) then Balance(journals, account) else 0
  }

  /** Per asset, custody equals what the platform owes to all merchants together. */
  ghost predicate Conserved(accounts: map<Account, AccountStatus>, journals: Journals) {
    && (forall account :: account !in accounts ==> Balance(journals, account) == 0)
    && (forall a :: Balance(journals, Custody(a)) == MapSum(accounts, LiabilityBalance(journals, a)))
  }

  ghost predicate LedgerInv(db: Db) {
    Links(db) && KeysUnique(db.payouts) && Balances(db) && Conserved(db.accounts, db.journals)
  }

  lemma PayoutLinked(db: Db, id: string)
    requires LedgerInv(db) && id in db.payouts
    ensures PayoutLinks(db.journals, id, db.payouts[id])
  {
  }

  lemma LedgerLinks(db: Db)
    requires LedgerInv(db)
    ensures Links(db)
  {
  }

  // ---------- one posting ----------

  /** The balance of every account after a two-entry posting. */
  lemma PostingMoves(journals: Journals, id: string, journal: Journal, debit: Account, credit: Account, asset: string, amount: int, account: Account)
    requires id !in journals && debit != credit
    requires journal.entries == TwoEntries(debit, credit, asset, amount)
    ensures Balance(journals[id := journal], account) == Balance(journals, account)
         + (if account == debit then (if NormalSide(account) == DebitSide then amount else -amount) else 0)
         + (if account == credit then (if NormalSide(account) == DebitSide then -amount else amount) else 0)
  {
    BalanceAfterPost(journals, id, journal, account);
    TwoEntriesEffect(debit, credit, asset, amount, account);
  }

  /** A posting between two open accounts of one asset conserves that asset. */
  lemma PostingConserves(accounts: map<Account, AccountStatus>, journals: Journals, id: string, journal: Journal, debit: Account, credit: Account, asset: string, amount: int)
    requires Conserved(accounts, journals) && id !in journals && debit != credit
    requires journal.entries == TwoEntries(debit, credit, asset, amount)
    requires debit in accounts && credit in accounts && debit.asset == asset && credit.asset == asset
    ensures Conserved(accounts, journals[id := journal])
  {
    var next := journals[id := journal];
    forall account ensures account !in accounts ==> Balance(next, account) == 0 {
      PostingMoves(journals, id, journal, debit, credit, asset, amount, account);
    }
    forall a ensures Balance(next, Custody(a)) == MapSum(accounts, LiabilityBalance(next, a)) {
      PostingMoves(journals, id, journal, debit, credit, asset, amount, Custody(a));
      LiabilityMoves(accounts, journals, id, journal, debit, credit, asset, amount, a);
    }
  }

  /** How a posting moves the sum owed to merchants. */
  lemma LiabilityMoves(accounts: map<Account, AccountStatus>, journals: Journals, id: string, journal: Journal, debit: Account, credit: Account, asset: string, amount: int, a: string)
    requires id !in journals && debit != credit
    requires journal.entries == TwoEntries(debit, credit, asset, amount)
    requires debit in accounts && credit in accounts
    ensures MapSum(accounts, LiabilityBalance(journals[id := journal], a)) == MapSum(accounts, LiabilityBalance(journals, a))
         - (if Liability(debit, a) then amount else 0) + (if Liability(credit, a) then amount else 0)
  {
    var f, h := LiabilityBalance(journals, a), LiabilityBalance(journals[id := journal], a);
    var g := (account: Account, status: AccountStatus) => if account == credit then h(account, status) else f(account, status);
    forall account | account in accounts ensures account != debit ==> g(account, accounts[account]) == h(account, accounts[account])
    {
      PostingMoves(journals, id, journal, debit, credit, asset, amount, account);
    }
    PostingMoves(journals, id, journal, debit, credit, asset, amount, debit);
    PostingMoves(journals, id, journal, debit, credit, asset, amount, credit);
    MapSumDiffAt(accounts, f, g, credit);
    MapSumDiffAt(accounts, g, h, debit);
  }

  /** Opening or relabelling an account moves no balance. */
  lemma AccountChangeConserves(accounts: map<Account, AccountStatus>, journals: Journals, account: Account, status: AccountStatus)
    requires Conserved(accounts, journals)
    ensures Conserved(accounts[account := status], journals)
  {
    forall a ensures Balance(journals, Custody(a)) == MapSum(accounts[account := status], LiabilityBalance(journals, a)) {
      var f := LiabilityBalance(journals, a);
      if account in accounts {
        MapSumUpdate(accounts, f, account, status);
      } else {
        MapSumInsert(accounts, f, account, status);
      }
    }
  }
}
