// Each transaction of the gateway keeps the ledger invariant, and its posting is always the first
// and only one for its business reference.
module LedgerSteps {
  import opened Prelude
  import opened Sums
  import opened Lease
  import opened Ledger
  import opened Tables
  import opened Payouts
  import opened LedgerProofs
  import Deposits

  // ---------- a posting never meets its own keys ----------

  lemma FreezeUntaken(db: Db, r: CreateRequest, journalId: string)
    requires Links(db) && journalId !in db.journals
    requires Matching(db.payouts, r) == {} && r.id !in db.payouts
    ensures !Taken(db.journals, journalId, FreezeJournal(r.id, NewPayout(r, journalId)))
  {
    forall other | other in db.journals
      ensures !SameKeys(db.journals[other], FreezeJournal(r.id, NewPayout(r, journalId)))
    {
      var row := db.journals[other].referenceId;
      assert Owned(db.payouts, db.intents, other, db.journals[other]);
      if row in db.payouts {
        assert PayoutLinks(db.journals, row, db.payouts[row]);
        assert row !in Matching(db.payouts, r);
      }
      if row in db.intents {
        assert IntentLinks(db.journals, row, db.intents[row]);
      }
    }
  }

  lemma UnfreezeUntaken(db: Db, id: string, reviewer: string, journalId: string)
    requires Links(db) && journalId !in db.journals
    requires id in db.payouts && db.payouts[id].job.status == PendingReview
    ensures !Taken(db.journals, journalId, UnfreezeJournal(id, db.payouts[id], reviewer))
  {
    forall other | other in db.journals ensures !SameKeys(db.journals[other], UnfreezeJournal(id, db.payouts[id], reviewer)) {
      OwnerDecides(db, other);
    }
  }

  lemma TerminalUntaken(db: Db, id: string, succeeded: bool, journalId: string)
    requires Links(db) && journalId !in db.journals
    requires id in db.payouts && db.payouts[id].job.status == Confirming
    ensures !Taken(db.journals, journalId, TerminalJournal(id, db.payouts[id], succeeded))
  {
    forall other | other in db.journals ensures !SameKeys(db.journals[other], TerminalJournal(id, db.payouts[id], succeeded)) {
      OwnerDecides(db, other);
    }
  }

  lemma CreditUntaken(db: Db, id: string, journalId: string)
    requires Links(db) && journalId !in db.journals
    requires id in db.intents && db.intents[id].journalId.None?
    ensures !Taken(db.journals, journalId, Deposits.CreditJournal(id, db.intents[id]))
  {
    forall other | other in db.journals ensures !SameKeys(db.journals[other], Deposits.CreditJournal(id, db.intents[id])) {
      OwnerDecides(db, other);
    }
  }

  /** A journal is, in full, the posting its owner's status calls for. */
  lemma OwnerDecides(db: Db, journalId: string)
    requires Links(db) && journalId in db.journals
    ensures
      var journal, row := db.journals[journalId], db.journals[journalId].referenceId;
      match journal.referenceType
      case PayoutFreeze => row in db.payouts && journal == FreezeJournal(row, db.payouts[row])
      case PayoutUnfreeze => row in db.payouts && db.payouts[row].job.status == Rejected && db.payouts[row].review.Some?
                             && journal == UnfreezeJournal(row, db.payouts[row], db.payouts[row].review.value.reviewer)
      case PayoutFailureRelease => row in db.payouts && db.payouts[row].job.status == Failed && journal == TerminalJournal(row, db.payouts[row], false)
      case PayoutSettlement => row in db.payouts && db.payouts[row].job.status == Succeeded && journal == TerminalJournal(row, db.payouts[row], true)
      case DepositReference => row in db.intents && db.intents[row].journalId.Some? && journal == Deposits.CreditJournal(row, db.intents[row])
  {
    var row := db.journals[journalId].referenceId;
    assert Owned(db.payouts, db.intents, journalId, db.journals[journalId]);
    if row in db.payouts {
      assert PayoutLinks(db.journals, row, db.payouts[row]);
    }
    if row in db.intents {
      assert IntentLinks(db.journals, row, db.intents[row]);
    }
  }

  // ---------- rows and journals change together ----------

  predicate SameIdentity(p: Payout, q: Payout) {
    && p.merchant == q.merchant && p.asset == q.asset && p.key == q.key && p.reference == q.reference
    && p.destination == q.destination && p.amount == q.amount && p.amountText == q.amountText && p.freezeId == q.freezeId
  }

  /** Replacing one payout keeps the links when its own links hold and no journal loses its owner. */
  lemma RelinkPayout(journals: Journals, added: Journals, payouts: map<string, Payout>, id: string, p: Payout)
    requires PayoutsLinked(journals, payouts)
    requires forall j :: j in journals ==> j in added && added[j] == journals[j]
    requires PayoutLinks(added, id, p)
    ensures PayoutsLinked(added, payouts[id := p])
  {
    forall other | other in payouts && other != id ensures PayoutLinks(added, other, payouts[other]) {
      assert PayoutLinks(journals, other, payouts[other]);
    }
  }

  lemma RelinkIntents(journals: Journals, added: Journals, intents: map<string, Intent>)
    requires IntentsLinked(journals, intents)
    requires forall j :: j in journals ==> j in added && added[j] == journals[j]
    ensures IntentsLinked(added, intents)
  {
    forall other | other in intents ensures IntentLinks(added, other, intents[other]) {
      assert IntentLinks(journals, other, intents[other]);
    }
  }

  lemma RelinkPayouts(journals: Journals, added: Journals, payouts: map<string, Payout>)
    requires PayoutsLinked(journals, payouts)
    requires forall j :: j in journals ==> j in added && added[j] == journals[j]
    ensures PayoutsLinked(added, payouts)
  {
    forall other | other in payouts ensures PayoutLinks(added, other, payouts[other]) {
      assert PayoutLinks(journals, other, payouts[other]);
    }
  }

  /** Ownership only looks at the freeze link and, in a terminal status, at the terminal links. */
  lemma OwnersKept(journals: Journals, payouts: map<string, Payout>, intents: map<string, Intent>, id: string, p: Payout)
    requires JournalsOwned(journals, payouts, intents)
    requires id in payouts ==> p.freezeId == payouts[id].freezeId && Open(payouts[id].job.status)
    ensures JournalsOwned(journals, payouts[id := p], intents)
  {
    forall j | j in journals ensures Owned(payouts[id := p], intents, j, journals[j]) {
      assert Owned(payouts, intents, j, journals[j]);
    }
  }

  lemma OwnersGrow(journals: Journals, payouts: map<string, Payout>, intents: map<string, Intent>, j: string, journal: Journal)
    requires JournalsOwned(journals, payouts, intents) && Owned(payouts, intents, j, journal)
    ensures JournalsOwned(journals[j := journal], payouts, intents)
  {
  }

  lemma SumsAfterUpdate(payouts: map<string, Payout>, id: string, p: Payout, m: string, a: string)
    requires id in payouts
    ensures MapSum(payouts[id := p], OpenAmount(m, a))
         == MapSum(payouts, OpenAmount(m, a)) - OpenAmount(m, a)(id, payouts[id]) + OpenAmount(m, a)(id, p)
    ensures MapSum(payouts[id := p], SucceededAmount(a))
         == MapSum(payouts, SucceededAmount(a)) - SucceededAmount(a)(id, payouts[id]) + SucceededAmount(a)(id, p)
  {
    MapSumUpdate(payouts, OpenAmount(m, a), id, p);
    MapSumUpdate(payouts, SucceededAmount(a), id, p);
  }

  predicate QuietChange(was: Payout, p: Payout) {
    && SameIdentity(p, was) && Open(was.job.status) && Open(p.job.status) && p.job.status != PendingReview
    && p.unfreezeId == was.unfreezeId && p.settlementId == was.settlementId && p.review.Some? && !p.screeningOpen
  }

  /** A row update that posts nothing: the status stays open. */
  lemma QuietUpdate(db: Db, id: string, p: Payout)
    requires LedgerInv(db) && id in db.payouts && QuietChange(db.payouts[id], p)
    ensures LedgerInv(db.(payouts := db.payouts[id := p]))
  {
    hide AvailableCovered, CustodyMatches, FrozenMatches, Conserved, PayoutsLinked, IntentsLinked;
    QuietLinks(db.journals, db.payouts, id, p);
    OwnersKept(db.journals, db.payouts, db.intents, id, p);
    QuietSums(db.journals, db.payouts, db.intents, id, p);
  }

  lemma QuietLinks(journals: Journals, payouts: map<string, Payout>, id: string, p: Payout)
    requires PayoutsLinked(journals, payouts) && id in payouts && QuietChange(payouts[id], p)
    ensures PayoutsLinked(journals, payouts[id := p])
  {
    assert PayoutLinks(journals, id, payouts[id]);
    assert FreezeJournal(id, p) == FreezeJournal(id, payouts[id]);
    RelinkPayout(journals, journals, payouts, id, p);
  }

  lemma QuietSums(journals: Journals, payouts: map<string, Payout>, intents: map<string, Intent>, id: string, p: Payout)
    requires FrozenMatches(journals, payouts) && CustodyMatches(journals, payouts, intents)
    requires id in payouts && QuietChange(payouts[id], p)
    ensures FrozenMatches(journals, payouts[id := p]) && CustodyMatches(journals, payouts[id := p], intents)
  {
    forall m, a ensures MapSum(payouts[id := p], OpenAmount(m, a)) == MapSum(payouts, OpenAmount(m, a))
      ensures MapSum(payouts[id := p], SucceededAmount(a)) == MapSum(payouts, SucceededAmount(a))
    {
      SumsAfterUpdate(payouts, id, p, m, a);
    }
    forall a ensures MapSum(payouts[id := p], SucceededAmount(a)) == MapSum(payouts, SucceededAmount(a)) {
      SumsAfterUpdate(payouts, id, p, "", a);
    }
  }

  // ---------- create ----------

  /** Inserting a payout together with the journal that freezes its amount. */
  lemma InsertPayout(db: Db, r: CreateRequest, journalId: string)
    requires LedgerInv(db) && journalId !in db.journals && r.id !in db.payouts
    requires ValidRequest(r) && Matching(db.payouts, r) == {}
    requires Available(r.merchant, r.asset) in db.accounts && Frozen(r.merchant, r.asset) in db.accounts
    requires r.Amount() <= Balance(db.journals, Available(r.merchant, r.asset))
    ensures
      var p := NewPayout(r, journalId);
      LedgerInv(db.(journals := db.journals[journalId := FreezeJournal(r.id, p)], payouts := db.payouts[r.id := p]))
  {
    hide KeysUnique, Balances;
    var p := NewPayout(r, journalId);
    var journal := FreezeJournal(r.id, p);
    var available, frozen := Available(r.merchant, r.asset), Frozen(r.merchant, r.asset);
    RelinkPayout(db.journals, db.journals[journalId := journal], db.payouts, r.id, p);
    RelinkIntents(db.journals, db.journals[journalId := journal], db.intents);
    OwnersKept(db.journals, db.payouts, db.intents, r.id, p);
    OwnersGrow(db.journals, db.payouts[r.id := p], db.intents, journalId, journal);
    InsertKeys(db.payouts, r, journalId);
    InsertSums(db, r, journalId);
    PostingConserves(db.accounts, db.journals, journalId, journal, available, frozen, r.asset, r.Amount());
  }

  lemma InsertKeys(payouts: map<string, Payout>, r: CreateRequest, journalId: string)
    requires KeysUnique(payouts) && r.id !in payouts && Matching(payouts, r) == {}
    ensures KeysUnique(payouts[r.id := NewPayout(r, journalId)])
  {
    forall a | a in payouts && payouts[a].merchant == r.merchant ensures payouts[a].key != r.key && payouts[a].reference != r.reference {
      assert a !in Matching(payouts, r);
    }
  }

  lemma InsertSums(db: Db, r: CreateRequest, journalId: string)
    requires Balances(db) && journalId !in db.journals && r.id !in db.payouts
    requires 0 < r.Amount() <= Balance(db.journals, Available(r.merchant, r.asset))
    ensures
      var p := NewPayout(r, journalId);
      Balances(db.(journals := db.journals[journalId := FreezeJournal(r.id, p)], payouts := db.payouts[r.id := p]))
  {
    var p := NewPayout(r, journalId);
    var journal := FreezeJournal(r.id, p);
    var available, frozen := Available(r.merchant, r.asset), Frozen(r.merchant, r.asset);
    var journals, payouts := db.journals[journalId := journal], db.payouts[r.id := p];
    forall m, a ensures Balance(journals, Frozen(m, a)) == MapSum(payouts, OpenAmount(m, a)) {
      PostingMoves(db.journals, journalId, journal, available, frozen, r.asset, r.Amount(), Frozen(m, a));
      MapSumInsert(db.payouts, OpenAmount(m, a), r.id, p);
    }
    forall m, a ensures 0 <= Balance(journals, Available(m, a)) {
      PostingMoves(db.journals, journalId, journal, available, frozen, r.asset, r.Amount(), Available(m, a));
    }
    forall a ensures Balance(journals, Custody(a)) == MapSum(db.intents, CreditedAmount(a)) - MapSum(payouts, SucceededAmount(a)) {
      PostingMoves(db.journals, journalId, journal, available, frozen, r.asset, r.Amount(), Custody(a));
      MapSumInsert(db.payouts, SucceededAmount(a), r.id, p);
    }
  }

  // ---------- reject, fail, succeed ----------

  /** The journal a payout's closing status calls for, and the account it credits. */
  predicate Closes(was: Payout, id: string, p: Payout, journalId: string, journal: Journal, credit: Account) {
    && SameIdentity(p, was) && Open(was.job.status) && p.review.Some? && !p.screeningOpen
    && ( || (p.job.status == Rejected && p.unfreezeId == Some(journalId) && p.settlementId == None
             && credit == Available(p.merchant, p.asset) && journal == UnfreezeJournal(id, p, p.review.value.reviewer))
         || (p.job.status == Failed && p.unfreezeId == Some(journalId) && p.settlementId == None
             && credit == Available(p.merchant, p.asset) && journal == TerminalJournal(id, p, false))
         || (p.job.status == Succeeded && p.settlementId == Some(journalId) && p.unfreezeId == None
             && credit == Custody(p.asset) && journal == TerminalJournal(id, p, true)))
  }

  /** A payout leaves the open statuses together with the journal that returns or pays its amount. */
  lemma ClosePayout(db: Db, id: string, p: Payout, journalId: string, journal: Journal, credit: Account)
    requires LedgerInv(db) && journalId !in db.journals && id in db.payouts
    requires Closes(db.payouts[id], id, p, journalId, journal, credit)
    requires Frozen(p.merchant, p.asset) in db.accounts && credit in db.accounts
    ensures LedgerInv(db.(journals := db.journals[journalId := journal], payouts := db.payouts[id := p]))
  {
    hide FrozenMatches, AvailableCovered, CustodyMatches, Conserved;
    CloseLinks(db.journals, db.payouts, id, p, journalId, journal, credit);
    CloseOwners(db.journals, db.payouts, db.intents, id, p, journalId, journal, credit);
    CloseSums(db, id, p, journalId, journal, credit);
    CloseConserves(db.accounts, db.journals, db.payouts, id, p, journalId, journal, credit);
  }

  lemma CloseConserves(accounts: map<Account, AccountStatus>, journals: Journals, payouts: map<string, Payout>, id: string, p: Payout, journalId: string, journal: Journal, credit: Account)
    requires Conserved(accounts, journals) && journalId !in journals && id in payouts
    requires Closes(payouts[id], id, p, journalId, journal, credit)
    requires Frozen(p.merchant, p.asset) in accounts && credit in accounts
    ensures Conserved(accounts, journals[journalId := journal])
  {
    PostingConserves(accounts, journals, journalId, journal, Frozen(p.merchant, p.asset), credit, p.asset, p.amount);
  }

  lemma CloseOwners(journals: Journals, payouts: map<string, Payout>, intents: map<string, Intent>, id: string, p: Payout, journalId: string, journal: Journal, credit: Account)
    requires JournalsOwned(journals, payouts, intents) && IntentsLinked(journals, intents) && journalId !in journals && id in payouts
    requires Closes(payouts[id], id, p, journalId, journal, credit)
    ensures JournalsOwned(journals[journalId := journal], payouts[id := p], intents)
    ensures IntentsLinked(journals[journalId := journal], intents)
  {
    RelinkIntents(journals, journals[journalId := journal], intents);
    OwnersKept(journals, payouts, intents, id, p);
    OwnersGrow(journals, payouts[id := p], intents, journalId, journal);
  }

  lemma CloseLinks(journals: Journals, payouts: map<string, Payout>, id: string, p: Payout, journalId: string, journal: Journal, credit: Account)
    requires PayoutsLinked(journals, payouts) && journalId !in journals && id in payouts
    requires Closes(payouts[id], id, p, journalId, journal, credit)
    ensures PayoutsLinked(journals[journalId := journal], payouts[id := p]) && p.amount > 0
  {
    assert PayoutLinks(journals, id, payouts[id]);
    assert FreezeJournal(id, p) == FreezeJournal(id, payouts[id]);
    RelinkPayout(journals, journals[journalId := journal], payouts, id, p);
  }

  lemma CloseSums(db: Db, id: string, p: Payout, journalId: string, journal: Journal, credit: Account)
    requires Balances(db) && journalId !in db.journals && id in db.payouts && p.amount > 0
    requires Closes(db.payouts[id], id, p, journalId, journal, credit)
    ensures Balances(db.(journals := db.journals[journalId := journal], payouts := db.payouts[id := p]))
  {
    hide MapSum, Balance;
    var journals, payouts := db.journals[journalId := journal], db.payouts[id := p];
    forall m, a ensures Balance(journals, Frozen(m, a)) == MapSum(payouts, OpenAmount(m, a)) {
      CloseMoves(db.journals, db.payouts, id, p, journalId, journal, credit, m, a);
    }
    forall m, a ensures 0 <= Balance(journals, Available(m, a)) {
      CloseMoves(db.journals, db.payouts, id, p, journalId, journal, credit, m, a);
    }
    forall a ensures Balance(journals, Custody(a)) == MapSum(db.intents, CreditedAmount(a)) - MapSum(payouts, SucceededAmount(a)) {
      CloseMoves(db.journals, db.payouts, id, p, journalId, journal, credit, "", a);
    }
  }

  /** What closing a payout does to the balances of one merchant and asset. */
  lemma CloseMoves(journals: Journals, payouts: map<string, Payout>, id: string, p: Payout, journalId: string, journal: Journal, credit: Account, m: string, a: string)
    requires journalId !in journals && id in payouts && p.amount > 0 && Closes(payouts[id], id, p, journalId, journal, credit)
    ensures
      var next := journals[journalId := journal];
      && Balance(next, Frozen(m, a)) - MapSum(payouts[id := p], OpenAmount(m, a)) == Balance(journals, Frozen(m, a)) - MapSum(payouts, OpenAmount(m, a))
      && Balance(next, Available(m, a)) >= Balance(journals, Available(m, a))
      && Balance(next, Custody(a)) + MapSum(payouts[id := p], SucceededAmount(a)) == Balance(journals, Custody(a)) + MapSum(payouts, SucceededAmount(a))
  {
    var debit := Frozen(p.merchant, p.asset);
    PostingMoves(journals, journalId, journal, debit, credit, p.asset, p.amount, Frozen(m, a));
    PostingMoves(journals, journalId, journal, debit, credit, p.asset, p.amount, Available(m, a));
    PostingMoves(journals, journalId, journal, debit, credit, p.asset, p.amount, Custody(a));
    SumsAfterUpdate(payouts, id, p, m, a);
  }

  // ---------- deposits ----------

  predicate Credits(was: Intent, i: Intent, journalId: string) {
    && was.journalId.None? && was.credited == 0
    && i.merchant == was.merchant && i.asset == was.asset && i.expected == was.expected
    && i.journalId == Some(journalId) && i.credited == i.expected && 0 < i.expected <= MAX_INT64
  }

  /** Crediting an intent together with the journal that books it. */
  lemma CreditIntent(db: Db, id: string, i: Intent, journalId: string)
    requires LedgerInv(db) && journalId !in db.journals && id in db.intents && Credits(db.intents[id], i, journalId)
    requires Custody(i.asset) in db.accounts && Available(i.merchant, i.asset) in db.accounts
    ensures LedgerInv(db.(journals := db.journals[journalId := Deposits.CreditJournal(id, i)], intents := db.intents[id := i]))
  {
    var journal := Deposits.CreditJournal(id, i);
    RelinkPayouts(db.journals, db.journals[journalId := journal], db.payouts);
    RelinkIntents(db.journals, db.journals[journalId := journal], db.intents);
    IntentOwners(db.journals, db.payouts, db.intents, id, i);
    OwnersGrow(db.journals, db.payouts, db.intents[id := i], journalId, journal);
    CreditSums(db, id, i, journalId);
    PostingConserves(db.accounts, db.journals, journalId, journal, Custody(i.asset), Available(i.merchant, i.asset), i.asset, i.expected);
  }

  lemma IntentOwners(journals: Journals, payouts: map<string, Payout>, intents: map<string, Intent>, id: string, i: Intent)
    requires JournalsOwned(journals, payouts, intents)
    requires id in intents ==> intents[id].journalId.None? || i.journalId == intents[id].journalId
    ensures JournalsOwned(journals, payouts, intents[id := i])
  {
    forall j | j in journals ensures Owned(payouts, intents[id := i], j, journals[j]) {
      assert Owned(payouts, intents, j, journals[j]);
    }
  }

  lemma CreditSums(db: Db, id: string, i: Intent, journalId: string)
    requires Balances(db) && journalId !in db.journals && id in db.intents && Credits(db.intents[id], i, journalId)
    ensures Balances(db.(journals := db.journals[journalId := Deposits.CreditJournal(id, i)], intents := db.intents[id := i]))
  {
    var journal := Deposits.CreditJournal(id, i);
    var debit, credit := Custody(i.asset), Available(i.merchant, i.asset);
    var journals, intents := db.journals[journalId := journal], db.intents[id := i];
    forall m, a ensures Balance(journals, Frozen(m, a)) == Balance(db.journals, Frozen(m, a)) {
      PostingMoves(db.journals, journalId, journal, debit, credit, i.asset, i.expected, Frozen(m, a));
    }
    forall m, a ensures 0 <= Balance(journals, Available(m, a)) {
      PostingMoves(db.journals, journalId, journal, debit, credit, i.asset, i.expected, Available(m, a));
    }
    forall a ensures Balance(journals, Custody(a)) == MapSum(intents, CreditedAmount(a)) - MapSum(db.payouts, SucceededAmount(a)) {
      PostingMoves(db.journals, journalId, journal, debit, credit, i.asset, i.expected, Custody(a));
      MapSumUpdate(db.intents, CreditedAmount(a), id, i);
    }
  }

  /** Intent changes that credit nothing. */
  predicate QuietIntentChange(intents: map<string, Intent>, id: string, i: Intent) {
    && 0 < i.expected
    && (id in intents ==>
          i.merchant == intents[id].merchant && i.asset == intents[id].asset && i.expected == intents[id].expected
          && i.journalId == intents[id].journalId && i.credited == intents[id].credited)
    && (id !in intents ==> i.journalId.None? && i.credited == 0)
  }

  lemma QuietIntent(db: Db, id: string, i: Intent)
    requires LedgerInv(db) && QuietIntentChange(db.intents, id, i)
    ensures LedgerInv(db.(intents := db.intents[id := i]))
  {
    assert id in db.intents ==> IntentLinks(db.journals, id, db.intents[id]);
    IntentOwners(db.journals, db.payouts, db.intents, id, i);
    QuietIntentSums(db.journals, db.payouts, db.intents, id, i);
    QuietIntentLinks(db.journals, db.intents, id, i);
  }

  lemma QuietIntentLinks(journals: Journals, intents: map<string, Intent>, id: string, i: Intent)
    requires IntentsLinked(journals, intents) && QuietIntentChange(intents, id, i)
    ensures IntentsLinked(journals, intents[id := i])
  {
    forall other | other in intents ensures IntentLinks(journals, other, intents[other]) {
    }
    if id in intents {
      assert Deposits.CreditJournal(id, i) == Deposits.CreditJournal(id, intents[id]);
    }
  }

  lemma QuietIntentSums(journals: Journals, payouts: map<string, Payout>, intents: map<string, Intent>, id: string, i: Intent)
    requires CustodyMatches(journals, payouts, intents) && QuietIntentChange(intents, id, i)
    ensures CustodyMatches(journals, payouts, intents[id := i])
  {
    forall a ensures MapSum(intents[id := i], CreditedAmount(a)) == MapSum(intents, CreditedAmount(a)) {
      if id in intents {
        MapSumUpdate(intents, CreditedAmount(a), id, i);
      } else {
        MapSumInsert(intents, CreditedAmount(a), id, i);
      }
    }
  }
}
