// The database as the services see it: one field per table, updated in place by transactions.
module Storage {
  import opened Prelude
  import opened Sums
  import opened Chain
  import opened Lease
  import opened Ledger
  import opened Tables
  import opened Gateway
  import opened LeaseColumns

  /** UNIQUE (requester, key) and UNIQUE (requester, reference) of journal_transactions. */
  predicate JournalsUnique(journals: Journals) {
    forall a, b :: a in journals && b in journals && a != b ==> !SameKeys(journals[a], journals[b])
  }

  predicate HoldsKey(journals: Journals, k: string, journal: Journal) {
    k in journals && journals[k].requester == journal.requester && journals[k].key == journal.key
  }

  predicate HoldsReference(journals: Journals, k: string, journal: Journal) {
    && k in journals && journals[k].requester == journal.requester
    && journals[k].referenceType == journal.referenceType && journals[k].referenceId == journal.referenceId
  }

  /** The same posting as the journal's, whatever its keys. */
  predicate Repeats(was: Journal, journal: Journal) {
    was.referenceType == journal.referenceType && was.referenceId == journal.referenceId && was.entries == journal.entries
  }

  /** With unique keys the row that holds a journal's key is the one a lookup finds. */
  lemma KeyDecides(journals: Journals, id: string, journal: Journal, other: string)
    requires JournalsUnique(journals) && other in journals
    requires journals[other].requester == journal.requester && journals[other].key == journal.key
    ensures Post(journals, id, journal) == if Repeats(journals[other], journal) then Existing(other) else IdempotencyConflict
  {
    assert SameKeys(journals[other], journal);
  }

  /** When no row holds the key, the one that holds the reference decides. */
  lemma ReferenceDecides(journals: Journals, id: string, journal: Journal, other: string)
    requires JournalsUnique(journals) && other in journals
    requires journals[other].requester == journal.requester
    requires journals[other].referenceType == journal.referenceType && journals[other].referenceId == journal.referenceId
    requires forall k :: k in journals && journals[k].requester == journal.requester ==> journals[k].key != journal.key
    ensures Post(journals, id, journal) == if Repeats(journals[other], journal) then Existing(other) else IdempotencyConflict
  {
  }

  /** A journal is inserted exactly when its id, its key and its reference are all unused by its requester. */
  lemma InsertedExactly(journals: Journals, id: string, journal: Journal)
    ensures Post(journals, id, journal) == Created <==>
      && id !in journals
      && forall other :: other in journals && journals[other].requester == journal.requester ==>
           && journals[other].key != journal.key
           && !(journals[other].referenceType == journal.referenceType && journals[other].referenceId == journal.referenceId)
    ensures PostedJournals(journals, id, journal) == if Post(journals, id, journal) == Created then journals[id := journal] else journals
  {
    if id !in journals {
      assert forall other :: other in journals ==> (SameKeys(journals[other], journal) <==>
          && journals[other].requester == journal.requester
          && (journals[other].key == journal.key
              || (journals[other].referenceType == journal.referenceType && journals[other].referenceId == journal.referenceId)));
    }
  }

  class Database {
    var now: nat
    var accounts: map<Account, AccountStatus>
    var journals: Journals
    var payouts: map<string, Payout>
    var sweeps: map<string, Sweep>
    var outbox: seq<OutboxEvent>
    var cursor: Cursor
    var events: map<EventId, EventRow>
    var intents: map<string, Intent>
    var matches: map<EventId, MatchRow>
    var snapshots: seq<Snapshot>

    /** The tables as one value. */
    function View(): Db
      reads this
    {
      Db(now, accounts, journals, payouts, sweeps, outbox, cursor, events, intents, matches, snapshots)
    }

    ghost predicate Valid()
      reads this
    {
      JournalsUnique(journals)
    }

    constructor (db: Db)
      requires JournalsUnique(db.journals)
      ensures Valid() && View() == db
    {
      now, accounts, journals, payouts, sweeps := db.now, db.accounts, db.journals, db.payouts, db.sweeps;
      outbox, cursor, events, intents, matches, snapshots := db.outbox, db.cursor, db.events, db.intents, db.matches, db.snapshots;
    }

    // ---------- the ledger ----------

    /** The signed effect of one journal's entries on an account. */
    method NetEffect(entries: seq<Entry>, account: Account) returns (effect: int)
      ensures effect == SideSum(entries, account)
    {
      effect := 0;
      for i := 0 to |entries|
        invariant effect == SideSum(entries[..i], account)
      {
        assert entries[..i + 1][..i] == entries[..i];
        if entries[i].account == account {
          if entries[i].side == NormalSide(account) {
            effect := effect + entries[i].amount;
          } else {
            effect := effect - entries[i].amount;
          }
        }
      }
      assert entries[..|entries|] == entries;
    }

    /** accountBalance: the sum over all posted entries of the account. */
    method AccountBalance(account: Account) returns (balance: int)
      ensures balance == Balance(journals, account)
    {
      balance := 0;
      var todo := journals.Keys;
      ghost var seen: Journals := map[];
      while todo != {}
        invariant todo <= journals.Keys
        invariant seen == map id | id in journals && id !in todo :: journals[id]
        invariant balance == MapSum(seen, Effect(account))
        decreases todo
      {
        var id :| id in todo;
        var effect := NetEffect(journals[id].entries, account);
        MapSumInsert(seen, Effect(account), id, journals[id]);
        seen := seen[id := journals[id]];
        balance := balance + effect;
        todo := todo - {id};
      }
      assert seen == journals;
    }

    /** findByIdempotencyKey. */
    method FindByKey(journal: Journal) returns (found: Option<string>)
      ensures found.Some? ==> HoldsKey(journals, found.value, journal)
      ensures found.None? ==> forall k :: k in journals ==> !HoldsKey(journals, k, journal)
    {
      var todo := journals.Keys;
      while todo != {}
        invariant todo <= journals.Keys
        invariant forall k :: k in journals && k !in todo ==> !HoldsKey(journals, k, journal)
        decreases todo
      {
        var id :| id in todo;
        if HoldsKey(journals, id, journal) {
          return Some(id);
        }
        todo := todo - {id};
      }
      return None;
    }

    /** findByReference. */
    method FindByReference(journal: Journal) returns (found: Option<string>)
      ensures found.Some? ==> HoldsReference(journals, found.value, journal)
      ensures found.None? ==> forall k :: k in journals ==> !HoldsReference(journals, k, journal)
    {
      var todo := journals.Keys;
      while todo != {}
        invariant todo <= journals.Keys
        invariant forall k :: k in journals && k !in todo ==> !HoldsReference(journals, k, journal)
        decreases todo
      {
        var id :| id in todo;
        if HoldsReference(journals, id, journal) {
          return Some(id);
        }
        todo := todo - {id};
      }
      return None;
    }

    /** existingPostResult: the row that blocked the insert decides between a repeat and a conflict. */
    method ExistingPost(id: string, journal: Journal) returns (r: PostResult)
      requires Valid() && Taken(journals, id, journal)
      ensures r == Post(journals, id, journal)
    {
      var found := FindByKey(journal);
      if found.Some? {
        KeyDecides(journals, id, journal, found.value);
      } else {
        found := FindByReference(journal);
        if found.None? {
          return LookupFailed;
        }
        ReferenceDecides(journals, id, journal, found.value);
      }
      r := if SameRequest(journals[found.value], journal) then Existing(found.value) else IdempotencyConflict;
    }

    /** PostInTransaction: insert a draft, add its entries one by one, flip it to posted. */
    method PostInTransaction(id: string, journal: Journal) returns (r: PostResult)
      requires Valid()
      modifies this`journals
      ensures Valid() && r == Post(old(journals), id, journal)
      ensures journals == PostedJournals(old(journals), id, journal)
    {
      var byKey := FindByKey(journal);
      var byReference := FindByReference(journal);
      if id in journals || byKey.Some? || byReference.Some? {
        if byKey.Some? {
          assert SameKeys(journals[byKey.value], journal);
        } else if byReference.Some? {
          assert SameKeys(journals[byReference.value], journal);
        }
        r := ExistingPost(id, journal);
        return;
      }
      var draft := journal.(entries := []);
      for i := 0 to |journal.entries|
        invariant draft == journal.(entries := journal.entries[..i])
        invariant journals == old(journals)
      {
        draft := draft.(entries := draft.entries + [journal.entries[i]]);
      }
      assert journal.entries[..|journal.entries|] == journal.entries;
      journals := journals[id := draft];
      r := Created;
    }

    // ---------- leased rows ----------

    /** The claiming statement: some claimable row that no other transaction has locked, or none. */
    method ClaimNext(cfg: Config, table: Table, phase: Phase, worker: string, duration: nat, locked: set<string>) returns (claim: Option<Claim>)
      requires duration > 0
      modifies this`payouts, this`sweeps
      ensures claim.None? ==> View() == old(View()) && forall id :: HasRow(View(), table, id) && id !in locked ==> !Claimable(RowJob(View(), table, id), phase, now)
      ensures claim.Some? ==>
                && claim.value.table == table && HasRow(old(View()), table, claim.value.id) && claim.value.id !in locked
                && Claimable(RowJob(old(View()), table, claim.value.id), phase, old(now))
                && claim.value == NewClaim(cfg, old(View()), table, claim.value.id, phase, worker)
                && View() == WithJob(old(View()), table, claim.value.id,
                                     ClaimJob(RowJob(old(View()), table, claim.value.id), phase, worker, old(now), duration))
      ensures claim.None? ==>
                forall id :: HasRow(old(View()), table, id) && id !in locked && InPhase(RowJob(old(View()), table, id), phase) ==>
                  var job := RowJob(old(View()), table, id);
                  (job.lease.Some? && now < job.lease.value.until) || (phase == ConfirmationPhase && now < job.nextConfirmation)
      ensures claim.Some? ==>
                && HasRow(old(View()), table, claim.value.id)
                && var was := RowJob(old(View()), table, claim.value.id);
                   && InPhase(was, phase) && (was.lease.Some? ==> was.lease.value.until <= now)
                   && (phase == ConfirmationPhase ==> was.nextConfirmation <= now)
                   && OnlyRow(old(View()), View(), table, claim.value.id, ClaimedJob(was, phase, worker, now, duration))
    {
      var todo := (if table == PayoutTable then payouts.Keys else sweeps.Keys) - locked;
      while todo != {}
        invariant forall id :: id in todo ==> HasRow(View(), table, id) && id !in locked
        invariant forall id :: HasRow(View(), table, id) && id !in locked && id !in todo ==> !Claimable(RowJob(View(), table, id), phase, now)
        invariant View() == old(View())
        decreases todo
      {
        var id :| id in todo;
        var job := RowJob(View(), table, id);
        if Claimable(job, phase, now) {
          claim := Some(NewClaim(cfg, View(), table, id, phase, worker));
          StoreJob(table, id, ClaimJob(job, phase, worker, now, duration));
          return;
        }
        todo := todo - {id};
      }
      claim := None;
    }

    /** UPDATE ... WHERE the lease is still this claim's; false when no row was affected. */
    method CompleteSigning(claim: Claim, tx: SignedTransaction) returns (done: bool)
      modifies this`payouts, this`sweeps
      ensures View() == SigningFinished(old(View()), SignerReturned(claim, tx))
      ensures done <==> HasRow(old(View()), claim.table, claim.id) && HeldLive(RowJob(old(View()), claim.table, claim.id), claim, now)
                        && TransactionUnused(old(View()), claim.table, claim.id, tx.id)
      ensures done <==>
                LiveRow(old(View()), claim) && forall other :: other != claim.id ==> !Carries(old(View()), claim.table, other, tx.id)
      ensures done ==> OnlyRow(old(View()), View(), claim.table, claim.id,
                               RowJob(old(View()), claim.table, claim.id).(status := ReadyForBroadcast, transaction := Some(tx), lease := None, lastError := ""))
      ensures !done ==> View() == old(View())
    {
      UnusedExact(View(), claim.table, claim.id, tx.id);
      done := HasRow(View(), claim.table, claim.id) && HeldLive(RowJob(View(), claim.table, claim.id), claim, now)
              && TransactionUnused(View(), claim.table, claim.id, tx.id);
      if done {
        StoreJob(claim.table, claim.id, Lease.CompleteSigning(RowJob(View(), claim.table, claim.id), tx));
      }
    }

    method ReleaseSigning(claim: Claim) returns (done: bool)
      modifies this`payouts, this`sweeps
      ensures View() == SigningFinished(old(View()), SignerErred(claim))
      ensures done <==> HasRow(old(View()), claim.table, claim.id) && Held(RowJob(old(View()), claim.table, claim.id), claim)
      ensures done <==> LeasedRow(old(View()), claim)
      ensures done ==> OnlyRow(old(View()), View(), claim.table, claim.id,
                               RowJob(old(View()), claim.table, claim.id).(lease := None, lastError := "signer_error"))
      ensures !done ==> View() == old(View())
    {
      done := HasRow(View(), claim.table, claim.id) && Held(RowJob(View(), claim.table, claim.id), claim);
      if done {
        StoreJob(claim.table, claim.id, Lease.ReleaseSigning(RowJob(View(), claim.table, claim.id), "signer_error"));
      }
    }

    method BeginConfirmation(claim: Claim, result: BroadcastResult) returns (done: bool)
      modifies this`payouts, this`sweeps
      ensures View() == BroadcastFinished(old(View()), claim, result)
      ensures done <==> HasRow(old(View()), claim.table, claim.id) && HeldLive(RowJob(old(View()), claim.table, claim.id), claim, now)
      ensures done <==> LiveRow(old(View()), claim)
      ensures done ==> OnlyRow(old(View()), View(), claim.table, claim.id,
                               RowJob(old(View()), claim.table, claim.id).(
                                 status := Confirming, broadcastResult := Some(result), nextConfirmation := now, lease := None,
                                 lastError := if result == Accepted then "" else "broadcast_error"))
      ensures !done ==> View() == old(View())
    {
      done := HasRow(View(), claim.table, claim.id) && HeldLive(RowJob(View(), claim.table, claim.id), claim, now);
      if done {
        StoreJob(claim.table, claim.id, Lease.BeginConfirmation(RowJob(View(), claim.table, claim.id), result, "broadcast_error", now));
      }
    }

    method ReleaseConfirmation(claim: Claim, delay: nat, code: string) returns (done: bool)
      modifies this`payouts, this`sweeps
      ensures View() == ReleaseRow(old(View()), claim, delay, code)
      ensures done <==> HasRow(old(View()), claim.table, claim.id) && Held(RowJob(old(View()), claim.table, claim.id), claim)
      ensures done <==> LeasedRow(old(View()), claim)
      ensures done ==> OnlyRow(old(View()), View(), claim.table, claim.id,
                               RowJob(old(View()), claim.table, claim.id).(nextConfirmation := now + delay, lastError := code, lease := None))
      ensures !done ==> View() == old(View())
    {
      done := HasRow(View(), claim.table, claim.id) && Held(RowJob(View(), claim.table, claim.id), claim);
      if done {
        StoreJob(claim.table, claim.id, Lease.ReleaseConfirmation(RowJob(View(), claim.table, claim.id), delay, code, now));
      }
    }

    /** The terminal statement of a sweep execution. */
    method FinalizeSweep(claim: Claim, succeeded: bool, reason: string) returns (done: bool)
      requires claim.table == SweepTable
      modifies this`payouts, this`sweeps
      ensures done <==> claim.id in old(sweeps) && HeldLive(old(sweeps)[claim.id].job, claim, now)
      ensures View() == if done then WithJob(old(View()), SweepTable, claim.id, Finish(old(sweeps)[claim.id].job, succeeded, reason)) else old(View())
      ensures done <==> LiveRow(old(View()), claim)
      ensures done ==> OnlyRow(old(View()), View(), SweepTable, claim.id,
                               old(sweeps)[claim.id].job.(status := if succeeded then Succeeded else Failed, failureReason := reason, lastError := "", lease := None))
    {
      done := claim.id in sweeps && HeldLive(sweeps[claim.id].job, claim, now);
      if done {
        StoreJob(SweepTable, claim.id, Finish(sweeps[claim.id].job, succeeded, reason));
      }
    }

    /** identity.NewUUID: an id no journal has. */
    method NewJournalId() returns (id: string)
      ensures id !in journals
    {
      var longest: nat := 0;
      var todo := journals.Keys;
      while todo != {}
        invariant todo <= journals.Keys
        invariant forall k :: k in journals && k !in todo ==> |k| <= longest
        decreases todo
      {
        var k :| k in todo;
        if |k| > longest {
          longest := |k|;
        }
        todo := todo - {k};
      }
      id := seq(longest + 1, _ => '0');
      assert |id| > longest;
    }

    method StoreJob(table: Table, id: string, job: Job)
      requires HasRow(View(), table, id)
      modifies this`payouts, this`sweeps
      ensures View() == WithJob(old(View()), table, id, job)
    {
      if table == PayoutTable {
        payouts := payouts[id := payouts[id].(job := job)];
      } else {
        sweeps := sweeps[id := sweeps[id].(job := job)];
      }
    }
  }
}
