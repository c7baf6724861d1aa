// The deposit store: matching one screened event, and closing due intents, as in-place transactions.
module DepositStore {
  import opened Prelude
  import opened Chain
  import opened Ledger
  import opened Tables
  import opened Deposits
  import opened Storage
  import opened DepositProofs

  /** Expiring a set of rows, each as ExpiredIntent says. */
  function AllExpired(intents: map<string, Intent>, ids: set<string>): map<string, Intent> {
    map id | id in intents :: if id in ids then ExpiredIntent(intents[id]) else intents[id]
  }

  class Store {
    const cfg: Config
    const db: Database

    constructor (cfg: Config, db: Database)
      ensures this.cfg == cfg && this.db == db
    {
      this.cfg, this.db := cfg, db;
    }

    ghost predicate Valid()
      reads this, db
    {
      db.Valid() && IntentsUnique(db.intents)
    }

    /** The intent of a deposit address, if it has one. */
    method FindIntent(asset: string, address: string) returns (found: Option<string>)
      requires Valid()
      ensures found == IntentAt(db.View(), asset, address)
      ensures found.Some? ==> found.value in db.intents
    {
      var todo := db.intents.Keys;
      while todo != {}
        invariant todo <= db.intents.Keys
        invariant forall id :: id in db.intents && id !in todo ==> !(db.intents[id].asset == asset && db.intents[id].address == address)
        decreases todo
      {
        var id :| id in todo;
        if db.intents[id].asset == asset && db.intents[id].address == address {
          return Some(id);
        }
        todo := todo - {id};
      }
      return None;
    }

    method RecordReviewRow(key: EventId, address: string, intentId: Option<string>, amount: int, reason: ReviewReason)
      modifies db`matches
      ensures db.View() == RecordReview(old(db.View()), key, address, intentId, amount, reason)
    {
      db.matches := db.matches[key := MatchRow(address, intentId, Some(reason), amount)];
    }

    /** MatchNext for the event it locked. */
    method MatchNext(input: MatchInput, journalId: string) returns (outcome: MatchOutcome)
      requires Valid()
      modifies db
      ensures (db.View(), outcome) == Match(cfg, old(db.View()), input, journalId)
      ensures Valid()
      ensures outcome == NothingToMatch <==>
                !(input.event in old(db.events) && input.event !in old(db.matches)
                  && (input.event.contract, old(db.events)[input.event].recipient) in cfg.depositMerchant)
      ensures outcome.SetAside? && outcome.reason !in {AmountOutOfRange, LedgerAccountUnavailable} ==>
                exists intent :: Causes(input, old(db.events)[input.event].time, intent, outcome.reason)
                  && (forall i :: intent == Some(i) ==> exists id :: Pays(old(db.View()), input.event, id) && old(db.intents)[id] == i)
      ensures outcome.Applied? || outcome.MatchFailed? || outcome in {SetAside(AmountOutOfRange), SetAside(LedgerAccountUnavailable)} ==>
                && AllActive(input)
                && exists id :: Pays(old(db.View()), input.event, id)
                     && old(db.intents)[id].createdAt <= old(db.events)[input.event].time <= old(db.intents)[id].expiresAt
    {
      ghost var route := MatchRoutes(cfg, db.View(), input, journalId);
      var key := input.event;
      if key !in db.events || key in db.matches || !IsDeposit(cfg, key.contract, db.events[key].recipient) {
        return NothingToMatch;
      }
      var event := db.events[key];
      var intentId := FindIntent(key.contract, event.recipient);
      if input.screening != Allow {
        var reason := if input.screening == Deny then ScreeningDenied else ScreeningReview;
        RecordReviewRow(key, event.recipient, intentId, event.amount, reason);
        return SetAside(reason);
      }
      if intentId.None? {
        RecordReviewRow(key, event.recipient, None, event.amount, NoIntent);
        return SetAside(NoIntent);
      }
      var obstacle := Obstacle(input, event, db.intents[intentId.value]);
      if obstacle.Some? {
        RecordReviewRow(key, event.recipient, intentId, event.amount, obstacle.value);
        return SetAside(obstacle.value);
      }
      outcome := ApplyMatchedPayment(key, event, intentId.value, journalId);
    }

    /** applyMatchedPayment. */
    method ApplyMatchedPayment(key: EventId, event: EventRow, id: string, journalId: string) returns (outcome: MatchOutcome)
      requires Valid() && id in db.intents
      modifies db
      ensures (db.View(), outcome) == Apply(old(db.View()), key, event, id, journalId)
      ensures Valid()
    {
      var intent := db.intents[id];
      var received := intent.received + event.amount;
      var status := StatusFor(received, intent.expected);
      if status == Paid {
        outcome := CreditExactPayment(key, event, id, journalId);
        return;
      }
      db.intents := db.intents[id := intent.(received := received, status := status)];
      if status == Overpaid {
        RecordReviewRow(key, event.recipient, Some(id), event.amount, OverpaidReason);
        return Applied(Overpaid, false);
      }
      db.matches := db.matches[key := MatchRow(event.recipient, Some(id), None, event.amount)];
      outcome := Applied(PartiallyPaid, false);
    }

    /** creditExactPayment: post the credit, mark the intent, announce it; or roll back. */
    method CreditExactPayment(key: EventId, event: EventRow, id: string, journalId: string) returns (outcome: MatchOutcome)
      requires Valid() && id in db.intents
      modifies db
      ensures (db.View(), outcome) == ApplyExact(old(db.View()), key, event, id, journalId)
      ensures Valid()
    {
      var intent := db.intents[id];
      if intent.expected > MAX_INT64 {
        RecordReviewRow(key, event.recipient, Some(id), event.amount, AmountOutOfRange);
        return SetAside(AmountOutOfRange);
      }
      if !IsActive(db.View(), Custody(intent.asset)) || !IsActive(db.View(), Available(intent.merchant, intent.asset)) {
        RecordReviewRow(key, event.recipient, Some(id), event.amount, LedgerAccountUnavailable);
        return SetAside(LedgerAccountUnavailable);
      }
      var before := db.journals;
      var posted := db.PostInTransaction(journalId, CreditJournal(id, intent));
      if posted.IdempotencyConflict? || posted.LookupFailed? {
        return MatchFailed;
      }
      if intent.journalId.Some? {
        db.journals := before;
        return MatchFailed;
      }
      var ledgerId := if posted.Created? then journalId else posted.id;
      db.intents := db.intents[id := intent.(received := intent.expected, status := Paid, journalId := Some(ledgerId), credited := intent.expected)];
      db.outbox := db.outbox + [OutboxEvent(DepositConfirmed, id, intent.expected, ledgerId)];
      db.matches := db.matches[key := MatchRow(event.recipient, Some(id), None, event.amount)];
      outcome := Applied(Paid, true);
    }

    /** The due rows, up to the limit, that no other transaction has locked. */
    method SelectDue(limit: nat, locked: set<string>) returns (due: set<string>)
      ensures |due| <= limit && due !! locked
      ensures forall id :: id in due ==> id in db.intents && Due(db.intents[id], db.now)
      ensures |due| == limit || forall id :: id in db.intents && id !in locked && id !in due ==> !Due(db.intents[id], db.now)
    {
      due := {};
      var todo := db.intents.Keys - locked;
      while todo != {} && |due| < limit
        invariant todo <= db.intents.Keys && todo !! locked && todo !! due && due !! locked && |due| <= limit
        invariant forall id :: id in due ==> id in db.intents && Due(db.intents[id], db.now)
        invariant forall id :: id in db.intents && id !in locked && id !in todo && id !in due ==> !Due(db.intents[id], db.now)
        decreases todo
      {
        var id :| id in todo;
        if Due(db.intents[id], db.now) {
          due := due + {id};
        }
        todo := todo - {id};
      }
    }

    /** ExpireDue: the selected rows become expired or underpaid, all at once. */
    method ExpireDue(limit: nat, locked: set<string>) returns (closed: set<string>)
      requires Valid()
      modifies db`intents
      ensures Valid() && |closed| <= limit && closed !! locked
      ensures forall id :: id in closed ==> id in old(db.intents) && Due(old(db.intents)[id], db.now)
      ensures db.intents == AllExpired(old(db.intents), closed)
      ensures |closed| == limit || forall id :: id in db.intents && id !in locked ==> !Due(db.intents[id], db.now)
    {
      closed := SelectDue(limit, locked);
      db.intents := AllExpired(db.intents, closed);
    }
  }

  /** Closing several rows at once is closing them one by one. */
  lemma {:induction false} ExpiredOneByOne(db: Db, ids: set<string>, id: string)
    requires id in db.intents && id !in ids && Due(db.intents[id], db.now)
    requires forall other :: other in ids ==> other in db.intents && Due(db.intents[other], db.now)
    ensures AllExpired(db.intents, ids + {id}) == Expire(db.(intents := AllExpired(db.intents, ids)), id).intents
  {
    assert AllExpired(db.intents, ids)[id] == db.intents[id];
  }
}
