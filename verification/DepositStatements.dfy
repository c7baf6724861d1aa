// What matching does with an event in every reachable state, decided on the columns of the event, of its
// intent and of the accounts in the source's order, and the payment window every counted event lies in.
module DepositStatements {
  import opened Prelude
  import opened Chain
  import opened Ledger
  import opened Tables
  import opened Deposits
  import opened Gateway
  import opened LedgerProofs
  import opened DepositProofs
  import opened StoreProofs
  import opened Protocol
  import opened Frames
  import opened Invariants
  import opened Theorems
  import IndexProofs
  import LedgerTransactions
  import Payouts
  import Sweeps
  import Indexer

  // ---------- what each row of an intent keeps ----------

  /** The columns of an intent that nothing writes after its insertion. */
  predicate SameTerms(was: Intent, i: Intent) {
    && i.merchant == was.merchant && i.asset == was.asset && i.address == was.address
    && i.expected == was.expected && i.createdAt == was.createdAt && i.expiresAt == was.expiresAt
  }

  predicate TermsKept(was: map<string, Intent>, intents: map<string, Intent>) {
    forall id :: id in was ==> id in intents && SameTerms(was[id], intents[id])
  }

  /** An intent asks for an amount on an address registered for its merchant, and ends after it began. */
  predicate WellMade(cfg: Config, now: nat, i: Intent) {
    && 0 < i.expected < TWO_256 && i.createdAt <= now && i.createdAt < i.expiresAt
    && (i.asset, i.address) in cfg.depositMerchant && cfg.depositMerchant[(i.asset, i.address)] == i.merchant
  }

  /** The match row counts towards the amount received on its intent. */
  predicate Counts(m: MatchRow) {
    m.intentId.Some? && (m.review.None? || m.review == Some(OverpaidReason))
  }

  /** The event was on a block of the intent's time. */
  predicate InWindow(db: Db, key: EventId, id: string) {
    key in db.events && id in db.intents && db.intents[id].createdAt <= db.events[key].time <= db.intents[id].expiresAt
  }

  predicate WindowInv(cfg: Config, db: Db) {
    && IntentsUnique(db.intents)
    && (forall id :: id in db.intents ==> WellMade(cfg, db.now, db.intents[id]))
    && (forall key :: key in db.matches && Counts(db.matches[key]) ==> InWindow(db, key, db.matches[key].intentId.value))
  }

  // ---------- matching ----------

  /** The event is stored, unprocessed, and was paid to a deposit address. */
  predicate Waiting(cfg: Config, db: Db, key: EventId) {
    key in db.events && key !in db.matches && (key.contract, db.events[key].recipient) in cfg.depositMerchant
  }

  /** The intent of the address the event was paid to. */
  predicate Owns(db: Db, key: EventId, id: string)
    requires key in db.events
  {
    id in db.intents && db.intents[id].asset == key.contract && db.intents[id].address == db.events[key].recipient
  }

  function Reviewed(db: Db, key: EventId, intentId: Option<string>, reason: ReviewReason): Db
    requires key in db.events
  {
    db.(matches := db.matches[key := MatchRow(db.events[key].recipient, intentId, Some(reason), db.events[key].amount)])
  }

  /** The event counted on its intent, with the intent's new amount and status. */
  function Counted(db: Db, key: EventId, id: string, status: IntentStatus, review: Option<ReviewReason>): Db
    requires key in db.events && id in db.intents
  {
    var event, i := db.events[key], db.intents[id];
    db.(intents := db.intents[id := i.(received := i.received + event.amount, status := status)],
        matches := db.matches[key := MatchRow(event.recipient, Some(id), review, event.amount)])
  }

  /** The event that completes the amount: one journal, the credit on the intent, one announcement. */
  function Completed(db: Db, key: EventId, id: string, journalId: string): Db
    requires key in db.events && id in db.intents
  {
    var event, i := db.events[key], db.intents[id];
    var entries := [
      Entry(Custody(i.asset), i.asset, DebitSide, i.expected), Entry(Available(i.merchant, i.asset), i.asset, CreditSide, i.expected)];
    db.(journals := db.journals[journalId := Journal(DepositSystem, CreditKey(id), DepositReference, id, entries)],
        intents := db.intents[id := i.(received := i.expected, status := Paid, journalId := Some(journalId), credited := i.expected)],
        outbox := db.outbox + [OutboxEvent(DepositConfirmed, id, i.expected, journalId)],
        matches := db.matches[key := MatchRow(event.recipient, Some(id), None, event.amount)])
  }

  /** What an allowed event does on an intent: the first obstacle sets it aside, otherwise the amounts decide. */
  function PaidOn(db: Db, input: MatchInput, id: string, journalId: string): (Db, MatchOutcome)
    requires input.event in db.events && id in db.intents
  {
    var key, event, i := input.event, db.events[input.event], db.intents[id];
    var custody, available := Custody(i.asset), Available(i.merchant, i.asset);
    if !input.assetActive then (Reviewed(db, key, Some(id), AssetDisabled), SetAside(AssetDisabled))
    else if !input.merchantActive then (Reviewed(db, key, Some(id), MerchantInactive), SetAside(MerchantInactive))
    else if !input.addressActive then (Reviewed(db, key, Some(id), AddressRetired), SetAside(AddressRetired))
    else if event.time < i.createdAt then (Reviewed(db, key, Some(id), BeforeIntent), SetAside(BeforeIntent))
    else if i.expiresAt < event.time then (Reviewed(db, key, Some(id), AfterExpiry), SetAside(AfterExpiry))
    else if i.received + event.amount < i.expected then (Counted(db, key, id, PartiallyPaid, None), Applied(PartiallyPaid, false))
    else if i.received + event.amount > i.expected then (Counted(db, key, id, Overpaid, Some(OverpaidReason)), Applied(Overpaid, false))
    else if i.expected > 0x7FFF_FFFF_FFFF_FFFF then (Reviewed(db, key, Some(id), AmountOutOfRange), SetAside(AmountOutOfRange))
    else if custody !in db.accounts || db.accounts[custody] != Active || available !in db.accounts || db.accounts[available] != Active
    then (Reviewed(db, key, Some(id), LedgerAccountUnavailable), SetAside(LedgerAccountUnavailable))
    else (Completed(db, key, id, journalId), Applied(Paid, true))
  }

  /** What matching does with an event: refused by screening, without an intent, or on the intent of its address. */
  ghost predicate MatchedAs(cfg: Config, db: Db, input: MatchInput, journalId: string, result: (Db, MatchOutcome)) {
    var key := input.event;
    if !Waiting(cfg, db, key) then result == (db, NothingToMatch)
    else
      && (forall id :: Owns(db, key, id) ==>
            result == match input.screening
                      case Deny => (Reviewed(db, key, Some(id), ScreeningDenied), SetAside(ScreeningDenied))
                      case NeedsReview => (Reviewed(db, key, Some(id), ScreeningReview), SetAside(ScreeningReview))
                      case Allow => PaidOn(db, input, id, journalId))
      && ((forall id :: !Owns(db, key, id)) ==>
            result == match input.screening
                      case Deny => (Reviewed(db, key, None, ScreeningDenied), SetAside(ScreeningDenied))
                      case NeedsReview => (Reviewed(db, key, None, ScreeningReview), SetAside(ScreeningReview))
                      case Allow => (Reviewed(db, key, None, NoIntent), SetAside(NoIntent)))
  }

  lemma PaidExact(cfg: Config, db: Db, input: MatchInput, id: string, journalId: string)
    requires LedgerInv(db) && DepositInv(cfg, db) && EventsPositive(db.events) && journalId !in db.journals && Pays(db, input.event, id)
    ensures
      var event, i := db.events[input.event], db.intents[id];
      PaidOn(db, input, id, journalId) ==
        match Obstacle(input, event, i)
        case Some(reason) => (RecordReview(db, input.event, event.recipient, Some(id), event.amount, reason), SetAside(reason))
        case None => Apply(db, input.event, event, id, journalId)
  {
    hide LedgerInv, DepositInv;
    var key, event, i := input.event, db.events[input.event], db.intents[id];
    if Obstacle(input, event, i).None? {
      if i.received + event.amount != i.expected {
        PartialShape(db, key, event, id, journalId);
      } else {
        ExactPayment(cfg, db, key, id, journalId);
      }
    }
  }

  lemma ExactPayment(cfg: Config, db: Db, key: EventId, id: string, journalId: string)
    requires LedgerInv(db) && DepositInv(cfg, db) && EventsPositive(db.events) && journalId !in db.journals && Pays(db, key, id)
    requires db.intents[id].received + db.events[key].amount == db.intents[id].expected
    ensures
      var i := db.intents[id];
      var custody, available := Custody(i.asset), Available(i.merchant, i.asset);
      Apply(db, key, db.events[key], id, journalId) ==
        if i.expected > 0x7FFF_FFFF_FFFF_FFFF then (Reviewed(db, key, Some(id), AmountOutOfRange), SetAside(AmountOutOfRange))
        else if custody !in db.accounts || db.accounts[custody] != Active || available !in db.accounts || db.accounts[available] != Active
        then (Reviewed(db, key, Some(id), LedgerAccountUnavailable), SetAside(LedgerAccountUnavailable))
        else (Completed(db, key, id, journalId), Applied(Paid, true))
  {
    hide LedgerInv, DepositInv;
    ApplyExactShape(cfg, db, key, id, journalId);
    CreditReady(db, id, journalId);
  }

  lemma MatchExactAt(cfg: Config, db: Db, input: MatchInput, journalId: string)
    requires LedgerInv(db) && DepositInv(cfg, db) && EventsPositive(db.events) && journalId !in db.journals && IntentsUnique(db.intents)
    ensures MatchedAs(cfg, db, input, journalId, Match(cfg, db, input, journalId))
  {
    hide LedgerInv, DepositInv, Apply, PaidOn, Obstacle;
    var key := input.event;
    if Waiting(cfg, db, key) {
      IntentAtSpec(db, key.contract, db.events[key].recipient);
      forall id | Owns(db, key, id) ensures IntentAt(db, key.contract, db.events[key].recipient) == Some(id) {
      }
      if input.screening == Allow {
        forall id | Owns(db, key, id) ensures Match(cfg, db, input, journalId) == PaidOn(db, input, id, journalId) {
          PaidExact(cfg, db, input, id, journalId);
        }
      }
    }
  }

  // ---------- the payment window over a run ----------

  /** Processing one event moves at most one intent, and counts only within its time. */
  ghost predicate OneEvent(db: Db, key: EventId, m: MatchRow, id: string, i: Intent, next: Db) {
    && key !in db.matches && next.now == db.now && next.events == db.events
    && next.matches == db.matches[key := m]
    && (next.intents == db.intents || (id in db.intents && SameTerms(db.intents[id], i) && next.intents == db.intents[id := i]))
    && (Counts(m) ==> InWindow(db, key, m.intentId.value))
  }

  lemma OneEventKeepsWindow(cfg: Config, db: Db, key: EventId, m: MatchRow, id: string, i: Intent, next: Db)
    requires WindowInv(cfg, db) && OneEvent(db, key, m, id, i, next)
    ensures TermsKept(db.intents, next.intents) && WindowInv(cfg, next)
  {
    assert forall other :: other in next.intents ==> other in db.intents && SameTerms(db.intents[other], next.intents[other]);
    SameTermsKeepWindow(cfg, db, next);
  }

  /** Intents that keep their terms keep their windows. */
  lemma SameTermsKeepWindow(cfg: Config, db: Db, next: Db)
    requires WindowInv(cfg, db) && TermsKept(db.intents, next.intents) && next.intents.Keys == db.intents.Keys && db.now <= next.now
    requires forall key :: key in db.events ==> key in next.events && next.events[key] == db.events[key]
    requires forall key :: key in next.matches && Counts(next.matches[key]) ==>
      (key in db.matches && next.matches[key] == db.matches[key]) || InWindow(db, key, next.matches[key].intentId.value)
    ensures WindowInv(cfg, next)
  {
    forall id | id in next.intents ensures WellMade(cfg, next.now, next.intents[id]) {
      assert WellMade(cfg, db.now, db.intents[id]) && SameTerms(db.intents[id], next.intents[id]);
    }
    forall key | key in next.matches && Counts(next.matches[key]) ensures InWindow(next, key, next.matches[key].intentId.value) {
      var id := next.matches[key].intentId.value;
      assert InWindow(db, key, id) && SameTerms(db.intents[id], next.intents[id]);
    }
    forall a, b | a in next.intents && b in next.intents && a != b
      ensures next.intents[a].asset != next.intents[b].asset || next.intents[a].address != next.intents[b].address
    {
      assert SameTerms(db.intents[a], next.intents[a]) && SameTerms(db.intents[b], next.intents[b]);
    }
  }

  lemma ReviewedEvent(db: Db, key: EventId, id: string, reason: ReviewReason)
    requires key in db.events && key !in db.matches && id in db.intents && reason != OverpaidReason
    ensures OneEvent(db, key, Reviewed(db, key, Some(id), reason).matches[key], id, db.intents[id], Reviewed(db, key, Some(id), reason))
  {
  }

  lemma CountedEvent(db: Db, key: EventId, id: string, status: IntentStatus, review: Option<ReviewReason>)
    requires key !in db.matches && InWindow(db, key, id)
    ensures
      var next := Counted(db, key, id, status, review);
      OneEvent(db, key, next.matches[key], id, next.intents[id], next)
  {
  }

  lemma CompletedEvent(db: Db, key: EventId, id: string, journalId: string)
    requires key !in db.matches && InWindow(db, key, id)
    ensures
      var next := Completed(db, key, id, journalId);
      OneEvent(db, key, next.matches[key], id, next.intents[id], next)
  {
  }

  lemma PaidIsOneEvent(db: Db, input: MatchInput, id: string, journalId: string) returns (m: MatchRow, i: Intent)
    requires input.event in db.events && input.event !in db.matches && id in db.intents
    ensures OneEvent(db, input.event, m, id, i, PaidOn(db, input, id, journalId).0)
  {
    hide OneEvent, Reviewed, Counted, Completed;
    var key := input.event;
    var (next, outcome) := PaidOn(db, input, id, journalId);
    if outcome.SetAside? {
      ReviewedEvent(db, key, id, outcome.reason);
      return Reviewed(db, key, Some(id), outcome.reason).matches[key], db.intents[id];
    }
    assert InWindow(db, key, id);
    if outcome.credited {
      CompletedEvent(db, key, id, journalId);
    } else {
      CountedEvent(db, key, id, outcome.status, if outcome.status == Overpaid then Some(OverpaidReason) else None);
    }
    m, i := next.matches[key], next.intents[id];
  }

  lemma UniqueIntents(cfg: Config, db: Db)
    requires WindowInv(cfg, db)
    ensures IntentsUnique(db.intents)
  {
  }

  /** Matching counts only an event of the intent's time, and keeps the terms of every intent. */
  lemma MatchKeepsWindow(cfg: Config, db: Db, input: MatchInput, journalId: string)
    requires LedgerInv(db) && DepositInv(cfg, db) && EventsPositive(db.events) && journalId !in db.journals && WindowInv(cfg, db)
    ensures TermsKept(db.intents, Match(cfg, db, input, journalId).0.intents)
    ensures WindowInv(cfg, Match(cfg, db, input, journalId).0)
  {
    hide LedgerInv, DepositInv, Match, PaidOn, WindowInv, OneEvent;
    UniqueIntents(cfg, db);
    MatchExactAt(cfg, db, input, journalId);
    var key, next := input.event, Match(cfg, db, input, journalId).0;
    if Waiting(cfg, db, key) {
      if id :| Owns(db, key, id) {
        if input.screening == Allow {
          var m, i := PaidIsOneEvent(db, input, id, journalId);
          OneEventKeepsWindow(cfg, db, key, m, id, i, next);
        } else {
          AsideKeepsWindow(cfg, db, key, Some(id), if input.screening == Deny then ScreeningDenied else ScreeningReview);
        }
      } else {
        AsideKeepsWindow(cfg, db, key, None,
                         if input.screening == Deny then ScreeningDenied else if input.screening == NeedsReview then ScreeningReview else NoIntent);
      }
    }
  }

  lemma AsideKeepsWindow(cfg: Config, db: Db, key: EventId, intentId: Option<string>, reason: ReviewReason)
    requires WindowInv(cfg, db) && key in db.events && key !in db.matches && reason != OverpaidReason
    ensures TermsKept(db.intents, Reviewed(db, key, intentId, reason).intents) && WindowInv(cfg, Reviewed(db, key, intentId, reason))
  {
    var next := Reviewed(db, key, intentId, reason);
    SameTermsKeepWindow(cfg, db, next);
  }

  /** A new intent begins now, on an address no intent has. */
  lemma CreateKeepsWindow(cfg: Config, db: Db, id: string, i: Intent)
    requires WindowInv(cfg, db)
    ensures TermsKept(db.intents, Deposits.CreateIntent(cfg, db, id, i).intents) && WindowInv(cfg, Deposits.CreateIntent(cfg, db, id, i))
  {
  }

  lemma ExpireKeepsWindow(cfg: Config, db: Db, id: string)
    requires WindowInv(cfg, db)
    ensures TermsKept(db.intents, Expire(db, id).intents) && WindowInv(cfg, Expire(db, id))
  {
    hide WindowInv;
    var next := Expire(db, id);
    assert TermsKept(db.intents, next.intents) && next.intents.Keys == db.intents.Keys;
    SameTermsKeepWindow(cfg, db, next);
  }

  /** The tables of the other transactions: intents, matches and events stay, time goes on. */
  predicate OtherTables(db: Db, next: Db) {
    next.intents == db.intents && next.matches == db.matches && next.events == db.events && db.now <= next.now
  }

  lemma StoreKeepsWindow(cfg: Config, db: Db, x: StoreAction, next: Db)
    requires LedgerInv(db) && DepositInv(cfg, db) && EventsPositive(db.events) && StoreNext(cfg, db, x, next) && WindowInv(cfg, db)
    ensures TermsKept(db.intents, next.intents) && WindowInv(cfg, next)
  {
    hide LedgerInv, DepositInv, Match, Payouts.Create, Payouts.Review, Sweeps.Candidate, Deposits.CreateIntent, Expire, WindowInv;
    match x
    case MatchEvent(input, journalId) => MatchKeepsWindow(cfg, db, input, journalId);
    case CreateIntent(id, i) => CreateKeepsWindow(cfg, db, id, i);
    case ExpireIntent(id) => ExpireKeepsWindow(cfg, db, id);
    case CreatePayout(r, merchant, assetStatus, journalId) =>
      LedgerTransactions.CreateKeeps(db, r, merchant, assetStatus, journalId);
      OthersKeepWindow(cfg, db, next);
    case ReviewPayout(r, allowed, journalId) =>
      ReviewTables(db, r, allowed, journalId);
      OthersKeepWindow(cfg, db, next);
    case _ => OthersKeepWindow(cfg, db, next);
  }

  lemma ReviewTables(db: Db, r: Payouts.ReviewRequest, allowed: bool, journalId: string)
    ensures OtherTables(db, Payouts.Review(db, r, allowed, journalId).0)
  {
    hide PostedId, PostedJournals, Balance;
  }

  lemma OthersKeepWindow(cfg: Config, db: Db, next: Db)
    requires WindowInv(cfg, db) && OtherTables(db, next)
    ensures TermsKept(db.intents, next.intents) && WindowInv(cfg, next)
  {
    SameTermsKeepWindow(cfg, db, next);
  }

  lemma StepKeepsWindow(cfg: Config, s: State, a: Action, t: State)
    requires Inv(cfg, s) && Next(cfg, s, a, t) && WindowInv(cfg, s.db)
    ensures TermsKept(s.db.intents, t.db.intents) && WindowInv(cfg, t.db)
  {
    hide LedgerInv, DepositInv, StoreNext, WorkNext, ScanNext, CaptureNext, ChainNext, WindowInv, ProtocolInv, IndexProofs.IndexInv;
    match a
    case Store(x) => StoreKeepsWindow(cfg, s.db, x, t.db);
    case Work(p, x) =>
      WorkFrame(cfg, s, p, x, t);
      OthersKeepWindow(cfg, s.db, t.db);
    case Scan(p, x) =>
      EventsGrow(s.db, s.chain, s.procs[p], x, t.db, t.procs[p].pc);
      ScanTables(s.db, s.chain, s.procs[p], x, t.db, t.procs[p].pc);
      MoreEventsKeepWindow(cfg, s.db, t.db);
    case Capture(p, x) =>
      CaptureTables(cfg, s.db, s.chain, s.procs[p].pc, x, t.db, t.procs[p].pc);
      OthersKeepWindow(cfg, s.db, t.db);
    case Network(_) =>
    case Crash(_) =>
  }

  lemma ScanTables(db: Db, chain: Chain, proc: Proc, x: ScanAction, next: Db, reached: Pc)
    requires ScanNext(db, chain, proc, x, next, reached)
    ensures next == db.(cursor := next.cursor, events := next.events)
  {
    hide Indexer.EventsValid, Indexer.BlockContinues;
  }

  lemma MoreEventsKeepWindow(cfg: Config, db: Db, next: Db)
    requires WindowInv(cfg, db) && next == db.(cursor := next.cursor, events := next.events)
    requires forall key :: key in db.events ==> key in next.events && next.events[key] == db.events[key]
    ensures TermsKept(db.intents, next.intents) && WindowInv(cfg, next)
  {
    SameTermsKeepWindow(cfg, db, next);
  }

  lemma {:induction false} WindowRun(cfg: Config, states: seq<State>, actions: seq<Action>, k: nat)
    requires Run(cfg, states, actions) && k < |states|
    ensures WindowInv(cfg, states[k].db)
    ensures k > 0 ==> TermsKept(states[k - 1].db.intents, states[k].db.intents)
  {
    hide Inv, Next;
    if k > 0 {
      WindowRun(cfg, states, actions, k - 1);
      InvRun(cfg, states, actions, k - 1);
      assert Linked(cfg, states, actions, k - 1);
      StepKeepsWindow(cfg, states[k - 1], actions[k - 1], states[k]);
    }
  }

  // ---------- the theorems ----------

  /** Whatever counts towards an intent was on a block between its creation and its expiry. */
  lemma CountedInWindow(cfg: Config, states: seq<State>, actions: seq<Action>, k: nat, key: EventId)
    requires Run(cfg, states, actions) && k < |states| && key in states[k].db.matches
    requires states[k].db.matches[key].intentId.Some?
    requires states[k].db.matches[key].review.None? || states[k].db.matches[key].review == Some(OverpaidReason)
    ensures
      var db, id := states[k].db, states[k].db.matches[key].intentId.value;
      && key in db.events && id in db.intents
      && db.intents[id].createdAt <= db.events[key].time <= db.intents[id].expiresAt
  {
    hide Run;
    WindowRun(cfg, states, actions, k);
  }

  /** Two intents never share a deposit address, and each one is of the address's merchant. */
  lemma OneIntentPerAddress(cfg: Config, states: seq<State>, actions: seq<Action>, k: nat, a: string, b: string)
    requires Run(cfg, states, actions) && k < |states| && a in states[k].db.intents && b in states[k].db.intents
    ensures
      var i, j := states[k].db.intents[a], states[k].db.intents[b];
      && (i.asset == j.asset && i.address == j.address ==> a == b)
      && (i.asset, i.address) in cfg.depositMerchant && i.merchant == cfg.depositMerchant[(i.asset, i.address)]
      && 0 < i.expected < TWO_256 && i.createdAt < i.expiresAt
  {
    hide Run;
    WindowRun(cfg, states, actions, k);
    assert WellMade(cfg, states[k].db.now, states[k].db.intents[a]);
  }

  /** Nothing rewrites the merchant, address, amount or window of an intent. */
  lemma {:induction false} TermsStay(cfg: Config, states: seq<State>, actions: seq<Action>, j: nat, k: nat, id: string)
    requires Run(cfg, states, actions) && j <= k < |states| && id in states[j].db.intents
    ensures id in states[k].db.intents && SameTerms(states[j].db.intents[id], states[k].db.intents[id])
  {
    hide Run;
    if j < k {
      TermsStay(cfg, states, actions, j, k - 1, id);
      WindowRun(cfg, states, actions, k);
    }
  }

  /** In every reachable state an event is matched exactly as the columns say. */
  lemma MatchExact(cfg: Config, states: seq<State>, actions: seq<Action>, k: nat, input: MatchInput, journalId: string)
    requires Run(cfg, states, actions) && k < |states| && journalId !in states[k].db.journals
    ensures MatchedAs(cfg, states[k].db, input, journalId, Match(cfg, states[k].db, input, journalId))
  {
    hide Run, Inv, LedgerInv, ProtocolInv, DepositInv, Match, MatchedAs;
    RunParts(cfg, states, actions, k);
    WindowRun(cfg, states, actions, k);
    MatchExactAt(cfg, states[k].db, input, journalId);
  }

  /** A completing payment moves exactly the expected amount onto custody and the merchant's available balance. */
  lemma CompletedMoves(db: Db, key: EventId, id: string, journalId: string, account: Account)
    requires key in db.events && id in db.intents && journalId !in db.journals
    ensures
      var i := db.intents[id];
      Balance(Completed(db, key, id, journalId).journals, account) == Balance(db.journals, account)
        + (if account == Custody(i.asset) || account == Available(i.merchant, i.asset) then i.expected else 0)
  {
    var i, journal := db.intents[id], Completed(db, key, id, journalId).journals[journalId];
    PostingMoves(db.journals, journalId, journal, Custody(i.asset), Available(i.merchant, i.asset), i.asset, i.expected, account);
  }

  // ---------- creating and closing intents ----------

  /** An intent is inserted exactly for an unused id and address of the merchant, a positive amount, a later expiry and active accounts. */
  lemma IntentStatement(cfg: Config, states: seq<State>, actions: seq<Action>, k: nat, id: string, i: Intent)
    requires Run(cfg, states, actions) && k < |actions| && actions[k] == Store(StoreAction.CreateIntent(id, i))
    ensures
      var was, db := states[k].db, states[k + 1].db;
      var custody, available := Custody(i.asset), Available(i.merchant, i.asset);
      if && id != "" && id !in was.intents && (forall other :: other in was.intents ==> was.intents[other].asset != i.asset || was.intents[other].address != i.address)
         && (i.asset, i.address) in cfg.depositMerchant && i.merchant == cfg.depositMerchant[(i.asset, i.address)]
         && 0 < i.expected < TWO_256 && was.now < i.expiresAt
         && custody in was.accounts && was.accounts[custody] == Active && available in was.accounts && was.accounts[available] == Active
         && i == Intent(i.merchant, i.asset, i.address, i.expected, 0, AwaitingPayment, was.now, i.expiresAt, None, 0)
      then db == was.(intents := was.intents[id := i])
      else db == was
  {
    hide Initial;
    assert Linked(cfg, states, actions, k);
  }

  /** Only an intent past its expiry that still waits for money is closed: without any as expired, with some as underpaid. */
  lemma ExpireStatement(cfg: Config, states: seq<State>, actions: seq<Action>, k: nat, id: string)
    requires Run(cfg, states, actions) && k < |actions| && actions[k] == Store(ExpireIntent(id))
    ensures
      var was, db := states[k].db, states[k + 1].db;
      if id in was.intents && was.intents[id].expiresAt < was.now && was.intents[id].status in {AwaitingPayment, PartiallyPaid}
      then db == was.(intents := was.intents[id := was.intents[id].(status := if was.intents[id].received > 0 then Underpaid else IntentExpired)])
      else db == was
  {
    hide Initial, Inv, StoreInv, LedgerInv, ProtocolInv;
    assert Linked(cfg, states, actions, k);
    RunParts(cfg, states, actions, k);
    if id in states[k].db.intents {
      NeverNegative(cfg, states[k].db, id);
    }
  }

  lemma NeverNegative(cfg: Config, db: Db, id: string)
    requires StoreInv(cfg, db) && id in db.intents
    ensures 0 <= db.intents[id].received
  {
    assert IntentSound(db.matches, id, db.intents[id]);
  }
}
