// What every deposit transaction keeps: received amounts, statuses, and a single exact credit.
module DepositProofs {
  import opened Prelude
  import opened Sums
  import opened Chain
  import opened Ledger
  import opened Tables
  import opened Deposits
  import opened LedgerProofs
  import opened LedgerSteps

  // ---------- the invariant ----------

  ghost function MatchedFor(id: string): (EventId, MatchRow) -> int {
    (key: EventId, m: MatchRow) => if m.intentId == Some(id) && m.review == None then m.amount else 0
  }

  ghost function OverpaidFor(id: string): (EventId, MatchRow) -> int {
    (key: EventId, m: MatchRow) => if m.intentId == Some(id) && m.review == Some(OverpaidReason) then m.amount else 0
  }

  predicate StatusAgrees(i: Intent) {
    match i.status
    case AwaitingPayment => i.received == 0
    case IntentExpired => i.received == 0
    case PartiallyPaid => 0 < i.received < i.expected
    case Underpaid => 0 < i.received < i.expected
    case Paid => i.received == i.expected
    case Overpaid => i.received > i.expected
  }

  /** Received is what was matched plus what overpaid; the credit is exactly a full match. */
  ghost predicate IntentSound(matches: map<EventId, MatchRow>, id: string, i: Intent) {
    var matched, overpaid := MapSum(matches, MatchedFor(id)), MapSum(matches, OverpaidFor(id));
    && 0 < i.expected && 0 <= matched && 0 <= overpaid
    && i.received == matched + overpaid
    && StatusAgrees(i)
    && (i.journalId.Some? <==> matched == i.expected)
    && (i.journalId.None? ==> matched < i.expected)
    && i.credited == (if i.journalId.Some? then i.expected else 0)
    && (overpaid > 0 ==> i.received > i.expected)
  }

  ghost predicate IntentsSound(matches: map<EventId, MatchRow>, intents: map<string, Intent>) {
    forall id :: id in intents ==> IntentSound(matches, id, intents[id])
  }

  /** A processed event keeps its amount, and points at the intent of the address it was paid to. */
  predicate MatchesSound(events: map<EventId, EventRow>, matches: map<EventId, MatchRow>, intents: map<string, Intent>) {
    forall key :: key in matches ==>
      && key in events && matches[key].amount == events[key].amount && matches[key].address == events[key].recipient
      && 0 < matches[key].amount
      && (matches[key].intentId.Some? ==>
            && matches[key].intentId.value in intents
            && intents[matches[key].intentId.value].asset == key.contract
            && intents[matches[key].intentId.value].address == matches[key].address)
      && (matches[key].review.None? ==> matches[key].intentId.Some?)
  }

  ghost function MatchedByIntent(matches: map<EventId, MatchRow>, asset: string): (string, Intent) -> int {
    (id: string, i: Intent) => if i.asset == asset then MapSum(matches, MatchedFor(id)) else 0
  }

  ghost function MatchedOfAsset(asset: string): (EventId, MatchRow) -> int {
    (key: EventId, m: MatchRow) => if key.contract == asset && m.review == None then m.amount else 0
  }

  /** Summing matched amounts per intent or per event gives the same total. */
  ghost predicate Tallied(matches: map<EventId, MatchRow>, intents: map<string, Intent>) {
    forall a :: MapSum(intents, MatchedByIntent(matches, a)) == MapSum(matches, MatchedOfAsset(a))
  }

  predicate DepositAddressesOnly(cfg: Config, intents: map<string, Intent>) {
    forall id :: id in intents ==> IsDeposit(cfg, intents[id].asset, intents[id].address)
  }

  predicate EventsPositive(events: map<EventId, EventRow>) {
    forall key :: key in events ==> 0 < events[key].amount
  }

  ghost predicate DepositInv(cfg: Config, db: Db) {
    && IntentsSound(db.matches, db.intents)
    && MatchesSound(db.events, db.matches, db.intents)
    && Tallied(db.matches, db.intents)
    && DepositAddressesOnly(cfg, db.intents)
  }

  // ---------- one processed event ----------

  lemma MatchSums(matches: map<EventId, MatchRow>, key: EventId, row: MatchRow, id: string)
    requires key !in matches
    ensures MapSum(matches[key := row], MatchedFor(id)) == MapSum(matches, MatchedFor(id)) + MatchedFor(id)(key, row)
    ensures MapSum(matches[key := row], OverpaidFor(id)) == MapSum(matches, OverpaidFor(id)) + OverpaidFor(id)(key, row)
  {
    MapSumInsert(matches, MatchedFor(id), key, row);
    MapSumInsert(matches, OverpaidFor(id), key, row);
  }

  /** The row belongs to the intent, and the intent moves as the row says. */
  ghost predicate Accounts(matches: map<EventId, MatchRow>, key: EventId, row: MatchRow, id: string, before: Intent, after: Intent) {
    && row.intentId == Some(id) && 0 < row.amount
    && after.expected == before.expected && after.asset == before.asset && after.address == before.address
    && IntentSound(matches[key := row], id, after)
  }

  lemma OthersSound(matches: map<EventId, MatchRow>, intents: map<string, Intent>, key: EventId, row: MatchRow, id: string, after: Intent)
    requires IntentsSound(matches, intents) && key !in matches && id in intents
    requires Accounts(matches, key, row, id, intents[id], after)
    ensures IntentsSound(matches[key := row], intents[id := after])
  {
    forall other | other in intents && other != id ensures IntentSound(matches[key := row], other, intents[other]) {
      MatchSums(matches, key, row, other);
      assert IntentSound(matches, other, intents[other]);
    }
  }

  lemma TallyMoves(matches: map<EventId, MatchRow>, intents: map<string, Intent>, key: EventId, row: MatchRow, id: string, after: Intent)
    requires Tallied(matches, intents) && key !in matches && id in intents
    requires Accounts(matches, key, row, id, intents[id], after) && intents[id].asset == key.contract
    ensures Tallied(matches[key := row], intents[id := after])
  {
    var added, updated := matches[key := row], intents[id := after];
    forall a ensures MapSum(updated, MatchedByIntent(added, a)) == MapSum(added, MatchedOfAsset(a)) {
      var f, g := MatchedByIntent(matches, a), MatchedByIntent(added, a);
      forall other | other in intents && other != id ensures f(other, intents[other]) == g(other, intents[other]) {
        MatchSums(matches, key, row, other);
      }
      MatchSums(matches, key, row, id);
      MapSumDiffAt(intents, f, g, id);
      MapSumUpdate(intents, g, id, after);
      MapSumInsert(matches, MatchedOfAsset(a), key, row);
    }
  }

  /** Processing an event that moves its intent keeps the deposit invariant. */
  lemma ApplyRow(cfg: Config, db: Db, key: EventId, row: MatchRow, id: string, after: Intent)
    requires DepositInv(cfg, db) && key !in db.matches && id in db.intents && key in db.events
    requires Accounts(db.matches, key, row, id, db.intents[id], after) && db.intents[id].asset == key.contract
    requires row.amount == db.events[key].amount && row.address == db.events[key].recipient == db.intents[id].address
    ensures DepositInv(cfg, db.(matches := db.matches[key := row], intents := db.intents[id := after]))
  {
    OthersSound(db.matches, db.intents, key, row, id, after);
    TallyMoves(db.matches, db.intents, key, row, id, after);
    assert MatchesSound(db.events, db.matches[key := row], db.intents[id := after]);
  }

  /** Setting an event aside for any reason but overpayment moves no intent. */
  lemma SetAsideRow(cfg: Config, db: Db, key: EventId, row: MatchRow)
    requires DepositInv(cfg, db) && key !in db.matches && key in db.events && 0 < row.amount
    requires row.review.Some? && row.review != Some(OverpaidReason)
    requires row.amount == db.events[key].amount && row.address == db.events[key].recipient
    requires row.intentId.Some? ==>
      && row.intentId.value in db.intents
      && db.intents[row.intentId.value].asset == key.contract && db.intents[row.intentId.value].address == row.address
    ensures DepositInv(cfg, db.(matches := db.matches[key := row]))
  {
    forall id ensures MapSum(db.matches[key := row], MatchedFor(id)) == MapSum(db.matches, MatchedFor(id))
      ensures MapSum(db.matches[key := row], OverpaidFor(id)) == MapSum(db.matches, OverpaidFor(id))
    {
      MatchSums(db.matches, key, row, id);
    }
    forall id | id in db.intents ensures IntentSound(db.matches[key := row], id, db.intents[id]) {
      assert IntentSound(db.matches, id, db.intents[id]);
    }
    SetAsideTally(db.matches, db.intents, key, row);
  }

  lemma SetAsideTally(matches: map<EventId, MatchRow>, intents: map<string, Intent>, key: EventId, row: MatchRow)
    requires Tallied(matches, intents) && key !in matches && row.review.Some?
    ensures Tallied(matches[key := row], intents)
  {
    forall a ensures MapSum(intents, MatchedByIntent(matches[key := row], a)) == MapSum(matches[key := row], MatchedOfAsset(a)) {
      var f, g := MatchedByIntent(matches, a), MatchedByIntent(matches[key := row], a);
      forall id | id in intents ensures f(id, intents[id]) == g(id, intents[id]) {
        MatchSums(matches, key, row, id);
      }
      MapSumCongr(intents, f, g);
      MapSumInsert(matches, MatchedOfAsset(a), key, row);
    }
  }

  // ---------- the transactions ----------

  lemma IntentAtSpec(db: Db, asset: string, address: string)
    ensures
      var found := IntentAt(db, asset, address);
      found.Some? ==> found.value in db.intents && db.intents[found.value].asset == asset && db.intents[found.value].address == address
  {
  }

  lemma CreditReady(db: Db, id: string, journalId: string)
    requires LedgerInv(db) && journalId !in db.journals && id in db.intents && db.intents[id].journalId.None?
    ensures PostedId(db.journals, journalId, CreditJournal(id, db.intents[id])) == Some(journalId)
    ensures PostedJournals(db.journals, journalId, CreditJournal(id, db.intents[id])) == db.journals[journalId := CreditJournal(id, db.intents[id])]
  {
    CreditUntaken(db, id, journalId);
  }

  function CreditedIntent(i: Intent, journalId: string): Intent {
    i.(received := i.expected, status := Paid, journalId := Some(journalId), credited := i.expected)
  }

  /** What an exact payment that is credited leaves behind. */
  function Credited(db: Db, key: EventId, event: EventRow, id: string, journalId: string): Db
    requires id in db.intents
  {
    RecordMatch(
      db.(journals := db.journals[journalId := CreditJournal(id, db.intents[id])],
          intents := db.intents[id := CreditedIntent(db.intents[id], journalId)],
          outbox := db.outbox + [OutboxEvent(DepositConfirmed, id, db.intents[id].expected, journalId)]),
      key, event.recipient, id, event.amount)
  }

  predicate Pays(db: Db, key: EventId, id: string) {
    && key in db.events && key !in db.matches && id in db.intents
    && db.intents[id].asset == key.contract && db.intents[id].address == db.events[key].recipient
  }

  /** An exact total is reached only before any credit, and then the credit is new. */
  lemma ApplyExactShape(cfg: Config, db: Db, key: EventId, id: string, journalId: string)
    requires LedgerInv(db) && DepositInv(cfg, db) && EventsPositive(db.events) && journalId !in db.journals && Pays(db, key, id)
    requires db.intents[id].received + db.events[key].amount == db.intents[id].expected
    ensures db.intents[id].journalId.None?
    ensures
      var (next, outcome) := ApplyExact(db, key, db.events[key], id, journalId);
      && outcome != MatchFailed
      && (outcome == Applied(Paid, true) ==>
            && next == Credited(db, key, db.events[key], id, journalId) && db.intents[id].expected <= MAX_INT64
            && Custody(db.intents[id].asset) in db.accounts && Available(db.intents[id].merchant, db.intents[id].asset) in db.accounts)
      && (outcome != Applied(Paid, true) ==>
            exists reason | reason in {AmountOutOfRange, LedgerAccountUnavailable} ::
              outcome == SetAside(reason) && next == RecordReview(db, key, db.events[key].recipient, Some(id), db.events[key].amount, reason))
  {
    assert IntentSound(db.matches, id, db.intents[id]);
    CreditReady(db, id, journalId);
  }

  lemma CreditedKeeps(cfg: Config, db: Db, key: EventId, id: string, journalId: string)
    requires LedgerInv(db) && DepositInv(cfg, db) && EventsPositive(db.events) && journalId !in db.journals && Pays(db, key, id)
    requires db.intents[id].received + db.events[key].amount == db.intents[id].expected <= MAX_INT64
    requires db.intents[id].journalId.None?
    requires Custody(db.intents[id].asset) in db.accounts && Available(db.intents[id].merchant, db.intents[id].asset) in db.accounts
    ensures LedgerInv(Credited(db, key, db.events[key], id, journalId))
    ensures DepositInv(cfg, Credited(db, key, db.events[key], id, journalId))
  {
    var i := CreditedIntent(db.intents[id], journalId);
    assert IntentSound(db.matches, id, db.intents[id]);
    var row := MatchRow(db.events[key].recipient, Some(id), None, db.events[key].amount);
    MatchSums(db.matches, key, row, id);
    ApplyRow(cfg, db, key, row, id, i);
    assert CreditJournal(id, i) == CreditJournal(id, db.intents[id]);
    CreditIntent(db, id, i, journalId);
    CreditFrame(db.(journals := db.journals[journalId := CreditJournal(id, db.intents[id])], intents := db.intents[id := i]),
                Credited(db, key, db.events[key], id, journalId));
  }

  lemma CreditFrame(db: Db, next: Db)
    requires LedgerInv(db)
    requires next == db.(outbox := next.outbox, matches := next.matches)
    ensures LedgerInv(next)
  {
  }

  function AccruedIntent(i: Intent, amount: int): Intent {
    i.(received := i.received + amount, status := StatusFor(i.received + amount, i.expected))
  }

  function AccruedRow(i: Intent, event: EventRow, id: string): MatchRow {
    MatchRow(event.recipient, Some(id), if i.received + event.amount > i.expected then Some(OverpaidReason) else None, event.amount)
  }

  /** What a payment that does not complete the intent leaves behind. */
  function Accrued(db: Db, key: EventId, event: EventRow, id: string): Db
    requires id in db.intents
  {
    db.(intents := db.intents[id := AccruedIntent(db.intents[id], event.amount)],
        matches := db.matches[key := AccruedRow(db.intents[id], event, id)])
  }

  lemma PartialShape(db: Db, key: EventId, event: EventRow, id: string, journalId: string)
    requires id in db.intents && db.intents[id].received + event.amount != db.intents[id].expected
    ensures Apply(db, key, event, id, journalId).0 == Accrued(db, key, event, id)
    ensures Apply(db, key, event, id, journalId).1 in {Applied(Overpaid, false), Applied(PartiallyPaid, false)}
  {
  }

  lemma AccruedDeposits(cfg: Config, db: Db, key: EventId, id: string)
    requires DepositInv(cfg, db) && EventsPositive(db.events) && Pays(db, key, id)
    requires db.intents[id].received + db.events[key].amount != db.intents[id].expected
    ensures DepositInv(cfg, Accrued(db, key, db.events[key], id))
  {
    var event, intent := db.events[key], db.intents[id];
    var i, row := AccruedIntent(intent, event.amount), AccruedRow(intent, event, id);
    assert IntentSound(db.matches, id, intent);
    MatchSums(db.matches, key, row, id);
    ApplyRow(cfg, db, key, row, id, i);
  }

  lemma AccruedLedger(db: Db, key: EventId, event: EventRow, id: string)
    requires LedgerInv(db) && id in db.intents
    ensures LedgerInv(Accrued(db, key, event, id))
  {
    var i := AccruedIntent(db.intents[id], event.amount);
    assert IntentLinks(db.journals, id, db.intents[id]);
    QuietIntent(db, id, i);
    CreditFrame(db.(intents := db.intents[id := i]), Accrued(db, key, event, id));
  }

  lemma SetAsideKeeps(cfg: Config, db: Db, key: EventId, intentId: Option<string>, reason: ReviewReason)
    requires LedgerInv(db) && DepositInv(cfg, db) && EventsPositive(db.events)
    requires key in db.events && key !in db.matches && reason != OverpaidReason
    requires intentId.Some? ==> Pays(db, key, intentId.value)
    ensures
      var next := RecordReview(db, key, db.events[key].recipient, intentId, db.events[key].amount, reason);
      LedgerInv(next) && DepositInv(cfg, next)
  {
    SetAsideRow(cfg, db, key, MatchRow(db.events[key].recipient, intentId, Some(reason), db.events[key].amount));
    CreditFrame(db, RecordReview(db, key, db.events[key].recipient, intentId, db.events[key].amount, reason));
  }

  /** A matched payment keeps both invariants; it posts a journal exactly when it credits. */
  lemma ApplyKeeps(cfg: Config, db: Db, key: EventId, id: string, journalId: string)
    requires LedgerInv(db) && DepositInv(cfg, db) && EventsPositive(db.events) && journalId !in db.journals && Pays(db, key, id)
    ensures
      var (next, outcome) := Apply(db, key, db.events[key], id, journalId);
      && LedgerInv(next) && DepositInv(cfg, next) && outcome != MatchFailed
      && (if outcome == Applied(Paid, true)
          then next == Credited(db, key, db.events[key], id, journalId) && db.intents[id].journalId.None?
          else next.journals == db.journals && next.outbox == db.outbox)
  {
    if db.intents[id].received + db.events[key].amount != db.intents[id].expected {
      PartialShape(db, key, db.events[key], id, journalId);
      AccruedDeposits(cfg, db, key, id);
      AccruedLedger(db, key, db.events[key], id);
    } else {
      ApplyExactShape(cfg, db, key, id, journalId);
      var outcome := ApplyExact(db, key, db.events[key], id, journalId).1;
      if outcome == Applied(Paid, true) {
        CreditedKeeps(cfg, db, key, id, journalId);
      } else {
        SetAsideKeeps(cfg, db, key, Some(id), outcome.reason);
      }
    }
  }

  /** Matching reaches the journals, intents, matches and the outbox, and no other table. */
  predicate DepositTables(was: Db, db: Db) {
    db == was.(journals := db.journals, intents := db.intents, matches := db.matches, outbox := db.outbox)
  }

  lemma ApplyExactTables(db: Db, key: EventId, event: EventRow, id: string, journalId: string)
    requires id in db.intents
    ensures DepositTables(db, ApplyExact(db, key, event, id, journalId).0)
  {
    hide PostedId, PostedJournals;
  }

  lemma ApplyTables(db: Db, key: EventId, event: EventRow, id: string, journalId: string)
    requires id in db.intents
    ensures DepositTables(db, Apply(db, key, event, id, journalId).0)
  {
    hide ApplyExact;
    ApplyExactTables(db, key, event, id, journalId);
  }

  lemma MatchTables(cfg: Config, db: Db, input: MatchInput, journalId: string)
    ensures DepositTables(db, Match(cfg, db, input, journalId).0)
  {
    hide Apply;
    var route := MatchRoutes(cfg, db, input, journalId);
    if route.Payment? {
      ApplyTables(db, input.event, db.events[input.event], route.id, journalId);
    }
  }

  /** The condition behind each reason, and that no earlier one in the source's order holds. */
  predicate Causes(input: MatchInput, time: nat, intent: Option<Intent>, reason: ReviewReason) {
    match reason
    case ScreeningDenied => input.screening == Deny
    case ScreeningReview => input.screening == NeedsReview
    case NoIntent => input.screening == Allow && intent.None?
    case AssetDisabled => input.screening == Allow && intent.Some? && !input.assetActive
    case MerchantInactive => input.screening == Allow && intent.Some? && input.assetActive && !input.merchantActive
    case AddressRetired => input.screening == Allow && intent.Some? && input.assetActive && input.merchantActive && !input.addressActive
    case BeforeIntent => AllActive(input) && intent.Some? && time < intent.value.createdAt
    case AfterExpiry => AllActive(input) && intent.Some? && intent.value.createdAt <= time && intent.value.expiresAt < time
    case _ => false
  }

  predicate AllActive(input: MatchInput) {
    input.screening == Allow && input.assetActive && input.merchantActive && input.addressActive
  }

  datatype Route = Nothing | Aside(intentId: Option<string>, reason: ReviewReason) | Payment(id: string)

  /** Where MatchNext takes an event: nowhere, to review, or to an intent it pays. */
  lemma MatchRoutes(cfg: Config, db: Db, input: MatchInput, journalId: string) returns (route: Route)
    ensures
      var result := Match(cfg, db, input, journalId);
      match route
      case Nothing => result == (db, NothingToMatch)
      case Aside(intentId, reason) =>
        && input.event in db.events && input.event !in db.matches && reason != OverpaidReason
        && (intentId.Some? ==> Pays(db, input.event, intentId.value))
        && (intentId.None? ==> forall id :: !Pays(db, input.event, id))
        && Causes(input, db.events[input.event].time, if intentId.Some? then Some(db.intents[intentId.value]) else None, reason)
        && result == (RecordReview(db, input.event, db.events[input.event].recipient, intentId, db.events[input.event].amount, reason), SetAside(reason))
      case Payment(id) =>
        && Pays(db, input.event, id) && AllActive(input)
        && db.intents[id].createdAt <= db.events[input.event].time <= db.intents[id].expiresAt
        && result == Apply(db, input.event, db.events[input.event], id, journalId)
  {
    var key := input.event;
    if key !in db.events || key in db.matches || !IsDeposit(cfg, key.contract, db.events[key].recipient) {
      return Nothing;
    }
    var intentId := IntentAt(db, key.contract, db.events[key].recipient);
    IntentAtSpec(db, key.contract, db.events[key].recipient);
    if input.screening != Allow {
      return Aside(intentId, if input.screening == Deny then ScreeningDenied else ScreeningReview);
    }
    if intentId.None? {
      return Aside(None, NoIntent);
    }
    var obstacle := Obstacle(input, db.events[key], db.intents[intentId.value]);
    if obstacle.Some? {
      return Aside(intentId, obstacle.value);
    }
    return Payment(intentId.value);
  }

  /** The intent this call credits, if any. */
  ghost predicate CreditsNow(db: Db, next: Db, key: EventId, id: string, journalId: string) {
    && Pays(db, key, id) && db.intents[id].journalId.None?
    && next == Credited(db, key, db.events[key], id, journalId)
  }

  /** MatchNext keeps both invariants; it posts a journal exactly when it credits, and never fails half-way. */
  lemma MatchKeeps(cfg: Config, db: Db, input: MatchInput, journalId: string)
    requires LedgerInv(db) && DepositInv(cfg, db) && EventsPositive(db.events) && journalId !in db.journals
    ensures
      var (next, outcome) := Match(cfg, db, input, journalId);
      && LedgerInv(next) && DepositInv(cfg, next) && outcome != MatchFailed
      && (if outcome == Applied(Paid, true)
          then exists id :: CreditsNow(db, next, input.event, id, journalId)
          else next.journals == db.journals && next.outbox == db.outbox)
  {
    var route := MatchRoutes(cfg, db, input, journalId);
    match route
    case Nothing =>
    case Aside(intentId, reason) => SetAsideKeeps(cfg, db, input.event, intentId, reason);
    case Payment(id) =>
      ApplyKeeps(cfg, db, input.event, id, journalId);
      assert Match(cfg, db, input, journalId).1 == Applied(Paid, true) ==>
          CreditsNow(db, Match(cfg, db, input, journalId).0, input.event, id, journalId);
  }

  lemma NewIntentSound(matches: map<EventId, MatchRow>, events: map<EventId, EventRow>, intents: map<string, Intent>, id: string, i: Intent)
    requires MatchesSound(events, matches, intents) && id !in intents
    requires 0 < i.expected && i.received == 0 && i.status == AwaitingPayment && i.journalId.None? && i.credited == 0
    ensures MapSum(matches, MatchedFor(id)) == 0
    ensures IntentSound(matches, id, i)
  {
    forall key | key in matches ensures MatchedFor(id)(key, matches[key]) == 0 && OverpaidFor(id)(key, matches[key]) == 0 {
    }
    MapSumZero(matches, MatchedFor(id));
    MapSumZero(matches, OverpaidFor(id));
  }

  lemma CreateIntentKeeps(cfg: Config, db: Db, id: string, i: Intent)
    requires LedgerInv(db) && DepositInv(cfg, db)
    ensures LedgerInv(CreateIntent(cfg, db, id, i)) && DepositInv(cfg, CreateIntent(cfg, db, id, i))
  {
    if IntentAllowed(cfg, db, id, i) {
      QuietIntent(db, id, i);
      NewIntentSound(db.matches, db.events, db.intents, id, i);
      forall a ensures MapSum(db.intents[id := i], MatchedByIntent(db.matches, a)) == MapSum(db.intents, MatchedByIntent(db.matches, a)) {
        MapSumInsert(db.intents, MatchedByIntent(db.matches, a), id, i);
      }
    }
  }

  lemma ExpireKeeps(cfg: Config, db: Db, id: string)
    requires LedgerInv(db) && DepositInv(cfg, db)
    ensures LedgerInv(Expire(db, id)) && DepositInv(cfg, Expire(db, id))
  {
    hide LedgerInv;
    if id in db.intents && Due(db.intents[id], db.now) {
      var i := ExpiredIntent(db.intents[id]);
      assert IntentSound(db.matches, id, db.intents[id]);
      QuietIntent(db, id, i);
      assert IntentSound(db.matches, id, i);
      forall a ensures MapSum(db.intents[id := i], MatchedByIntent(db.matches, a)) == MapSum(db.intents, MatchedByIntent(db.matches, a)) {
        MapSumUpdate(db.intents, MatchedByIntent(db.matches, a), id, i);
      }
    }
  }
}
