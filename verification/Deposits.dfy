// Deposit intents: matching screened chain events, accumulating them, and crediting once.
module Deposits {
  import opened Prelude
  import opened Chain
  import opened Ledger
  import opened Tables

  datatype Screening = Allow | Deny | NeedsReview

  /** What MatchNext finds joined to the event: the screening decision and the row statuses. */
  datatype MatchInput = MatchInput(
    event: EventId, screening: Screening, assetActive: bool, merchantActive: bool, addressActive: bool)

  datatype MatchOutcome = NothingToMatch | MatchFailed | SetAside(reason: ReviewReason) | Applied(status: IntentStatus, credited: bool)

  function NewIntent(merchant: string, asset: string, address: string, expected: int, createdAt: nat, expiresAt: nat): Intent {
    Intent(merchant, asset, address, expected, 0, AwaitingPayment, createdAt, expiresAt, None, 0)
  }

  /** CreateIntent: a fresh intent on an unused deposit address of the merchant, with open accounts. */
  predicate IntentAllowed(cfg: Config, db: Db, id: string, i: Intent) {
    && id != "" && id !in db.intents
    && (i.asset, i.address) in cfg.depositMerchant && cfg.depositMerchant[(i.asset, i.address)] == i.merchant
    && ValidAmount(i.expected) && db.now < i.expiresAt
    && i == NewIntent(i.merchant, i.asset, i.address, i.expected, db.now, i.expiresAt)
    && (forall other :: other in db.intents ==> db.intents[other].asset != i.asset || db.intents[other].address != i.address)
    && IsActive(db, Custody(i.asset)) && IsActive(db, Available(i.merchant, i.asset))
  }

  function CreateIntent(cfg: Config, db: Db, id: string, i: Intent): Db {
    if IntentAllowed(cfg, db, id, i) then db.(intents := db.intents[id := i]) else db
  }

  /** UNIQUE (deposit_address_id) of deposit_intents. */
  predicate IntentsUnique(intents: map<string, Intent>) {
    forall a, b :: a in intents && b in intents && a != b ==> intents[a].asset != intents[b].asset || intents[a].address != intents[b].address
  }

  /** accumulatedAmount and the status its comparison selects. */
  function StatusFor(received: int, expected: int): IntentStatus {
    if received > expected then Overpaid else if received < expected then PartiallyPaid else Paid
  }

  function CreditJournal(id: string, i: Intent): Journal {
    Journal(DepositSystem, CreditKey(id), DepositReference, id,
            TwoEntries(Custody(i.asset), Available(i.merchant, i.asset), i.asset, i.expected))
  }

  ghost function IntentAt(db: Db, asset: string, address: string): Option<string> {
    if exists id :: id in db.intents && db.intents[id].asset == asset && db.intents[id].address == address then
      var id :| id in db.intents && db.intents[id].asset == asset && db.intents[id].address == address;
      Some(id)
    else None
  }

  function RecordReview(db: Db, key: EventId, address: string, intentId: Option<string>, amount: int, reason: ReviewReason): Db {
    db.(matches := db.matches[key := MatchRow(address, intentId, Some(reason), amount)])
  }

  function RecordMatch(db: Db, key: EventId, address: string, intentId: string, amount: int): Db {
    db.(matches := db.matches[key := MatchRow(address, Some(intentId), None, amount)])
  }

  /** Why an allowed event on an intent is set aside before its amount is looked at. */
  function Obstacle(input: MatchInput, event: EventRow, intent: Intent): Option<ReviewReason> {
    if !input.assetActive then Some(AssetDisabled)
    else if !input.merchantActive then Some(MerchantInactive)
    else if !input.addressActive then Some(AddressRetired)
    else if event.time < intent.createdAt then Some(BeforeIntent)
    else if event.time > intent.expiresAt then Some(AfterExpiry)
    else None
  }

  ghost function Match(cfg: Config, db: Db, input: MatchInput, journalId: string): (Db, MatchOutcome) {
    var key := input.event;
    if key !in db.events || key in db.matches || !IsDeposit(cfg, key.contract, db.events[key].recipient) then (db, NothingToMatch)
    else
      var event := db.events[key];
      var intentId := IntentAt(db, key.contract, event.recipient);
      if input.screening != Allow then
        var reason := if input.screening == Deny then ScreeningDenied else ScreeningReview;
        (RecordReview(db, key, event.recipient, intentId, event.amount, reason), SetAside(reason))
      else
        match intentId
        case None => (RecordReview(db, key, event.recipient, None, event.amount, NoIntent), SetAside(NoIntent))
        case Some(id) =>
          match Obstacle(input, event, db.intents[id])
          case Some(reason) => (RecordReview(db, key, event.recipient, Some(id), event.amount, reason), SetAside(reason))
          case None => Apply(db, key, event, id, journalId)
  }

  /** applyMatchedPayment. */
  ghost function Apply(db: Db, key: EventId, event: EventRow, id: string, journalId: string): (Db, MatchOutcome)
    requires id in db.intents
  {
    var intent := db.intents[id];
    var received := intent.received + event.amount;
    var status := StatusFor(received, intent.expected);
    if status == Paid then ApplyExact(db, key, event, id, journalId)
    else
      var updated := db.(intents := db.intents[id := intent.(received := received, status := status)]);
      if status == Overpaid
      then (RecordReview(updated, key, event.recipient, Some(id), event.amount, OverpaidReason), Applied(Overpaid, false))
      else (RecordMatch(updated, key, event.recipient, id, event.amount), Applied(PartiallyPaid, false))
  }

  /** creditExactPayment: the total is exactly what was expected. */
  ghost function ApplyExact(db: Db, key: EventId, event: EventRow, id: string, journalId: string): (Db, MatchOutcome)
    requires id in db.intents
  {
    var intent := db.intents[id];
    if intent.expected > MAX_INT64 then
      (RecordReview(db, key, event.recipient, Some(id), event.amount, AmountOutOfRange), SetAside(AmountOutOfRange))
    else if !IsActive(db, Custody(intent.asset)) || !IsActive(db, Available(intent.merchant, intent.asset)) then
      (RecordReview(db, key, event.recipient, Some(id), event.amount, LedgerAccountUnavailable), SetAside(LedgerAccountUnavailable))
    else
      var journal := CreditJournal(id, intent);
      match PostedId(db.journals, journalId, journal)
      case None => (db, MatchFailed)
      case Some(posted) =>
        if intent.journalId.Some? then (db, MatchFailed)
        else
          var credited := intent.(received := intent.expected, status := Paid, journalId := Some(posted), credited := intent.expected);
          (RecordMatch(
             db.(journals := PostedJournals(db.journals, journalId, journal),
                 intents := db.intents[id := credited],
                 outbox := db.outbox + [OutboxEvent(DepositConfirmed, id, intent.expected, posted)]),
             key, event.recipient, id, event.amount),
           Applied(Paid, true))
  }

  predicate Due(intent: Intent, now: nat) {
    intent.expiresAt < now && (intent.status == AwaitingPayment || intent.status == PartiallyPaid)
  }

  function ExpiredIntent(intent: Intent): Intent {
    intent.(status := if intent.received == 0 then IntentExpired else Underpaid)
  }

  /** ExpireDue for one of the rows it locks. */
  function Expire(db: Db, id: string): Db {
    if id in db.intents && Due(db.intents[id], db.now)
    then db.(intents := db.intents[id := ExpiredIntent(db.intents[id])])
    else db
  }
}
