// The payout store: its transactions statement by statement, each equal to its specification.
module PayoutStore {
  import opened Prelude
  import opened Lease
  import opened Ledger
  import opened Tables
  import opened Payouts
  import opened Storage
  import opened Text
  import opened Address

  // ---------- a request as it arrives ----------

  function Trimmed(raw: CreateRequest): CreateRequest {
    CreateRequest(TrimSpace(raw.id), TrimSpace(raw.merchant), TrimSpace(raw.asset), TrimSpace(raw.key), TrimSpace(raw.reference),
                  TrimSpace(raw.destination), TrimSpace(raw.amountText))
  }

  /** Trimmed, checked, and with its Base58Check destination in hexadecimal form; nothing for an invalid request. */
  function Normalized(check: Checksum, raw: CreateRequest): Option<CreateRequest> {
    var r := Trimmed(raw);
    if !ValidRequest(r) || |r.destination| > 128 || NormalizeAddress(check, r.destination).None? then None
    else
      var hex := NormalizeAddressHex(check, r.destination);
      if hex.None? then None else Some(r.(destination := hex.value))
  }

  /** What is stored names the requested destination: its Base58Check form is the text that was sent. */
  lemma DestinationKept(check: Checksum, raw: CreateRequest)
    requires Normalized(check, raw).Some?
    ensures
      var r := Normalized(check, raw).value;
      ValidRequest(r) && HexAddress(r.destination) && NormalizeAddressBase58(check, r.destination) == Some(TrimSpace(raw.destination))
  {
    var v := TrimSpace(raw.destination);
    TrimTwice(raw.destination);
    Base58ToHex(check, v);
  }

  class Store {
    const cfg: Config
    const db: Database

    constructor (cfg: Config, db: Database)
      ensures this.cfg == cfg && this.db == db
    {
      this.cfg, this.db := cfg, db;
    }

    /** The rows that share the request's key or reference must be one row with its fingerprint. */
    method Lookup(r: CreateRequest) returns (existing: Result<Option<string>, CreateError>)
      ensures existing == FindExisting(db.payouts, r)
    {
      FindExistingExact(db.payouts, r);
      var existingId: Option<string> := None;
      var todo := db.payouts.Keys;
      while todo != {}
        invariant todo <= db.payouts.Keys
        invariant existingId.None? ==> forall id :: id in db.payouts && id !in todo ==> !SharesKey(db.payouts[id], r)
        invariant existingId.Some? ==>
                    && existingId.value in Matching(db.payouts, r) && SameFingerprint(db.payouts[existingId.value], r)
                    && forall id :: id in Matching(db.payouts, r) && id !in todo ==> id == existingId.value
        decreases todo
      {
        var id :| id in todo;
        if SharesKey(db.payouts[id], r) {
          assert id in Matching(db.payouts, r);
          if !SameFingerprint(db.payouts[id], r) || (existingId.Some? && existingId.value != id) {
            return Err(PayoutConflict);
          }
          existingId := Some(id);
        }
        todo := todo - {id};
      }
      if existingId.Some? {
        assert Matching(db.payouts, r) == {existingId.value};
      }
      return Ok(existingId);
    }

    /** Create for a request as it arrives. */
    method Submit(check: Checksum, raw: CreateRequest, merchant: MerchantStatus, assetStatus: AssetStatus, journalId: string)
      returns (outcome: Result<CreateOutcome, CreateError>)
      requires db.Valid()
      modifies db
      ensures db.Valid()
      ensures (db.View(), outcome) ==
              match Normalized(check, raw)
              case None => (old(db.View()), Err(InvalidRequest))
              case Some(r) => Payouts.Create(old(db.View()), r, merchant, assetStatus, journalId)
    {
      var r := Trimmed(raw);
      if !ValidRequest(r) || |r.destination| > 128 {
        return Err(InvalidRequest);
      }
      if NormalizeAddress(check, r.destination).None? {
        return Err(InvalidRequest);
      }
      var hex := NormalizeAddressHex(check, r.destination);
      if hex.None? {
        return Err(InvalidRequest);
      }
      outcome := Create(r.(destination := hex.value), merchant, assetStatus, journalId);
    }

    /** The transaction of Create, for a normalized request. */
    method Create(r: CreateRequest, merchant: MerchantStatus, assetStatus: AssetStatus, journalId: string) returns (outcome: Result<CreateOutcome, CreateError>)
      requires db.Valid()
      modifies db
      ensures db.Valid()
      ensures (db.View(), outcome) == Payouts.Create(old(db.View()), r, merchant, assetStatus, journalId)
    {
      if !ValidRequest(r) {
        return Err(InvalidRequest);
      }
      if merchant == MissingMerchant {
        return Err(MerchantUnavailable);
      }
      var existing := Lookup(r);
      if existing.Err? {
        return Err(existing.error);
      }
      if existing.value.Some? {
        return Ok(CreateOutcome(existing.value.value, false));
      }
      if merchant != ActiveMerchant {
        return Err(MerchantUnavailable);
      }
      if assetStatus == NoActiveAsset {
        return Err(AssetUnavailable);
      }
      if !OnTron(assetStatus.network) {
        return Err(UnsupportedNetwork);
      }
      var available, frozen := Available(r.merchant, r.asset), Frozen(r.merchant, r.asset);
      if !IsActive(db.View(), available) || !IsActive(db.View(), frozen) {
        return Err(LedgerUnavailable);
      }
      var balance := db.AccountBalance(available);
      if balance < 0 {
        return Err(InvalidBalance);
      }
      if balance < r.Amount() {
        return Err(InsufficientBalance);
      }
      outcome := Insert(r, journalId);
    }

    /** Post the freeze and insert the row, or roll both back. */
    method Insert(r: CreateRequest, journalId: string) returns (outcome: Result<CreateOutcome, CreateError>)
      requires db.Valid()
      modifies db
      ensures db.Valid()
      ensures
        var was, journal := old(db.View()), FreezeJournal(r.id, NewPayout(r, journalId));
        match PostedId(was.journals, journalId, journal)
        case None => db.View() == was && outcome == Err(WriteFailed)
        case Some(freezeId) =>
          if !Insertable(was.payouts, r.id, freezeId) then db.View() == was && outcome == Err(WriteFailed)
          else
            && outcome == Ok(CreateOutcome(r.id, true))
            && db.View() == was.(journals := PostedJournals(was.journals, journalId, journal), payouts := was.payouts[r.id := NewPayout(r, freezeId)])
    {
      var before := db.journals;
      var posted := db.PostInTransaction(journalId, FreezeJournal(r.id, NewPayout(r, journalId)));
      if posted.IdempotencyConflict? || posted.LookupFailed? {
        return Err(WriteFailed);
      }
      var freezeId := if posted.Created? then journalId else posted.id;
      if !Insertable(db.payouts, r.id, freezeId) {
        db.journals := before;
        return Err(WriteFailed);
      }
      db.payouts := db.payouts[r.id := NewPayout(r, freezeId)];
      outcome := Ok(CreateOutcome(r.id, true));
    }

    // ---------- review ----------

    method Review(r: ReviewRequest, screeningAllowed: bool, journalId: string) returns (outcome: Result<ReviewOutcome, ReviewError>)
      requires db.Valid()
      modifies db
      ensures db.Valid()
      ensures (db.View(), outcome) == Payouts.Review(old(db.View()), r, screeningAllowed, journalId)
    {
      if !ValidReview(r) {
        return Err(InvalidReview);
      }
      if r.id !in db.payouts {
        return Err(PayoutNotFound);
      }
      var p := db.payouts[r.id];
      if p.job.status != PendingReview {
        if p.job.status == TargetStatus(r.decision) && p.review == Some(ReviewRecord(r.reviewer, r.reason)) {
          return Ok(ReviewOutcome(p.job.status, false));
        }
        return Err(StateConflict);
      }
      if r.decision == Approve {
        if !screeningAllowed {
          return Err(ScreeningApprovalRequired);
        }
        if !p.screeningOpen {
          return Err(StateConflict);
        }
        db.payouts := db.payouts[r.id := Reviewed(p, r, None)];
        return Ok(ReviewOutcome(Approved, true));
      }
      outcome := Reject(r, p, journalId);
    }

    /** unfreezeRejectedPayout, then the status update and the outbox row. */
    method Reject(r: ReviewRequest, p: Payout, journalId: string) returns (outcome: Result<ReviewOutcome, ReviewError>)
      requires db.Valid() && ValidReview(r) && r.decision == Payouts.Reject && r.id in db.payouts && db.payouts[r.id] == p && p.job.status == PendingReview
      modifies db
      ensures db.Valid()
      ensures (db.View(), outcome) == Payouts.Review(old(db.View()), r, false, journalId)
    {
      var available, frozen := Available(p.merchant, p.asset), Frozen(p.merchant, p.asset);
      if !Usable(db.View(), available) || !Usable(db.View(), frozen) {
        return Err(ReviewLedgerUnavailable);
      }
      var balance := db.AccountBalance(frozen);
      if balance < p.amount {
        return Err(InsufficientFrozen);
      }
      var before := db.journals;
      var posted := db.PostInTransaction(journalId, UnfreezeJournal(r.id, p, r.reviewer));
      if posted.IdempotencyConflict? || posted.LookupFailed? {
        return Err(ReviewWriteFailed);
      }
      if !p.screeningOpen {
        db.journals := before;
        return Err(StateConflict);
      }
      var unfreezeId := if posted.Created? then journalId else posted.id;
      db.payouts := db.payouts[r.id := Reviewed(p, r, Some(unfreezeId))];
      db.outbox := db.outbox + [OutboxEvent(PayoutRejected, r.id, p.amount, unfreezeId)];
      outcome := Ok(ReviewOutcome(Rejected, true));
    }

    // ---------- confirmation ----------

    /** finalizeConfirmation: settle or release the frozen amount, finish the row, enqueue its event. */
    method FinalizeConfirmation(claim: Claim, succeeded: bool, reason: string, journalId: string) returns (outcome: Result<string, FinalizeError>)
      requires db.Valid() && claim.table == PayoutTable
      modifies db
      ensures db.Valid()
      ensures (db.View(), outcome) == Payouts.Finalize(old(db.View()), claim, succeeded, reason, journalId)
    {
      if claim.id !in db.payouts || !HeldLive(db.payouts[claim.id].job, claim, db.now) {
        return Err(ExecutionLeaseLost);
      }
      var p := db.payouts[claim.id];
      var debit, credit := Frozen(p.merchant, p.asset), CounterAccount(p, succeeded);
      if !Usable(db.View(), debit) || !Usable(db.View(), credit) {
        return Err(TerminalLedgerUnavailable);
      }
      var balance := db.AccountBalance(debit);
      if balance < p.amount {
        return Err(FrozenInsufficient);
      }
      var posted := db.PostInTransaction(journalId, TerminalJournal(claim.id, p, succeeded));
      if posted.IdempotencyConflict? || posted.LookupFailed? {
        return Err(TerminalWriteFailed);
      }
      var ledgerId := if posted.Created? then journalId else posted.id;
      db.payouts := db.payouts[claim.id := Finalized(p, succeeded, reason, ledgerId)];
      db.outbox := db.outbox + [OutboxEvent(if succeeded then PayoutSucceeded else PayoutFailed, claim.id, p.amount, ledgerId)];
      outcome := Ok(ledgerId);
    }
  }
}
