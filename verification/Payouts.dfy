// The payout transactions: create and freeze, review, and the terminal settlement or release.
module Payouts {
  import opened Prelude
  import opened Lease
  import opened Ledger
  import opened Tables
  import Amounts
  import Text

  // ---------- create ----------

  datatype CreateRequest = CreateRequest(
    id: string, merchant: string, asset: string, key: string, reference: string, destination: string, amountText: string)
  {
    function Amount(): int {
      var parsed := Amounts.ParsedInt64(amountText);
      if parsed.Some? then parsed.value else 0
    }
  }

  datatype MerchantStatus = MissingMerchant | InactiveMerchant | ActiveMerchant

  /** The asset's row, if it is active, with its network. */
  datatype AssetStatus = NoActiveAsset | ActiveAsset(network: string)

  datatype CreateError =
    | InvalidRequest | MerchantUnavailable | PayoutConflict | AssetUnavailable | UnsupportedNetwork
    | LedgerUnavailable | InsufficientBalance | InvalidBalance | WriteFailed

  /** The payout a create call returns, and whether this call created it. */
  datatype CreateOutcome = CreateOutcome(id: string, created: bool)

  predicate ValidRequest(r: CreateRequest) {
    && r.id != "" && r.merchant != "" && r.asset != "" && r.destination != ""
    && 0 < |r.key| <= 128 && 0 < |r.reference| <= 128
    && 0 < |r.amountText| <= 19 && r.amountText[0] != '0' && Amounts.ParsedInt64(r.amountText).Some? && 0 < r.Amount()
  }

  /** HasPrefix(ToLower(network), "tron"). */
  predicate OnTron(network: string) {
    "tron" <= Text.Lower(network)
  }

  /** Equality of what requestFingerprint digests: the amount by its text, which may carry a plus sign. */
  predicate SameFingerprint(p: Payout, r: CreateRequest) {
    && p.merchant == r.merchant && p.asset == r.asset && p.reference == r.reference
    && p.destination == r.destination && p.amountText == r.amountText
  }

  predicate SharesKey(p: Payout, r: CreateRequest) {
    p.merchant == r.merchant && (p.key == r.key || p.reference == r.reference)
  }

  function Matching(payouts: map<string, Payout>, r: CreateRequest): set<string> {
    set id | id in payouts && SharesKey(payouts[id], r)
  }

  /** The existing payout of an idempotent repeat, nothing for a first request, or a conflict. */
  ghost function FindExisting(payouts: map<string, Payout>, r: CreateRequest): Result<Option<string>, CreateError> {
    var rows := Matching(payouts, r);
    if rows == {} then Ok(None)
    else
      var id :| id in rows;
      if rows == {id} && SameFingerprint(payouts[id], r) then Ok(Some(id)) else Err(PayoutConflict)
  }

  /** What the lookup finds, decided by the rows alone. */
  lemma FindExistingExact(payouts: map<string, Payout>, r: CreateRequest)
    ensures FindExisting(payouts, r) == Ok(None) <==> forall id :: id in payouts ==> !SharesKey(payouts[id], r)
    ensures forall id :: FindExisting(payouts, r) == Ok(Some(id)) <==>
                           Matching(payouts, r) == {id} && id in payouts && SameFingerprint(payouts[id], r)
    ensures FindExisting(payouts, r).Err? ==> FindExisting(payouts, r) == Err(PayoutConflict)
    ensures FindExisting(payouts, r) == Ok(None) <==>
              forall id :: id in payouts && payouts[id].merchant == r.merchant ==> payouts[id].key != r.key && payouts[id].reference != r.reference
    ensures forall id :: FindExisting(payouts, r) == Ok(Some(id)) <==>
              && id in payouts && payouts[id].merchant == r.merchant && (payouts[id].key == r.key || payouts[id].reference == r.reference)
              && payouts[id].asset == r.asset && payouts[id].reference == r.reference
              && payouts[id].destination == r.destination && payouts[id].amountText == r.amountText
              && forall other :: other in payouts && payouts[other].merchant == r.merchant && other != id ==>
                   payouts[other].key != r.key && payouts[other].reference != r.reference
  {
    var rows := Matching(payouts, r);
    if rows == {} {
      forall id | id in payouts ensures !SharesKey(payouts[id], r) {
        assert id !in rows;
      }
    } else {
      var id :| id in rows && FindExisting(payouts, r) == if rows == {id} && SameFingerprint(payouts[id], r) then Ok(Some(id)) else Err(PayoutConflict);
      assert SharesKey(payouts[id], r);
      forall other | rows == {other} ensures other == id {
        assert id in {other};
      }
    }
    forall id {
      OnlyMatching(payouts, r, id);
    }
  }

  lemma OnlyMatching(payouts: map<string, Payout>, r: CreateRequest, id: string)
    ensures Matching(payouts, r) == {id} <==>
              id in payouts && SharesKey(payouts[id], r) && forall other :: other in payouts && other != id ==> !SharesKey(payouts[other], r)
  {
    if Matching(payouts, r) == {id} {
      assert id in Matching(payouts, r);
      forall other | other in payouts && other != id ensures !SharesKey(payouts[other], r) {
        assert other !in Matching(payouts, r);
      }
    } else if id in payouts && SharesKey(payouts[id], r) {
      var other :| other in Matching(payouts, r) && other != id;
    }
  }

  function FreezeJournal(id: string, p: Payout): Journal {
    Journal(MerchantRequester(p.merchant), FreezeKey(p.key), PayoutFreeze, id,
            TwoEntries(Available(p.merchant, p.asset), Frozen(p.merchant, p.asset), p.asset, p.amount))
  }

  function NewPayout(r: CreateRequest, freezeId: string): Payout {
    Payout(r.merchant, r.asset, r.key, r.reference, r.destination, r.Amount(), r.amountText, freezeId, None, None, None, true, NewJob(PendingReview))
  }

  /** PRIMARY KEY (id) and UNIQUE (freeze_transaction_id) of the payouts table. */
  predicate Insertable(payouts: map<string, Payout>, id: string, freezeId: string) {
    id !in payouts && forall other :: other in payouts ==> payouts[other].freezeId != freezeId
  }

  ghost function Create(db: Db, r: CreateRequest, merchant: MerchantStatus, assetStatus: AssetStatus, journalId: string)
    : (Db, Result<CreateOutcome, CreateError>)
  {
    if !ValidRequest(r) then (db, Err(InvalidRequest))
    else if merchant == MissingMerchant then (db, Err(MerchantUnavailable))
    else
      match FindExisting(db.payouts, r)
      case Err(e) => (db, Err(e))
      case Ok(Some(id)) => (db, Ok(CreateOutcome(id, false)))
      case Ok(None) =>
        var available, frozen := Available(r.merchant, r.asset), Frozen(r.merchant, r.asset);
        if merchant != ActiveMerchant then (db, Err(MerchantUnavailable))
        else if assetStatus == NoActiveAsset then (db, Err(AssetUnavailable))
        else if !OnTron(assetStatus.network) then (db, Err(UnsupportedNetwork))
        else if !IsActive(db, available) || !IsActive(db, frozen) then (db, Err(LedgerUnavailable))
        else if Balance(db.journals, available) < 0 then (db, Err(InvalidBalance))
        else if Balance(db.journals, available) < r.Amount() then (db, Err(InsufficientBalance))
        else
          var journal := FreezeJournal(r.id, NewPayout(r, journalId));
          match PostedId(db.journals, journalId, journal)
          case None => (db, Err(WriteFailed))
          case Some(freezeId) =>
            if !Insertable(db.payouts, r.id, freezeId) then (db, Err(WriteFailed))
            else
              (db.(journals := PostedJournals(db.journals, journalId, journal),
                   payouts := db.payouts[r.id := NewPayout(r, freezeId)]),
               Ok(CreateOutcome(r.id, true)))
  }

  // ---------- review ----------

  datatype Decision = Approve | Reject

  datatype ReviewRequest = ReviewRequest(id: string, decision: Decision, reviewer: string, reason: string)

  datatype ReviewError =
    | InvalidReview | PayoutNotFound | StateConflict | ScreeningApprovalRequired
    | ReviewLedgerUnavailable | InsufficientFrozen | ReviewWriteFailed

  /** The status after the review, and whether this call changed it. */
  datatype ReviewOutcome = ReviewOutcome(status: Status, changed: bool)

  predicate ValidReview(r: ReviewRequest) {
    r.id != "" && 0 < |r.reviewer| <= 128 && 0 < |r.reason| <= 512
  }

  function TargetStatus(d: Decision): Status {
    if d == Approve then Approved else Rejected
  }

  function UnfreezeJournal(id: string, p: Payout, reviewer: string): Journal {
    Journal(OperatorRequester(reviewer), UnfreezeKey(id), PayoutUnfreeze, id,
            TwoEntries(Frozen(p.merchant, p.asset), Available(p.merchant, p.asset), p.asset, p.amount))
  }

  function Reviewed(p: Payout, r: ReviewRequest, unfreezeId: Option<string>): Payout {
    p.(review := Some(ReviewRecord(r.reviewer, r.reason)), unfreezeId := unfreezeId, screeningOpen := false,
       job := p.job.(status := TargetStatus(r.decision)))
  }

  ghost function Review(db: Db, r: ReviewRequest, screeningAllowed: bool, journalId: string)
    : (Db, Result<ReviewOutcome, ReviewError>)
  {
    if !ValidReview(r) then (db, Err(InvalidReview))
    else if r.id !in db.payouts then (db, Err(PayoutNotFound))
    else
      var p := db.payouts[r.id];
      if p.job.status != PendingReview then
        if p.job.status == TargetStatus(r.decision) && p.review == Some(ReviewRecord(r.reviewer, r.reason))
        then (db, Ok(ReviewOutcome(p.job.status, false)))
        else (db, Err(StateConflict))
      else if r.decision == Approve then
        if !screeningAllowed then (db, Err(ScreeningApprovalRequired))
        else if !p.screeningOpen then (db, Err(StateConflict))
        else (db.(payouts := db.payouts[r.id := Reviewed(p, r, None)]), Ok(ReviewOutcome(Approved, true)))
      else
        var available, frozen := Available(p.merchant, p.asset), Frozen(p.merchant, p.asset);
        if !Usable(db, available) || !Usable(db, frozen) then (db, Err(ReviewLedgerUnavailable))
        else if Balance(db.journals, frozen) < p.amount then (db, Err(InsufficientFrozen))
        else
          var journal := UnfreezeJournal(r.id, p, r.reviewer);
          match PostedId(db.journals, journalId, journal)
          case None => (db, Err(ReviewWriteFailed))
          case Some(unfreezeId) =>
            if !p.screeningOpen then (db, Err(StateConflict))
            else
              (db.(journals := PostedJournals(db.journals, journalId, journal),
                   payouts := db.payouts[r.id := Reviewed(p, r, Some(unfreezeId))],
                   outbox := db.outbox + [OutboxEvent(PayoutRejected, r.id, p.amount, unfreezeId)]),
               Ok(ReviewOutcome(Rejected, true)))
  }

  // ---------- terminal settlement ----------

  datatype FinalizeError = ExecutionLeaseLost | TerminalLedgerUnavailable | FrozenInsufficient | TerminalWriteFailed

  function CounterAccount(p: Payout, succeeded: bool): Account {
    if succeeded then Custody(p.asset) else Available(p.merchant, p.asset)
  }

  function TerminalJournal(id: string, p: Payout, succeeded: bool): Journal {
    Journal(PayoutConfirmationSystem,
            if succeeded then SettlementKey(id) else ReleaseKey(id),
            if succeeded then PayoutSettlement else PayoutFailureRelease, id,
            TwoEntries(Frozen(p.merchant, p.asset), CounterAccount(p, succeeded), p.asset, p.amount))
  }

  function Finalized(p: Payout, succeeded: bool, reason: string, journalId: string): Payout {
    var job := Finish(p.job, succeeded, reason);
    if succeeded then p.(settlementId := Some(journalId), job := job)
    else p.(unfreezeId := Some(journalId), job := job)
  }

  ghost function Finalize(db: Db, claim: Claim, succeeded: bool, reason: string, journalId: string)
    : (Db, Result<string, FinalizeError>)
  {
    if claim.id !in db.payouts || !HeldLive(db.payouts[claim.id].job, claim, db.now) then (db, Err(ExecutionLeaseLost))
    else
      var p := db.payouts[claim.id];
      var frozen := Frozen(p.merchant, p.asset);
      if !Usable(db, frozen) || !Usable(db, CounterAccount(p, succeeded)) then (db, Err(TerminalLedgerUnavailable))
      else if Balance(db.journals, frozen) < p.amount then (db, Err(FrozenInsufficient))
      else
        var journal := TerminalJournal(claim.id, p, succeeded);
        match PostedId(db.journals, journalId, journal)
        case None => (db, Err(TerminalWriteFailed))
        case Some(posted) =>
          (db.(journals := PostedJournals(db.journals, journalId, journal),
               payouts := db.payouts[claim.id := Finalized(p, succeeded, reason, posted)],
               outbox := db.outbox + [OutboxEvent(if succeeded then PayoutSucceeded else PayoutFailed, claim.id, p.amount, posted)]),
           Ok(posted))
  }
}
