// The payout and deposit transactions as a whole keep the ledger invariant; each of their
// postings is newly created, and the defensive failure branches behind it are never taken.
module LedgerTransactions {
  import opened Prelude
  import opened Sums
  import opened Lease
  import opened Ledger
  import opened Tables
  import opened Payouts
  import opened LedgerProofs
  import opened LedgerSteps

  /** An open payout is covered by its merchant's frozen balance. */
  lemma FrozenCovers(db: Db, id: string)
    requires LedgerInv(db) && id in db.payouts && Open(db.payouts[id].job.status)
    ensures 0 < db.payouts[id].amount <= Balance(db.journals, Frozen(db.payouts[id].merchant, db.payouts[id].asset))
  {
    var p := db.payouts[id];
    var f := OpenAmount(p.merchant, p.asset);
    assert PayoutLinks(db.journals, id, p);
    MapSumSplit(db.payouts, f, id);
    forall other | other in db.payouts - {id} ensures 0 <= f(other, db.payouts[other]) {
      assert PayoutLinks(db.journals, other, db.payouts[other]);
    }
    MapSumNonneg(db.payouts - {id}, f);
  }

  // ---------- create ----------

  /** What a creation that goes through leaves behind. */
  function Inserted(db: Db, r: CreateRequest, journalId: string): Db {
    var p := NewPayout(r, journalId);
    db.(journals := db.journals[journalId := FreezeJournal(r.id, p)], payouts := db.payouts[r.id := p])
  }

  lemma FreezeReady(db: Db, r: CreateRequest, journalId: string)
    requires Links(db) && journalId !in db.journals && r.id !in db.payouts && Matching(db.payouts, r) == {}
    ensures !Taken(db.journals, journalId, FreezeJournal(r.id, NewPayout(r, journalId)))
    ensures Insertable(db.payouts, r.id, journalId)
  {
    FreezeUntaken(db, r, journalId);
    forall other | other in db.payouts ensures db.payouts[other].freezeId != journalId {
      assert PayoutLinks(db.journals, other, db.payouts[other]);
    }
  }

  lemma CreateShape(db: Db, r: CreateRequest, merchant: MerchantStatus, assetStatus: AssetStatus, journalId: string)
    requires r.id !in db.payouts && Matching(db.payouts, r) == {} ==>
      !Taken(db.journals, journalId, FreezeJournal(r.id, NewPayout(r, journalId))) && Insertable(db.payouts, r.id, journalId)
    requires 0 <= Balance(db.journals, Available(r.merchant, r.asset))
    ensures
      var (next, outcome) := Create(db, r, merchant, assetStatus, journalId);
      && outcome != Err(InvalidBalance) && (outcome == Err(WriteFailed) ==> r.id in db.payouts)
      && (outcome.Err? || !outcome.value.created ==> next == db)
      && (outcome.Ok? && outcome.value.created ==>
            && outcome.value.id == r.id && r.id !in db.payouts && Matching(db.payouts, r) == {} && ValidRequest(r)
            && IsActive(db, Available(r.merchant, r.asset)) && IsActive(db, Frozen(r.merchant, r.asset))
            && r.Amount() <= Balance(db.journals, Available(r.merchant, r.asset))
            && next == Inserted(db, r, journalId))
  {
  }

  /** Create keeps the ledger invariant; what it posts is new, and it never fails on a posting or an overdrawn account. */
  lemma CreateKeeps(db: Db, r: CreateRequest, merchant: MerchantStatus, assetStatus: AssetStatus, journalId: string)
    requires LedgerInv(db) && journalId !in db.journals
    ensures
      var (next, outcome) := Create(db, r, merchant, assetStatus, journalId);
      && LedgerInv(next)
      && outcome != Err(InvalidBalance) && (outcome == Err(WriteFailed) ==> r.id in db.payouts)
      && (outcome.Ok? && outcome.value.created ==> r.id !in db.payouts && next == Inserted(db, r, journalId))
      && (outcome.Err? || !outcome.value.created ==> next == db)
  {
    if r.id !in db.payouts && Matching(db.payouts, r) == {} {
      FreezeReady(db, r, journalId);
    }
    CreateShape(db, r, merchant, assetStatus, journalId);
    var outcome := Create(db, r, merchant, assetStatus, journalId).1;
    if outcome.Ok? && outcome.value.created {
      InsertPayout(db, r, journalId);
    }
  }

  // ---------- review ----------

  function Rejection(db: Db, r: ReviewRequest, journalId: string): Db
    requires r.id in db.payouts
  {
    var p := db.payouts[r.id];
    db.(journals := db.journals[journalId := UnfreezeJournal(r.id, p, r.reviewer)],
        payouts := db.payouts[r.id := Reviewed(p, r, Some(journalId))],
        outbox := db.outbox + [OutboxEvent(PayoutRejected, r.id, p.amount, journalId)])
  }

  function Approval(db: Db, r: ReviewRequest): Db
    requires r.id in db.payouts
  {
    db.(payouts := db.payouts[r.id := Reviewed(db.payouts[r.id], r, None)])
  }

  lemma ReviewShape(db: Db, r: ReviewRequest, allowed: bool, journalId: string)
    requires r.id in db.payouts && db.payouts[r.id].job.status == PendingReview ==>
      && !Taken(db.journals, journalId, UnfreezeJournal(r.id, db.payouts[r.id], r.reviewer))
      && db.payouts[r.id].screeningOpen
      && db.payouts[r.id].amount <= Balance(db.journals, Frozen(db.payouts[r.id].merchant, db.payouts[r.id].asset))
    ensures
      var (next, outcome) := Review(db, r, allowed, journalId);
      && outcome != Err(InsufficientFrozen) && outcome != Err(ReviewWriteFailed)
      && (outcome.Err? || !outcome.value.changed ==> next == db)
      && (outcome.Ok? && outcome.value.changed ==>
            && r.id in db.payouts && db.payouts[r.id].job.status == PendingReview
            && outcome.value.status == TargetStatus(r.decision)
            && (r.decision == Approve ==> allowed && next == Approval(db, r))
            && (r.decision == Reject ==>
                  Usable(db, Frozen(db.payouts[r.id].merchant, db.payouts[r.id].asset))
                  && Usable(db, Available(db.payouts[r.id].merchant, db.payouts[r.id].asset))
                  && next == Rejection(db, r, journalId)))
  {
  }

  lemma ReviewReady(db: Db, r: ReviewRequest, journalId: string)
    requires LedgerInv(db) && journalId !in db.journals
    requires r.id in db.payouts && db.payouts[r.id].job.status == PendingReview
    ensures !Taken(db.journals, journalId, UnfreezeJournal(r.id, db.payouts[r.id], r.reviewer))
    ensures db.payouts[r.id].screeningOpen && db.payouts[r.id].unfreezeId == None && db.payouts[r.id].settlementId == None
    ensures db.payouts[r.id].amount <= Balance(db.journals, Frozen(db.payouts[r.id].merchant, db.payouts[r.id].asset))
  {
    assert PayoutLinks(db.journals, r.id, db.payouts[r.id]);
    UnfreezeUntaken(db, r.id, r.reviewer, journalId);
    FrozenCovers(db, r.id);
  }

  /** Outbox rows are not part of the ledger. */
  lemma OutboxFrame(db: Db, outbox: seq<OutboxEvent>)
    requires LedgerInv(db)
    ensures LedgerInv(db.(outbox := outbox))
  {
  }

  lemma RejectionKeeps(db: Db, r: ReviewRequest, journalId: string)
    requires LedgerInv(db) && journalId !in db.journals && r.decision == Reject
    requires r.id in db.payouts && db.payouts[r.id].job.status == PendingReview
    requires Usable(db, Frozen(db.payouts[r.id].merchant, db.payouts[r.id].asset))
    requires Usable(db, Available(db.payouts[r.id].merchant, db.payouts[r.id].asset))
    ensures LedgerInv(Rejection(db, r, journalId))
  {
    hide LedgerInv;
    var p := db.payouts[r.id];
    ReviewReady(db, r, journalId);
    ClosePayout(db, r.id, Reviewed(p, r, Some(journalId)), journalId, UnfreezeJournal(r.id, p, r.reviewer), Available(p.merchant, p.asset));
    OutboxFrame(db.(journals := db.journals[journalId := UnfreezeJournal(r.id, p, r.reviewer)],
                    payouts := db.payouts[r.id := Reviewed(p, r, Some(journalId))]),
                Rejection(db, r, journalId).outbox);
  }

  lemma ApprovalKeeps(db: Db, r: ReviewRequest)
    requires LedgerInv(db) && r.decision == Approve
    requires r.id in db.payouts && db.payouts[r.id].job.status == PendingReview
    ensures LedgerInv(Approval(db, r))
  {
    hide Balances, Conserved;
    PayoutLinked(db, r.id);
    QuietUpdate(db, r.id, Reviewed(db.payouts[r.id], r, None));
  }

  /** Review keeps the ledger invariant; the insufficient-frozen and failed-posting branches are unreachable. */
  lemma ReviewKeeps(db: Db, r: ReviewRequest, allowed: bool, journalId: string)
    requires LedgerInv(db) && journalId !in db.journals
    ensures
      var (next, outcome) := Review(db, r, allowed, journalId);
      && LedgerInv(next)
      && outcome != Err(InsufficientFrozen) && outcome != Err(ReviewWriteFailed)
      && (outcome.Err? || !outcome.value.changed ==> next == db)
      && (outcome.Ok? && outcome.value.changed ==>
            && r.id in db.payouts && db.payouts[r.id].job.status == PendingReview
            && (r.decision == Approve ==> allowed && next == Approval(db, r))
            && (r.decision == Reject ==> next == Rejection(db, r, journalId)))
  {
    hide PostedId, PostedJournals, Balance, LedgerInv;
    if r.id in db.payouts && db.payouts[r.id].job.status == PendingReview {
      ReviewReady(db, r, journalId);
    }
    ReviewShape(db, r, allowed, journalId);
    var outcome := Review(db, r, allowed, journalId).1;
    if outcome.Ok? && outcome.value.changed {
      if r.decision == Approve {
        ApprovalKeeps(db, r);
      } else {
        RejectionKeeps(db, r, journalId);
      }
    }
  }

  // ---------- terminal settlement ----------

  function Settlement(db: Db, claim: Claim, succeeded: bool, reason: string, journalId: string): Db
    requires claim.id in db.payouts
  {
    var p := db.payouts[claim.id];
    db.(journals := db.journals[journalId := TerminalJournal(claim.id, p, succeeded)],
        payouts := db.payouts[claim.id := Finalized(p, succeeded, reason, journalId)],
        outbox := db.outbox + [OutboxEvent(if succeeded then PayoutSucceeded else PayoutFailed, claim.id, p.amount, journalId)])
  }

  lemma FinalizeShape(db: Db, claim: Claim, succeeded: bool, reason: string, journalId: string)
    requires claim.id in db.payouts && HeldLive(db.payouts[claim.id].job, claim, db.now) ==>
      && !Taken(db.journals, journalId, TerminalJournal(claim.id, db.payouts[claim.id], succeeded))
      && db.payouts[claim.id].amount <= Balance(db.journals, Frozen(db.payouts[claim.id].merchant, db.payouts[claim.id].asset))
    ensures
      var (next, outcome) := Finalize(db, claim, succeeded, reason, journalId);
      && outcome != Err(FrozenInsufficient) && outcome != Err(TerminalWriteFailed)
      && (outcome.Err? ==> next == db)
      && (outcome.Ok? ==>
            && claim.id in db.payouts && HeldLive(db.payouts[claim.id].job, claim, db.now)
            && Usable(db, Frozen(db.payouts[claim.id].merchant, db.payouts[claim.id].asset))
            && Usable(db, CounterAccount(db.payouts[claim.id], succeeded))
            && next == Settlement(db, claim, succeeded, reason, journalId))
  {
  }

  lemma SettlementCloses(db: Db, claim: Claim, succeeded: bool, reason: string, journalId: string)
    requires LedgerInv(db) && claim.id in db.payouts && db.payouts[claim.id].job.status == Confirming
    ensures
      var p := db.payouts[claim.id];
      Closes(p, claim.id, Finalized(p, succeeded, reason, journalId), journalId, TerminalJournal(claim.id, p, succeeded), CounterAccount(p, succeeded))
  {
    hide Balances, Conserved;
    PayoutLinked(db, claim.id);
  }

  lemma SettlementKeeps(db: Db, claim: Claim, succeeded: bool, reason: string, journalId: string)
    requires LedgerInv(db) && journalId !in db.journals
    requires claim.id in db.payouts && db.payouts[claim.id].job.status == Confirming
    requires Usable(db, Frozen(db.payouts[claim.id].merchant, db.payouts[claim.id].asset))
    requires Usable(db, CounterAccount(db.payouts[claim.id], succeeded))
    ensures LedgerInv(Settlement(db, claim, succeeded, reason, journalId))
  {
    hide LedgerInv, PayoutLinks;
    var p := db.payouts[claim.id];
    var q, journal := Finalized(p, succeeded, reason, journalId), TerminalJournal(claim.id, p, succeeded);
    SettlementCloses(db, claim, succeeded, reason, journalId);
    ClosePayout(db, claim.id, q, journalId, journal, CounterAccount(p, succeeded));
    OutboxFrame(db.(journals := db.journals[journalId := journal], payouts := db.payouts[claim.id := q]),
                Settlement(db, claim, succeeded, reason, journalId).outbox);
  }

  /** The terminal transaction keeps the ledger invariant; once the lease is held, only closed accounts can stop it. */
  lemma FinalizeKeeps(db: Db, claim: Claim, succeeded: bool, reason: string, journalId: string)
    requires LedgerInv(db) && journalId !in db.journals && claim.phase == ConfirmationPhase
    ensures
      var (next, outcome) := Finalize(db, claim, succeeded, reason, journalId);
      && LedgerInv(next)
      && outcome != Err(FrozenInsufficient) && outcome != Err(TerminalWriteFailed)
      && (outcome.Err? ==> next == db)
      && (outcome.Ok? ==>
            && claim.id in db.payouts && HeldLive(db.payouts[claim.id].job, claim, db.now)
            && next == Settlement(db, claim, succeeded, reason, journalId))
  {
    if claim.id in db.payouts && HeldLive(db.payouts[claim.id].job, claim, db.now) {
      TerminalUntaken(db, claim.id, succeeded, journalId);
      FrozenCovers(db, claim.id);
    }
    FinalizeShape(db, claim, succeeded, reason, journalId);
    if Finalize(db, claim, succeeded, reason, journalId).1.Ok? {
      SettlementKeeps(db, claim, succeeded, reason, journalId);
    }
  }
}
