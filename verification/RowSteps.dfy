// Every step of the gateway changes at most one row of the leased tables, and a row moves only
// when the worker that holds its current lease stands at the statement that moves it.
module RowSteps {
  import opened Lease
  import opened Tables
  import opened Gateway
  import opened LedgerProofs
  import opened RowProofs
  import Payouts
  import Deposits
  import Sweeps
  import LedgerTransactions
  import DepositProofs

  /** The phase of the claim a worker holds agrees with where it stands. */
  predicate PhaseAgrees(pc: Pc) {
    && (pc.SigningClaimed? || pc.SignerReturned? || pc.SignerErred? ==> pc.claim.phase == SigningPhase)
    && (pc.BroadcastClaimed? || pc.BroadcastDone? ==> pc.claim.phase == BroadcastPhase)
    && (pc.ConfirmClaimed? || pc.SawSucceeded? || pc.SawFailed? || pc.SawNotFound? || pc.SawExpired? || pc.Rebroadcasting? || pc.Releasing? ==>
          pc.claim.phase == ConfirmationPhase)
  }

  predicate PhasesAgree(procs: map<string, Proc>) {
    forall p :: p in procs ==> PhaseAgrees(procs[p].pc)
  }

  // ---------- store transactions ----------

  lemma CreateRows(db: Db, r: Payouts.CreateRequest, merchant: Payouts.MerchantStatus, assetStatus: Payouts.AssetStatus, journalId: string) returns (change: RowChange)
    requires LedgerInv(db) && journalId !in db.journals
    ensures RowsChanged(db, Payouts.Create(db, r, merchant, assetStatus, journalId).0, change) && !change.Moving?
  {
    LedgerTransactions.CreateKeeps(db, r, merchant, assetStatus, journalId);
    var outcome := Payouts.Create(db, r, merchant, assetStatus, journalId).1;
    change := if outcome.Ok? && outcome.value.created then Inserted(r.id) else NoRow;
  }

  lemma DecisionRows(db: Db, r: Payouts.ReviewRequest, journalId: string)
    requires r.id in db.payouts && db.payouts[r.id].job.status == PendingReview
    ensures r.decision == Payouts.Approve ==> RowsChanged(db, LedgerTransactions.Approval(db, r), Reviewed(r.id))
    ensures r.decision == Payouts.Reject ==> RowsChanged(db, LedgerTransactions.Rejection(db, r, journalId), Reviewed(r.id))
  {
  }

  lemma ReviewRows(db: Db, r: Payouts.ReviewRequest, allowed: bool, journalId: string) returns (change: RowChange)
    requires LedgerInv(db) && journalId !in db.journals
    ensures RowsChanged(db, Payouts.Review(db, r, allowed, journalId).0, change) && !change.Moving?
  {
    LedgerTransactions.ReviewKeeps(db, r, allowed, journalId);
    var outcome := Payouts.Review(db, r, allowed, journalId).1;
    if outcome.Ok? && outcome.value.changed {
      DecisionRows(db, r, journalId);
      change := Reviewed(r.id);
    } else {
      change := NoRow;
    }
  }

  lemma PlanRows(cfg: Config, db: Db, plan: Sweeps.PlanInput) returns (change: RowChange)
    ensures RowsChanged(db, Sweeps.Plan(cfg, db, plan), change) && !change.Moving?
  {
    change := if Sweeps.Plan(cfg, db, plan) == db then NoRow else Planned(plan.id);
  }

  lemma StoreRows(cfg: Config, db: Db, x: StoreAction, next: Db) returns (change: RowChange)
    requires LedgerInv(db) && StoreNext(cfg, db, x, next)
    ensures RowsChanged(db, next, change) && !change.Moving?
  {
    hide Deposits.Match, Payouts.Create, Payouts.Review, Sweeps.Plan, LedgerInv;
    match x
    case CreatePayout(r, merchant, assetStatus, journalId) => change := CreateRows(db, r, merchant, assetStatus, journalId);
    case ReviewPayout(r, allowed, journalId) => change := ReviewRows(db, r, allowed, journalId);
    case PlanSweep(plan) => change := PlanRows(cfg, db, plan);
    case MatchEvent(input, journalId) =>
      DepositProofs.MatchTables(cfg, db, input, journalId);
      change := NoRow;
    case _ => change := NoRow;
  }

  // ---------- workers ----------

  lemma ClaimRows(cfg: Config, s: State, p: string, x: WorkAction, t: State) returns (m: Move)
    requires WorkNext(cfg, s, p, x, t) && x.ClaimRow?
    ensures RowsChanged(s.db, t.db, Moving(x.table, x.id, m)) && Justified(s, p, x.table, x.id, m)
    ensures m == Claimed(x.phase, s.procs[p].worker, s.db.now, x.duration)
  {
    m := Claimed(x.phase, s.procs[p].worker, s.db.now, x.duration);
    WithJobMoves(s.db, x.table, x.id, m);
  }

  lemma SigningRows(cfg: Config, s: State, p: string, x: WorkAction, t: State) returns (change: RowChange)
    requires WorkNext(cfg, s, p, x, t) && x.FinishSigning? && PhasesAgree(s.procs)
    ensures RowsChanged(s.db, t.db, change)
    ensures change == NoRow || (change.Moving? && Justified(s, p, change.table, change.id, change.move))
  {
    var pc := s.procs[p].pc;
    var claim := pc.claim;
    assert PhaseAgrees(pc);
    if t.db == s.db {
      change := NoRow;
    } else {
      var m := if pc.SignerReturned? then Signed(pc.tx) else SigningReleased("signer_error");
      WithJobMoves(s.db, claim.table, claim.id, m);
      change := Moving(claim.table, claim.id, m);
    }
  }

  lemma BroadcastRows(cfg: Config, s: State, p: string, x: WorkAction, t: State) returns (change: RowChange)
    requires WorkNext(cfg, s, p, x, t) && x.FinishBroadcast? && PhasesAgree(s.procs)
    ensures RowsChanged(s.db, t.db, change)
    ensures change == NoRow || (change.Moving? && Justified(s, p, change.table, change.id, change.move))
  {
    var pc := s.procs[p].pc;
    var claim := pc.claim;
    assert PhaseAgrees(pc);
    if t.db == s.db {
      change := NoRow;
    } else {
      var m := Begun(pc.result, "broadcast_error", s.db.now);
      WithJobMoves(s.db, claim.table, claim.id, m);
      change := Moving(claim.table, claim.id, m);
    }
  }

  function TerminalMove(pc: Pc): Move
    requires pc.SawSucceeded? || pc.SawFailed? || pc.SawExpired?
  {
    match pc
    case SawSucceeded(_) => Finished(true, "")
    case SawFailed(_) => Finished(false, "execution_failed")
    case SawExpired(_) => Finished(false, "expired_not_found")
  }

  lemma SettlementRows(db: Db, claim: Claim, succeeded: bool, reason: string, journalId: string)
    requires claim.id in db.payouts && Held(db.payouts[claim.id].job, claim) && claim.phase == ConfirmationPhase
    ensures RowsChanged(db, LedgerTransactions.Settlement(db, claim, succeeded, reason, journalId), Moving(PayoutTable, claim.id, Finished(succeeded, reason)))
  {
  }

  lemma PayoutTerminalRows(db: Db, claim: Claim, succeeded: bool, reason: string, journalId: string) returns (change: RowChange)
    requires LedgerInv(db) && journalId !in db.journals && claim.phase == ConfirmationPhase
    ensures RowsChanged(db, Payouts.Finalize(db, claim, succeeded, reason, journalId).0, change)
    ensures change == NoRow || (change == Moving(PayoutTable, claim.id, Finished(succeeded, reason))
                                && claim.id in db.payouts && Held(db.payouts[claim.id].job, claim))
  {
    LedgerTransactions.FinalizeKeeps(db, claim, succeeded, reason, journalId);
    var outcome := Payouts.Finalize(db, claim, succeeded, reason, journalId).1;
    if outcome.Ok? {
      SettlementRows(db, claim, succeeded, reason, journalId);
      change := Moving(PayoutTable, claim.id, Finished(succeeded, reason));
    } else {
      change := NoRow;
    }
  }

  lemma TerminalRows(db: Db, claim: Claim, succeeded: bool, reason: string, journalId: string) returns (change: RowChange)
    requires LedgerInv(db) && journalId !in db.journals && claim.phase == ConfirmationPhase
    ensures RowsChanged(db, FinalizeRow(db, claim, succeeded, reason, journalId), change)
    ensures change == NoRow || (change == Moving(claim.table, claim.id, Finished(succeeded, reason))
                                && HasRow(db, claim.table, claim.id) && Held(RowJob(db, claim.table, claim.id), claim))
  {
    if claim.table == PayoutTable {
      change := PayoutTerminalRows(db, claim, succeeded, reason, journalId);
    } else if claim.id in db.sweeps && HeldLive(db.sweeps[claim.id].job, claim, db.now) {
      WithJobMoves(db, SweepTable, claim.id, Finished(succeeded, reason));
      change := Moving(SweepTable, claim.id, Finished(succeeded, reason));
    } else {
      change := NoRow;
    }
  }

  lemma ConfirmationRows(cfg: Config, s: State, p: string, x: WorkAction, t: State) returns (change: RowChange)
    requires WorkNext(cfg, s, p, x, t) && x.FinishConfirmation? && PhasesAgree(s.procs) && LedgerInv(s.db)
    ensures RowsChanged(s.db, t.db, change)
    ensures change == NoRow || (change.Moving? && Justified(s, p, change.table, change.id, change.move))
  {
    var pc := s.procs[p].pc;
    assert PhaseAgrees(pc);
    if pc.Releasing? {
      if t.db == s.db {
        change := NoRow;
      } else {
        var m := ConfirmationReleased(x.delay, pc.code, s.db.now);
        WithJobMoves(s.db, pc.claim.table, pc.claim.id, m);
        change := Moving(pc.claim.table, pc.claim.id, m);
      }
    } else {
      var m := TerminalMove(pc);
      change := TerminalRows(s.db, pc.claim, m.succeeded, m.reason, x.journalId);
    }
  }

  /** Every worker step: the row moves only at the hands of the holder of its current lease. */
  lemma WorkRows(cfg: Config, s: State, p: string, x: WorkAction, t: State) returns (change: RowChange)
    requires WorkNext(cfg, s, p, x, t) && PhasesAgree(s.procs) && LedgerInv(s.db)
    ensures RowsChanged(s.db, t.db, change)
    ensures change == NoRow || (change.Moving? && Justified(s, p, change.table, change.id, change.move))
  {
    match x
    case ClaimRow(table, id, _, _) =>
      var m := ClaimRows(cfg, s, p, x, t);
      change := Moving(table, id, m);
    case FinishSigning => change := SigningRows(cfg, s, p, x, t);
    case FinishBroadcast => change := BroadcastRows(cfg, s, p, x, t);
    case FinishConfirmation(_, _) => change := ConfirmationRows(cfg, s, p, x, t);
    case _ => change := NoRow;
  }
}
