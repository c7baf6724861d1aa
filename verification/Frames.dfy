// Which tables each group of steps leaves alone.
module Frames {
  import opened Chain
  import opened Lease
  import opened Ledger
  import opened Tables
  import opened Gateway
  import opened LedgerProofs
  import opened RowSteps
  import Payouts
  import Deposits
  import DepositProofs
  import LedgerTransactions
  import Sweeps

  /** Scanners own the cursor and the events; captures own the snapshots. */
  predicate ScansUntouched(was: Db, db: Db) {
    db.cursor == was.cursor && db.events == was.events
  }

  predicate OutsideStore(was: Db, db: Db) {
    ScansUntouched(was, db) && db.snapshots == was.snapshots && was.now <= db.now
  }

  lemma CreateFrame(db: Db, r: Payouts.CreateRequest, merchant: Payouts.MerchantStatus, assetStatus: Payouts.AssetStatus, journalId: string)
    requires LedgerInv(db) && journalId !in db.journals
    ensures OutsideStore(db, Payouts.Create(db, r, merchant, assetStatus, journalId).0)
  {
    hide LedgerInv;
    LedgerTransactions.CreateKeeps(db, r, merchant, assetStatus, journalId);
  }

  lemma ReviewFrame(db: Db, r: Payouts.ReviewRequest, allowed: bool, journalId: string)
    requires LedgerInv(db) && journalId !in db.journals
    ensures OutsideStore(db, Payouts.Review(db, r, allowed, journalId).0)
  {
    hide LedgerInv, PostedId, PostedJournals, Balance;
    LedgerTransactions.ReviewKeeps(db, r, allowed, journalId);
  }

  lemma StoreFrame(cfg: Config, db: Db, x: StoreAction, next: Db)
    requires LedgerInv(db) && StoreNext(cfg, db, x, next)
    ensures OutsideStore(db, next)
  {
    hide LedgerInv, Payouts.Create, Payouts.Review, Deposits.Match, Sweeps.Candidate;
    match x
    case CreatePayout(r, merchant, assetStatus, journalId) => CreateFrame(db, r, merchant, assetStatus, journalId);
    case ReviewPayout(r, allowed, journalId) => ReviewFrame(db, r, allowed, journalId);
    case MatchEvent(input, journalId) => DepositProofs.MatchTables(cfg, db, input, journalId);
    case _ =>
  }

  /** A worker's statement reaches the leased tables, the journals and the outbox, and no other table. */
  predicate WorkTables(was: Db, db: Db) {
    db == was.(journals := db.journals, payouts := db.payouts, sweeps := db.sweeps, outbox := db.outbox)
  }

  lemma FinalizeFrame(db: Db, claim: Claim, succeeded: bool, reason: string, journalId: string)
    requires LedgerInv(db) && journalId !in db.journals && claim.phase == ConfirmationPhase
    ensures WorkTables(db, FinalizeRow(db, claim, succeeded, reason, journalId))
  {
    hide LedgerInv, PostedId, PostedJournals, Balance;
    if claim.table == PayoutTable {
      LedgerTransactions.FinalizeKeeps(db, claim, succeeded, reason, journalId);
    }
  }

  lemma ConfirmationFrame(db: Db, pc: Pc, journalId: string, delay: nat)
    requires LedgerInv(db) && Confirmed(pc) && (pc.Releasing? || journalId !in db.journals) && PhaseAgrees(pc)
    ensures WorkTables(db, ConfirmationFinished(db, pc, journalId, delay))
  {
    hide LedgerInv, FinalizeRow;
    match pc
    case SawSucceeded(claim) => FinalizeFrame(db, claim, true, "", journalId);
    case SawFailed(claim) => FinalizeFrame(db, claim, false, "execution_failed", journalId);
    case SawExpired(claim) => FinalizeFrame(db, claim, false, "expired_not_found", journalId);
    case Releasing(_, _) =>
  }

  predicate RowTables(was: Db, db: Db) {
    db == was.(payouts := db.payouts, sweeps := db.sweeps)
  }

  lemma RowFrame(db: Db, table: Table, id: string, job: Job)
    requires HasRow(db, table, id)
    ensures RowTables(db, WithJob(db, table, id, job))
  {
  }

  lemma SigningFrame(db: Db, pc: Pc)
    requires pc.SignerReturned? || pc.SignerErred?
    ensures RowTables(db, SigningFinished(db, pc))
  {
  }

  lemma BroadcastFrame(db: Db, claim: Claim, result: BroadcastResult)
    ensures RowTables(db, BroadcastFinished(db, claim, result))
  {
  }

  /** Only the terminal statement reaches beyond the leased tables. */
  lemma WorkRowTables(cfg: Config, s: State, p: string, x: WorkAction, t: State)
    requires WorkNext(cfg, s, p, x, t) && !x.FinishConfirmation?
    ensures RowTables(s.db, t.db)
  {
    hide SigningFinished, BroadcastFinished, Submit, FreshTransaction, HonestRead, ClaimJob, WithJob;
    var pc := s.procs[p].pc;
    match x
    case ClaimRow(table, id, phase, duration) =>
      RowFrame(s.db, table, id, ClaimJob(RowJob(s.db, table, id), phase, s.procs[p].worker, s.db.now, duration));
    case FinishSigning => SigningFrame(s.db, pc);
    case FinishBroadcast => BroadcastFrame(s.db, pc.claim, pc.result);
    case _ =>
  }

  lemma WorkFrame(cfg: Config, s: State, p: string, x: WorkAction, t: State)
    requires LedgerInv(s.db) && PhasesAgree(s.procs) && WorkNext(cfg, s, p, x, t)
    ensures WorkTables(s.db, t.db)
  {
    hide LedgerInv, ConfirmationFinished, SigningFinished, BroadcastFinished, Submit, FreshTransaction, HonestRead, ClaimJob, WithJob;
    assert PhaseAgrees(s.procs[p].pc);
    if x.FinishConfirmation? {
      ConfirmationFrame(s.db, s.procs[p].pc, x.journalId, x.delay);
    } else {
      WorkRowTables(cfg, s, p, x, t);
    }
  }
}
