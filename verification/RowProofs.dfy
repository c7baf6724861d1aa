// How rows of the two leased tables move. Every step changes at most one row, in one of a few
// ways; identities and signed transactions never change, epochs and attempts only grow, and
// terminal rows stay as they are.
module RowProofs {
  import opened Chain
  import opened Lease
  import opened Tables
  import opened Gateway
  import LedgerSteps

  // ---------- one row ----------

  /** The statements that update a leased row. */
  datatype Move =
    | Claimed(phase: Phase, worker: string, now: nat, duration: nat)
    | Signed(tx: SignedTransaction)
    | SigningReleased(code: string)
    | Begun(result: BroadcastResult, code: string, at: nat)
    | ConfirmationReleased(delay: nat, code: string, at: nat)
    | Finished(succeeded: bool, reason: string)

  predicate Enabled(job: Job, m: Move) {
    match m
    case Claimed(phase, worker, now, duration) => Claimable(job, phase, now)
    case Signed(tx) => job.status == Approved && job.lease.Some?
    case SigningReleased(code) => job.status == Approved && job.lease.Some?
    case Begun(result, code, at) => job.status == ReadyForBroadcast && job.lease.Some?
    case ConfirmationReleased(delay, code, at) => job.status == Confirming && job.lease.Some?
    case Finished(succeeded, reason) => job.status == Confirming && job.lease.Some?
  }

  function Moved(job: Job, m: Move): Job {
    match m
    case Claimed(phase, worker, now, duration) => ClaimJob(job, phase, worker, now, duration)
    case Signed(tx) => CompleteSigning(job, tx)
    case SigningReleased(code) => ReleaseSigning(job, code)
    case Begun(result, code, at) => BeginConfirmation(job, result, code, at)
    case ConfirmationReleased(delay, code, at) => ReleaseConfirmation(job, delay, code, at)
    case Finished(succeeded, reason) => Finish(job, succeeded, reason)
  }

  predicate JobProgress(was: Job, job: Job) {
    && was.epoch <= job.epoch
    && was.signingAttempts <= job.signingAttempts && was.broadcastAttempts <= job.broadcastAttempts
    && was.confirmationAttempts <= job.confirmationAttempts
    && (was.transaction.Some? ==> job.transaction == was.transaction)
    && (Terminal(was.status) ==> job == was)
  }

  lemma MoveProgress(job: Job, m: Move)
    requires JobShape(job) && Enabled(job, m)
    ensures JobShape(Moved(job, m)) && JobProgress(job, Moved(job, m))
    ensures !Terminal(job.status) && job.status != PendingReview
    ensures Moved(job, m).status != PendingReview && Moved(job, m).status != Rejected
    ensures m.Claimed? ==> Moved(job, m).epoch == job.epoch + 1
    ensures !m.Claimed? ==> Moved(job, m).epoch == job.epoch && Moved(job, m).lease.None?
  {
  }

  // ---------- the tables ----------

  predicate SweepStatus(status: Status) {
    status != PendingReview && status != Rejected
  }

  predicate PayoutsShaped(payouts: map<string, Payout>) {
    forall id :: id in payouts ==> JobShape(payouts[id].job)
  }

  predicate SweepsShaped(sweeps: map<string, Sweep>) {
    forall id :: id in sweeps ==> JobShape(sweeps[id].job) && SweepStatus(sweeps[id].job.status)
  }

  predicate PayoutProgress(was: Payout, p: Payout) {
    LedgerSteps.SameIdentity(p, was) && JobProgress(was.job, p.job) && (Terminal(was.job.status) ==> p == was)
  }

  predicate SweepProgress(was: Sweep, s: Sweep) {
    s == was.(job := s.job) && JobProgress(was.job, s.job)
  }

  predicate PayoutsProgress(was: map<string, Payout>, payouts: map<string, Payout>) {
    forall id :: id in was ==> id in payouts && PayoutProgress(was[id], payouts[id])
  }

  predicate SweepsProgress(was: map<string, Sweep>, sweeps: map<string, Sweep>) {
    forall id :: id in was ==> id in sweeps && SweepProgress(was[id], sweeps[id])
  }

  /** What one step does to the leased tables. */
  datatype RowChange =
    | NoRow
    | Inserted(id: string)
    | Reviewed(id: string)
    | Moving(table: Table, id: string, move: Move)
    | Planned(id: string)

  predicate PayoutMoved(was: map<string, Payout>, payouts: map<string, Payout>, id: string) {
    id in was && id in payouts && payouts == was[id := payouts[id]] && LedgerSteps.SameIdentity(payouts[id], was[id])
  }

  predicate PayoutsChanged(was: map<string, Payout>, payouts: map<string, Payout>, change: RowChange) {
    match change
    case NoRow => payouts == was
    case Inserted(id) => id !in was && id in payouts && payouts == was[id := payouts[id]] && payouts[id].job == NewJob(PendingReview)
    case Reviewed(id) =>
      && PayoutMoved(was, payouts, id) && was[id].job.status == PendingReview
      && (payouts[id].job == was[id].job.(status := Approved) || payouts[id].job == was[id].job.(status := Rejected))
    case Moving(PayoutTable, id, m) => PayoutMoved(was, payouts, id) && Enabled(was[id].job, m) && payouts[id].job == Moved(was[id].job, m)
    case Moving(SweepTable, _, _) => payouts == was
    case Planned(_) => payouts == was
  }

  predicate SweepsChanged(was: map<string, Sweep>, sweeps: map<string, Sweep>, change: RowChange) {
    match change
    case Planned(id) => id !in was && id in sweeps && sweeps == was[id := sweeps[id]] && sweeps[id].job == NewJob(Approved)
    case Moving(SweepTable, id, m) =>
      id in was && Enabled(was[id].job, m) && sweeps == was[id := was[id].(job := Moved(was[id].job, m))]
    case _ => sweeps == was
  }

  predicate RowsChanged(was: Db, db: Db, change: RowChange) {
    PayoutsChanged(was.payouts, db.payouts, change) && SweepsChanged(was.sweeps, db.sweeps, change)
  }

  lemma PayoutsChangeProgress(was: map<string, Payout>, payouts: map<string, Payout>, change: RowChange)
    requires PayoutsShaped(was) && PayoutsChanged(was, payouts, change)
    ensures PayoutsShaped(payouts) && PayoutsProgress(was, payouts)
  {
    hide JobShape, JobProgress, Moved, Enabled, LedgerSteps.SameIdentity;
    forall id | id in was ensures JobProgress(was[id].job, was[id].job) && LedgerSteps.SameIdentity(was[id], was[id]) {
      NoProgress(was[id]);
    }
    NewShape(PendingReview);
    if change.Moving? && change.table == PayoutTable {
      MoveProgress(was[change.id].job, change.move);
    }
    if change.Reviewed? {
      ReviewProgress(was[change.id].job);
    }
  }

  lemma NoProgress(p: Payout)
    ensures JobProgress(p.job, p.job) && LedgerSteps.SameIdentity(p, p)
  {
  }

  lemma NewShape(status: Status)
    requires status == PendingReview || status == Approved
    ensures JobShape(NewJob(status))
  {
  }

  lemma ReviewProgress(job: Job)
    requires JobShape(job) && job.status == PendingReview
    ensures forall status :: status == Approved || status == Rejected ==>
              JobShape(job.(status := status)) && JobProgress(job, job.(status := status))
  {
  }

  lemma SweepsChangeProgress(was: map<string, Sweep>, sweeps: map<string, Sweep>, change: RowChange)
    requires SweepsShaped(was) && SweepsChanged(was, sweeps, change)
    ensures SweepsShaped(sweeps) && SweepsProgress(was, sweeps)
  {
    if change.Moving? && change.table == SweepTable {
      MoveProgress(was[change.id].job, change.move);
    }
  }

  lemma WithJobMoves(db: Db, table: Table, id: string, m: Move)
    requires HasRow(db, table, id) && Enabled(RowJob(db, table, id), m)
    ensures RowsChanged(db, WithJob(db, table, id, Moved(RowJob(db, table, id), m)), Moving(table, id, m))
  {
  }

  // ---------- why a row moved ----------

  /** The worker position that justifies a row's move. */
  ghost predicate Justified(s: State, p: string, table: Table, id: string, m: Move) {
    p in s.procs
    && var pc := s.procs[p].pc;
       match m
       case Claimed(phase, worker, now, duration) => pc == Idle && duration > 0 && now == s.db.now && worker == s.procs[p].worker
       case Signed(tx) => pc.SignerReturned? && pc.tx == tx && Holds(s, pc.claim, table, id)
       case SigningReleased(code) => pc.SignerErred? && Holds(s, pc.claim, table, id)
       case Begun(result, code, at) => pc.BroadcastDone? && Holds(s, pc.claim, table, id)
       case ConfirmationReleased(delay, code, at) => pc.Releasing? && Holds(s, pc.claim, table, id)
       case Finished(succeeded, reason) =>
         (if succeeded then pc.SawSucceeded? else pc.SawFailed? || pc.SawExpired?) && Holds(s, pc.claim, table, id)
  }

  /** The claim names the row and its lease is the current one. */
  predicate Holds(s: State, c: Claim, table: Table, id: string) {
    c.table == table && c.id == id && HasRow(s.db, table, id) && Held(RowJob(s.db, table, id), c)
  }
}
