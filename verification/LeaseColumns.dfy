// The columns of a leased row as the statements of the workers are told on them.
module LeaseColumns {
  import opened Prelude
  import opened Lease
  import opened Tables
  import opened Gateway

  /** The table with one row's lease columns replaced, and nothing else. */
  ghost predicate OnlyRow(was: Db, db: Db, table: Table, id: string, job: Job) {
    if table == PayoutTable then id in was.payouts && db == was.(payouts := was.payouts[id := was.payouts[id].(job := job)])
    else id in was.sweeps && db == was.(sweeps := was.sweeps[id := was.sweeps[id].(job := job)])
  }

  /** The status a row has while it is due for the phase. */
  predicate InPhase(job: Job, phase: Phase) {
    && (phase == SigningPhase ==> job.status == Approved)
    && (phase == BroadcastPhase ==> job.status == ReadyForBroadcast)
    && (phase == ConfirmationPhase ==> job.status == Confirming)
  }

  /** The row still carries the claim's lease, run out or not. */
  predicate Leased(job: Job, c: Claim) {
    job.lease.Some? && job.lease.value.owner == c.worker && job.epoch == c.epoch
  }

  /** The row still carries the claim's lease, and it has not run out. */
  predicate Live(job: Job, c: Claim, now: nat) {
    job.lease.Some? && job.lease.value.owner == c.worker && job.epoch == c.epoch && now < job.lease.value.until
  }

  /** The row as a claim leaves it: leased until now + duration under the next epoch, with one more attempt. */
  function ClaimedJob(was: Job, phase: Phase, worker: string, now: nat, duration: nat): Job {
    was.(lease := Some(Holder(worker, now + duration)), epoch := was.epoch + 1,
         signingAttempts := was.signingAttempts + (if phase == SigningPhase then 1 else 0),
         broadcastAttempts := was.broadcastAttempts + (if phase == BroadcastPhase then 1 else 0),
         confirmationAttempts := was.confirmationAttempts + (if phase == ConfirmationPhase then 1 else 0),
         lastError := if phase == SigningPhase then "" else was.lastError)
  }

  /** The row is in the claim's phase, and carries its live lease. */
  predicate LiveRow(db: Db, c: Claim) {
    HasRow(db, c.table, c.id) && InPhase(RowJob(db, c.table, c.id), c.phase) && Live(RowJob(db, c.table, c.id), c, db.now)
  }

  /** The row carries a signed transaction with this id. */
  predicate Carries(db: Db, table: Table, id: string, txId: string) {
    HasRow(db, table, id) && RowJob(db, table, id).transaction.Some? && RowJob(db, table, id).transaction.value.id == txId
  }

  lemma UnusedExact(db: Db, table: Table, id: string, txId: string)
    ensures TransactionUnused(db, table, id, txId) <==> forall other :: other != id ==> !Carries(db, table, other, txId)
  {
    if forall other :: other != id ==> !Carries(db, table, other, txId) {
      if table == PayoutTable {
        forall other | other in db.payouts && other != id && db.payouts[other].job.transaction.Some?
          ensures db.payouts[other].job.transaction.value.id != txId
        {
          assert !Carries(db, table, other, txId);
        }
      } else {
        forall other | other in db.sweeps && other != id && db.sweeps[other].job.transaction.Some?
          ensures db.sweeps[other].job.transaction.value.id != txId
        {
          assert !Carries(db, table, other, txId);
        }
      }
    }
  }

  predicate LeasedRow(db: Db, c: Claim) {
    HasRow(db, c.table, c.id) && InPhase(RowJob(db, c.table, c.id), c.phase) && Leased(RowJob(db, c.table, c.id), c)
  }
}
