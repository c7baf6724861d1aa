// The execution lease shared by payout rows and sweep executions: an owner, a deadline and an
// epoch that fences workers whose lease was taken over.
module Lease {
  import opened Prelude
  import opened Chain

  // "approved" for a payout, "planned" for a sweep execution, is the Approved status here.
  datatype Status = PendingReview | Approved | ReadyForBroadcast | Confirming | Succeeded | Failed | Rejected

  datatype Phase = SigningPhase | BroadcastPhase | ConfirmationPhase

  datatype Holder = Holder(owner: string, until: nat)

  datatype BroadcastResult = Accepted | Unknown

  datatype Job = Job(
    status: Status,
    lease: Option<Holder>,
    epoch: nat,
    signingAttempts: nat,
    broadcastAttempts: nat,
    confirmationAttempts: nat,
    transaction: Option<SignedTransaction>,
    broadcastResult: Option<BroadcastResult>,
    nextConfirmation: nat,
    failureReason: string,
    lastError: string)

  datatype Table = PayoutTable | SweepTable

  /** What a worker holds after a claim: the row, the fencing token, and what the row said then. */
  datatype Claim = Claim(
    table: Table,
    id: string,
    worker: string,
    epoch: nat,
    phase: Phase,
    request: TransferRequest,
    transaction: Option<SignedTransaction>)

  function NewJob(status: Status): Job {
    Job(status, None, 0, 0, 0, 0, None, None, 0, "", "")
  }

  function PhaseStatus(phase: Phase): Status {
    match phase
    case SigningPhase => Approved
    case BroadcastPhase => ReadyForBroadcast
    case ConfirmationPhase => Confirming
  }

  predicate Terminal(status: Status) {
    status == Succeeded || status == Failed || status == Rejected
  }

  /** Signed and not yet settled; also the statuses whose rows carry a transaction, with the terminal ones. */
  predicate HasTransaction(status: Status) {
    status == ReadyForBroadcast || status == Confirming || status == Succeeded || status == Failed
  }

  predicate Claimable(job: Job, phase: Phase, now: nat) {
    && job.status == PhaseStatus(phase)
    && (job.lease.None? || job.lease.value.until <= now)
    && (phase == ConfirmationPhase ==> job.nextConfirmation <= now)
  }

  function ClaimJob(job: Job, phase: Phase, worker: string, now: nat, duration: nat): Job {
    var leased := job.(lease := Some(Holder(worker, now + duration)), epoch := job.epoch + 1);
    match phase
    case SigningPhase => leased.(signingAttempts := job.signingAttempts + 1, lastError := "")
    case BroadcastPhase => leased.(broadcastAttempts := job.broadcastAttempts + 1)
    case ConfirmationPhase => leased.(confirmationAttempts := job.confirmationAttempts + 1)
  }

  /** WHERE status = ... AND owner = ... AND epoch = ... of every completing statement. */
  predicate Held(job: Job, claim: Claim) {
    && job.status == PhaseStatus(claim.phase)
    && job.lease.Some? && job.lease.value.owner == claim.worker
    && job.epoch == claim.epoch
  }

  predicate HeldLive(job: Job, claim: Claim, now: nat) {
    Held(job, claim) && now < job.lease.value.until
  }

  function CompleteSigning(job: Job, tx: SignedTransaction): Job {
    job.(status := ReadyForBroadcast, transaction := Some(tx), lease := None, lastError := "")
  }

  function ReleaseSigning(job: Job, code: string): Job {
    job.(lease := None, lastError := code)
  }

  function BeginConfirmation(job: Job, result: BroadcastResult, code: string, now: nat): Job {
    job.(status := Confirming, broadcastResult := Some(result), nextConfirmation := now,
         lastError := if result == Accepted then "" else code, lease := None)
  }

  function ReleaseConfirmation(job: Job, delay: nat, code: string, now: nat): Job {
    job.(nextConfirmation := now + delay, lastError := code, lease := None)
  }

  function Finish(job: Job, succeeded: bool, reason: string): Job {
    job.(status := if succeeded then Succeeded else Failed, failureReason := reason, lastError := "", lease := None)
  }

  /** Columns that belong together in every reachable row. */
  predicate JobShape(job: Job) {
    && (job.lease.Some? ==> job.status == Approved || job.status == ReadyForBroadcast || job.status == Confirming)
    && (job.transaction.Some? <==> HasTransaction(job.status))
    && (job.status == Confirming || job.status == Succeeded || job.status == Failed ==> job.broadcastAttempts > 0)
    && (job.status == ReadyForBroadcast && job.lease.Some? ==> job.broadcastAttempts > 0)
    && (job.status == PendingReview || job.status == Rejected ==> job.epoch == 0)
    && (job.status == PendingReview || job.status == Approved || job.status == Rejected ==> job.broadcastAttempts == 0)
  }

  /** Counted as in flight by the wallet checkpoint. */
  predicate InFlight(job: Job) {
    job.status == Confirming || (job.status == ReadyForBroadcast && job.broadcastAttempts > 0)
  }
}
