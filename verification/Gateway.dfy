// The whole gateway as one state machine. Every database transaction, signer call and node call
// is one atomic step; a worker may stop between any two of its steps, and steps of all workers,
// of operators and of the chain interleave freely.
module Gateway {
  import opened Prelude
  import opened Chain
  import opened Lease
  import opened Ledger
  import opened Tables
  import opened Signer
  import Payouts
  import Deposits
  import Indexer
  import Sweeps
  import Wallets

  /** Where a worker process stands between two of its calls. */
  datatype Pc =
    | Idle
    | SigningClaimed(claim: Claim)
    | SignerReturned(claim: Claim, tx: SignedTransaction)
    | SignerErred(claim: Claim)
    | BroadcastClaimed(claim: Claim)
    | BroadcastDone(claim: Claim, result: BroadcastResult)
    | ConfirmClaimed(claim: Claim)
    | SawSucceeded(claim: Claim)
    | SawFailed(claim: Claim)
    | SawNotFound(claim: Claim, readAt: nat)
    | SawExpired(claim: Claim)
    | Rebroadcasting(claim: Claim)
    | Releasing(claim: Claim, code: string)
    | ScanBound(contract: string)
    | ScanClaimed(scan: Indexer.ScanClaim, contract: string)
    | ScanHeaded(scan: Indexer.ScanClaim, contract: string, head: Header)
    | ScanFetched(scan: Indexer.ScanClaim, contract: string, block: Block)
    | ScanReleasing(scan: Indexer.ScanClaim)
    | CaptureBegun(asset: string, before: Checkpoint)
    | CaptureReading(asset: string, before: Checkpoint, head: Header, balances: seq<int>)
    | CaptureRead(asset: string, before: Checkpoint, head: Header, balances: seq<int>)
    | CaptureDone(snapshot: Snapshot)

  datatype Proc = Proc(worker: string, pc: Pc)

  datatype State = State(db: Db, signer: Records, chain: Chain, procs: map<string, Proc>, log: seq<Claim>)

  datatype Delivery = RejectedByNode | Lost | Delivered

  /** Transactions on behalf of merchants, operators and background jobs. */
  datatype StoreAction =
    | Tick(elapsed: nat)
    | SetAccount(account: Account, status: AccountStatus)
    | CreatePayout(create: Payouts.CreateRequest, merchant: Payouts.MerchantStatus, assetStatus: Payouts.AssetStatus, journalId: string)
    | ReviewPayout(review: Payouts.ReviewRequest, screeningAllowed: bool, journalId: string)
    | CreateIntent(id: string, intent: Intent)
    | MatchEvent(input: Deposits.MatchInput, journalId: string)
    | ExpireIntent(id: string)
    | PlanSweep(plan: Sweeps.PlanInput)

  datatype ChainAction =
    | AppendBlock(block: Block)
    | DropUnfinalized(height: nat)
    | Solidify(height: nat)

  /** Signing, broadcast and confirmation of a leased row, one call at a time. */
  datatype WorkAction =
    | ClaimRow(table: Table, id: string, phase: Phase, duration: nat)
    | CallSigner(built: Option<SignedTransaction>, lost: bool)
    | FinishSigning
    | Broadcast(delivery: Delivery)
    | FinishBroadcast
    | ReadTransaction(answer: Option<TransactionState>)
    | ReadHead(reachable: bool)
    | FinishConfirmation(journalId: string, delay: nat)

  datatype ScanAction =
    | ScanBind(contract: string)
    | ScanClaimCursor(duration: nat)
    | ScanReadHead(reachable: bool)
    | ScanReadBlock(reachable: bool)
    | ScanCommit
    | ScanRelease

  datatype CaptureAction =
    | CaptureBefore(asset: string)
    | CaptureStartHead
    | CaptureBalance
    | CaptureEndHead
    | CaptureAfter
    | CaptureSave

  datatype Action =
    | Store(store: StoreAction)
    | Network(change: ChainAction)
    | Work(proc: string, work: WorkAction)
    | Scan(proc: string, scan: ScanAction)
    | Capture(proc: string, capture: CaptureAction)
    | Crash(proc: string)

  // ---------- the two leased tables ----------

  predicate HasRow(db: Db, table: Table, id: string) {
    if table == PayoutTable then id in db.payouts else id in db.sweeps
  }

  function RowJob(db: Db, table: Table, id: string): Job
    requires HasRow(db, table, id)
  {
    if table == PayoutTable then db.payouts[id].job else db.sweeps[id].job
  }

  function RowRequest(cfg: Config, db: Db, table: Table, id: string): TransferRequest
    requires HasRow(db, table, id)
  {
    if table == PayoutTable then PayoutRequest(cfg, id, db.payouts[id]) else SweepRequest(id, db.sweeps[id])
  }

  function WithJob(db: Db, table: Table, id: string, job: Job): Db
    requires HasRow(db, table, id)
  {
    if table == PayoutTable then db.(payouts := db.payouts[id := db.payouts[id].(job := job)])
    else db.(sweeps := db.sweeps[id := db.sweeps[id].(job := job)])
  }

  // ---------- the chain environment ----------

  /** What the chain rules allow a block to hold, given what the nodes and the signer know. */
  ghost predicate Permitted(cfg: Config, s: State, block: Block)
    requires s.chain.blocks != []
  {
    var parent := s.chain.blocks[|s.chain.blocks| - 1].header;
    && parent.timestamp <= block.header.timestamp
    && (forall r :: r in block.receipts && r.transactionId in s.chain.broadcasted ==>
          parent.timestamp < s.chain.broadcasted[r.transactionId].expiresAt)
    && (forall id :: id in s.signer && !NoReceipt(block, s.signer[id].transaction.id) ==>
          s.signer[id].transaction.id in s.chain.broadcasted)
    && (forall t :: t in block.transfers && FromCustody(cfg, t) ==> PaidByRequest(s.chain.broadcasted, t))
    && (forall i, j :: 0 <= i < j < |block.transfers| && FromCustody(cfg, block.transfers[i]) && FromCustody(cfg, block.transfers[j]) ==>
          block.transfers[i].id.transactionId != block.transfers[j].id.transactionId)
  }

  predicate FromCustody(cfg: Config, t: Transfer) {
    InCustody(cfg, t.id.contract, t.sender)
  }

  /** A custody transfer is exactly what a broadcast transaction was signed to pay. */
  predicate PaidByRequest(broadcasted: map<string, Payload>, t: Transfer) {
    t.id.transactionId in broadcasted
    && var request := broadcasted[t.id.transactionId].request;
       request.contract == t.id.contract && request.owner == t.sender
       && request.destination == t.recipient && request.amount == t.amount
  }

  /** A transaction id nobody has used: ids are digests of what is signed. */
  predicate FreshTransaction(chain: Chain, built: Option<SignedTransaction>) {
    built.Some? ==> Absent(chain.blocks, built.value.id) && built.value.id !in chain.broadcasted
  }

  function SolidifiedHead(chain: Chain): Header
    requires chain.solidified < |chain.blocks|
  {
    chain.blocks[chain.solidified].header
  }

  /** A node takes a well-formed transaction it does not know, and refuses other content under a known id. */
  function Submit(chain: Chain, tx: SignedTransaction, delivery: Delivery): (Chain, bool) {
    if delivery == RejectedByNode || tx.id == "" || tx.payload.bytes == "" then (chain, false)
    else if tx.id in chain.broadcasted && chain.broadcasted[tx.id] != tx.payload then (chain, false)
    else (chain.(broadcasted := chain.broadcasted[tx.id := tx.payload]), delivery == Delivered)
  }

  ghost predicate ChainNext(cfg: Config, s: State, x: ChainAction, chain: Chain) {
    match x
    case AppendBlock(block) =>
      && s.chain.blocks != [] && BlockFits(s.chain.network, s.chain.blocks, block) && Permitted(cfg, s, block)
      && chain == s.chain.(blocks := s.chain.blocks + [block])
    case DropUnfinalized(height) =>
      s.chain.solidified < height <= |s.chain.blocks| && chain == s.chain.(blocks := s.chain.blocks[..height])
    case Solidify(height) =>
      s.chain.solidified <= height < |s.chain.blocks| && chain == s.chain.(solidified := height)
  }

  // ---------- store steps ----------

  ghost predicate StoreNext(cfg: Config, db: Db, x: StoreAction, next: Db) {
    match x
    case Tick(elapsed) => next == db.(now := db.now + elapsed)
    case SetAccount(account, status) => next == db.(accounts := db.accounts[account := status])
    case CreatePayout(r, merchant, assetStatus, journalId) =>
      journalId !in db.journals && next == Payouts.Create(db, r, merchant, assetStatus, journalId).0
    case ReviewPayout(r, allowed, journalId) =>
      journalId !in db.journals && next == Payouts.Review(db, r, allowed, journalId).0
    case CreateIntent(id, intent) => next == Deposits.CreateIntent(cfg, db, id, intent)
    case MatchEvent(input, journalId) => journalId !in db.journals && next == Deposits.Match(cfg, db, input, journalId).0
    case ExpireIntent(id) => next == Deposits.Expire(db, id)
    case PlanSweep(plan) => next == Sweeps.Plan(cfg, db, plan)
  }

  // ---------- worker steps ----------

  function Goto(s: State, p: string, pc: Pc): State
    requires p in s.procs
  {
    s.(procs := s.procs[p := s.procs[p].(pc := pc)])
  }

  function ClaimedPc(claim: Claim): Pc {
    match claim.phase
    case SigningPhase => SigningClaimed(claim)
    case BroadcastPhase => BroadcastClaimed(claim)
    case ConfirmationPhase => ConfirmClaimed(claim)
  }

  function NewClaim(cfg: Config, db: Db, table: Table, id: string, phase: Phase, worker: string): Claim
    requires HasRow(db, table, id)
  {
    var job := RowJob(db, table, id);
    Claim(table, id, worker, job.epoch + 1, phase, RowRequest(cfg, db, table, id), job.transaction)
  }

  /** UNIQUE (transaction_id) of each leased table. */
  predicate TransactionUnused(db: Db, table: Table, id: string, txId: string) {
    if table == PayoutTable then
      forall other :: other in db.payouts && other != id && db.payouts[other].job.transaction.Some? ==>
        db.payouts[other].job.transaction.value.id != txId
    else
      forall other :: other in db.sweeps && other != id && db.sweeps[other].job.transaction.Some? ==>
        db.sweeps[other].job.transaction.value.id != txId
  }

  /** CompleteSigning after a signature, ReleaseSigning after a signer error. */
  function SigningFinished(db: Db, pc: Pc): Db
    requires pc.SignerReturned? || pc.SignerErred?
  {
    var claim := pc.claim;
    if !HasRow(db, claim.table, claim.id) then db
    else
      var job := RowJob(db, claim.table, claim.id);
      if pc.SignerReturned? then
        if HeldLive(job, claim, db.now) && TransactionUnused(db, claim.table, claim.id, pc.tx.id)
        then WithJob(db, claim.table, claim.id, CompleteSigning(job, pc.tx))
        else db
      else if Held(job, claim) then WithJob(db, claim.table, claim.id, ReleaseSigning(job, "signer_error"))
      else db
  }

  function BroadcastFinished(db: Db, claim: Claim, result: BroadcastResult): Db {
    if !HasRow(db, claim.table, claim.id) || !HeldLive(RowJob(db, claim.table, claim.id), claim, db.now) then db
    else WithJob(db, claim.table, claim.id, BeginConfirmation(RowJob(db, claim.table, claim.id), result, "broadcast_error", db.now))
  }

  /** The first read of confirm; no answer stands for a node error. */
  function AfterRead(claim: Claim, answer: Option<TransactionState>, solidified: nat): Pc {
    if answer.None? then Releasing(claim, "node_error")
    else if answer.value.solidified && answer.value.status == TransactionSucceeded then SawSucceeded(claim)
    else if answer.value.solidified && answer.value.status == TransactionFailed then SawFailed(claim)
    else if answer.value.status == NotFound then SawNotFound(claim, solidified)
    else Releasing(claim, "")
  }

  /** The second read of confirm: the solidified head decides between safe expiry and rebroadcast. */
  function AfterHead(claim: Claim, expiresAt: nat, head: Option<Header>): Pc {
    if head.None? then Releasing(claim, "node_error")
    else if head.value.timestamp >= expiresAt then SawExpired(claim)
    else Rebroadcasting(claim)
  }

  /** The terminal statement of either table. */
  ghost function FinalizeRow(db: Db, claim: Claim, succeeded: bool, reason: string, journalId: string): Db {
    if claim.table == PayoutTable then Payouts.Finalize(db, claim, succeeded, reason, journalId).0
    else if claim.id in db.sweeps && HeldLive(db.sweeps[claim.id].job, claim, db.now)
    then WithJob(db, SweepTable, claim.id, Finish(db.sweeps[claim.id].job, succeeded, reason))
    else db
  }

  function ReleaseRow(db: Db, claim: Claim, delay: nat, code: string): Db {
    if HasRow(db, claim.table, claim.id) && Held(RowJob(db, claim.table, claim.id), claim)
    then WithJob(db, claim.table, claim.id, ReleaseConfirmation(RowJob(db, claim.table, claim.id), delay, code, db.now))
    else db
  }

  predicate Confirmed(pc: Pc) {
    pc.SawSucceeded? || pc.SawFailed? || pc.SawExpired? || pc.Releasing?
  }

  ghost function ConfirmationFinished(db: Db, pc: Pc, journalId: string, delay: nat): Db
    requires Confirmed(pc)
  {
    match pc
    case SawSucceeded(claim) => FinalizeRow(db, claim, true, "", journalId)
    case SawFailed(claim) => FinalizeRow(db, claim, false, "execution_failed", journalId)
    case SawExpired(claim) => FinalizeRow(db, claim, false, "expired_not_found", journalId)
    case Releasing(claim, code) => ReleaseRow(db, claim, delay, code)
  }

  ghost predicate WorkNext(cfg: Config, s: State, p: string, x: WorkAction, t: State) {
    p in s.procs
    && var pc := s.procs[p].pc;
       match x
       case ClaimRow(table, id, phase, duration) =>
         && pc == Idle && duration > 0 && HasRow(s.db, table, id) && Claimable(RowJob(s.db, table, id), phase, s.db.now)
         && var claim := NewClaim(cfg, s.db, table, id, phase, s.procs[p].worker);
            var job := ClaimJob(RowJob(s.db, table, id), phase, claim.worker, s.db.now, duration);
            t == Goto(s, p, ClaimedPc(claim)).(db := WithJob(s.db, table, id, job), log := s.log + [claim])
       case CallSigner(built, lost) =>
         && pc.SigningClaimed? && FreshTransaction(s.chain, built)
         && var (records, result) := Sign(cfg, s.signer, pc.claim.request, built);
            t == Goto(s, p, if lost || result.Err? then SignerErred(pc.claim) else SignerReturned(pc.claim, result.value)).(signer := records)
       case FinishSigning =>
         && (pc.SignerReturned? || pc.SignerErred?)
         && t == Goto(s, p, Idle).(db := SigningFinished(s.db, pc))
       case Broadcast(delivery) =>
         && (pc.BroadcastClaimed? || pc.Rebroadcasting?) && pc.claim.transaction.Some?
         && var (chain, acknowledged) := Submit(s.chain, pc.claim.transaction.value, delivery);
            var next :=
              if pc.BroadcastClaimed? then BroadcastDone(pc.claim, if acknowledged then Accepted else Unknown)
              else Releasing(pc.claim, if acknowledged then "" else "rebroadcast_error");
            t == Goto(s, p, next).(chain := chain)
       case FinishBroadcast =>
         && pc.BroadcastDone?
         && t == Goto(s, p, Idle).(db := BroadcastFinished(s.db, pc.claim, pc.result))
       case ReadTransaction(answer) =>
         && pc.ConfirmClaimed? && pc.claim.transaction.Some?
         && (answer.Some? ==> HonestRead(s.chain, pc.claim.transaction.value.id, answer.value))
         && t == Goto(s, p, AfterRead(pc.claim, answer, s.chain.solidified))
       case ReadHead(reachable) =>
         && pc.SawNotFound? && pc.claim.transaction.Some? && s.chain.solidified < |s.chain.blocks|
         && var head := if reachable then Some(SolidifiedHead(s.chain)) else None;
            t == Goto(s, p, AfterHead(pc.claim, pc.claim.transaction.value.payload.expiresAt, head))
       case FinishConfirmation(journalId, delay) =>
         && Confirmed(pc) && (pc.Releasing? || journalId !in s.db.journals) && delay > 0
         && t == Goto(s, p, Idle).(db := ConfirmationFinished(s.db, pc, journalId, delay))
  }

  // ---------- scanner steps ----------

  ghost predicate ScanNext(db: Db, chain: Chain, proc: Proc, x: ScanAction, next: Db, reached: Pc) {
    var pc := proc.pc;
    match x
    case ScanBind(contract) =>
      && pc == Idle && contract != ""
      && next == db.(cursor := Indexer.Bind(db.cursor, contract))
      && reached == if next.cursor.tracked == Some(contract) then ScanBound(contract) else Idle
    case ScanClaimCursor(duration) =>
      && pc.ScanBound? && duration > 0
      && if Indexer.CursorFree(db.cursor, db.now) then
           && next == db.(cursor := Indexer.ClaimCursor(db.cursor, proc.worker, db.now, duration))
           && reached == ScanClaimed(Indexer.ScanClaim(proc.worker, next.cursor.epoch, db.cursor.next, db.cursor.previous), pc.contract)
         else next == db && reached == Idle
    case ScanReadHead(reachable) =>
      && pc.ScanClaimed? && chain.solidified < |chain.blocks| && next == db
      && reached == if !reachable || SolidifiedHead(chain).height < pc.scan.next then ScanReleasing(pc.scan)
                  else ScanHeaded(pc.scan, pc.contract, SolidifiedHead(chain))
    case ScanReadBlock(reachable) =>
      && pc.ScanHeaded? && chain.solidified < |chain.blocks| && next == db
      && reached == if reachable && pc.scan.next <= chain.solidified
                     && Indexer.BlockContinues(pc.scan, pc.head, chain.blocks[pc.scan.next])
                     && Indexer.EventsValid(chain.network, pc.contract, chain.blocks[pc.scan.next])
                  then ScanFetched(pc.scan, pc.contract, chain.blocks[pc.scan.next])
                  else ScanReleasing(pc.scan)
    case ScanCommit =>
      && pc.ScanFetched?
      && next == Indexer.Commit(db, pc.scan, pc.contract, pc.block)
      && reached == if next == db then ScanReleasing(pc.scan) else Idle
    case ScanRelease =>
      pc.ScanReleasing? && next == Indexer.Release(db, pc.scan) && reached == Idle
  }

  // ---------- snapshot steps ----------

  /** parseAmount accepts the texts of these values and no others. */
  predicate Parsable(amount: int) {
    0 <= amount < TWO_256
  }

  predicate ReadableCheckpoint(c: Checkpoint) {
    && Parsable(c.balance) && Parsable(c.payoutAmount) && Parsable(c.sweepAmount)
    && 0 <= c.entryCount && 0 <= c.payoutCount && 0 <= c.sweepCount
    && (c.payoutCount == 0 <==> c.payoutAmount == 0) && (c.sweepCount == 0 <==> c.sweepAmount == 0)
  }

  /** The custody account is open and its checkpoint reads as amounts. */
  ghost predicate CheckpointAvailable(db: Db, asset: string) {
    Usable(db, Custody(asset)) && ReadableCheckpoint(Wallets.ReadCheckpoint(db, asset))
  }

  ghost predicate CaptureNext(cfg: Config, db: Db, chain: Chain, pc: Pc, x: CaptureAction, next: Db, reached: Pc) {
    match x
    case CaptureBefore(asset) =>
      && pc == Idle && asset in cfg.wallets && cfg.wallets[asset] != [] && next == db
      && reached == if CheckpointAvailable(db, asset) then CaptureBegun(asset, Wallets.ReadCheckpoint(db, asset)) else Idle
    case CaptureStartHead =>
      && pc.CaptureBegun? && chain.solidified < |chain.blocks| && next == db
      && reached == CaptureReading(pc.asset, pc.before, SolidifiedHead(chain), [])
    case CaptureBalance =>
      && pc.CaptureReading? && chain.solidified < |chain.blocks| && next == db
      && pc.asset in cfg.wallets && |pc.balances| < |cfg.wallets[pc.asset]|
      && var amount := TokenBalance(chain.blocks[..chain.solidified + 1], pc.asset, cfg.wallets[pc.asset][|pc.balances|]);
         var balances := pc.balances + [amount];
         reached == if Parsable(amount) && Parsable(Wallets.Total(balances)) then CaptureReading(pc.asset, pc.before, pc.head, balances) else Idle
    case CaptureEndHead =>
      && pc.CaptureReading? && chain.solidified < |chain.blocks| && next == db
      && pc.asset in cfg.wallets && |pc.balances| == |cfg.wallets[pc.asset]|
      && reached == if SolidifiedHead(chain) == pc.head then CaptureRead(pc.asset, pc.before, pc.head, pc.balances) else Idle
    case CaptureAfter =>
      && pc.CaptureRead? && next == db
      && reached == if CheckpointAvailable(db, pc.asset) && Wallets.ReadCheckpoint(db, pc.asset) == pc.before
                  then CaptureDone(Snapshot(pc.asset, pc.head, pc.balances, Wallets.Total(pc.balances), pc.before))
                  else Idle
    case CaptureSave =>
      && pc.CaptureDone? && reached == Idle
      && next == if CheckpointAvailable(db, pc.snapshot.asset) && Wallets.ReadCheckpoint(db, pc.snapshot.asset) == pc.snapshot.ledger
                 then db.(snapshots := db.snapshots + [pc.snapshot]) else db
  }

  // ---------- one step, and runs ----------

  ghost predicate Next(cfg: Config, s: State, a: Action, t: State) {
    match a
    case Store(x) => StoreNext(cfg, s.db, x, t.db) && t == s.(db := t.db)
    case Network(x) => ChainNext(cfg, s, x, t.chain) && t == s.(chain := t.chain)
    case Work(p, x) => WorkNext(cfg, s, p, x, t)
    case Scan(p, x) =>
      p in s.procs && p in t.procs && ScanNext(s.db, s.chain, s.procs[p], x, t.db, t.procs[p].pc) && t == Goto(s, p, t.procs[p].pc).(db := t.db)
    case Capture(p, x) =>
      p in s.procs && p in t.procs && CaptureNext(cfg, s.db, s.chain, s.procs[p].pc, x, t.db, t.procs[p].pc) && t == Goto(s, p, t.procs[p].pc).(db := t.db)
    case Crash(p) => p in s.procs && t == Goto(s, p, Idle)
  }

  /** The k-th action leads from one state to the next. */
  ghost predicate Linked(cfg: Config, states: seq<State>, actions: seq<Action>, k: nat)
    requires k < |actions| < |states|
  {
    Next(cfg, states[k], actions[k], states[k + 1])
  }

  /** A run: states linked by steps. */
  ghost predicate Run(cfg: Config, states: seq<State>, actions: seq<Action>) {
    && |states| == |actions| + 1 && Initial(cfg, states[0])
    && forall k: nat :: k < |actions| ==> Linked(cfg, states, actions, k)
  }

  /** A fresh deployment: empty tables, a genesis block, idle workers, a cursor at its anchor. */
  ghost predicate Initial(cfg: Config, s: State) {
    && ValidConfig(cfg)
    && s.db.journals == map[] && s.db.payouts == map[] && s.db.sweeps == map[] && s.db.outbox == []
    && s.db.events == map[] && s.db.intents == map[] && s.db.matches == map[] && s.db.snapshots == []
    && s.db.cursor.start > 0 && s.db.cursor.next == s.db.cursor.start && s.db.cursor.anchor == s.db.cursor.previous
    && s.db.cursor.tracked == None && s.db.cursor.lease == None
    && s.signer == map[] && s.log == []
    && s.chain.network == cfg.network && |s.chain.blocks| == 1 && IsGenesis(s.chain.blocks[0])
    && s.chain.solidified == 0 && s.chain.broadcasted == map[]
    && (forall p :: p in s.procs ==> s.procs[p].pc == Idle)
  }
}
