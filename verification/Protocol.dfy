// What holds between the leased rows, the signer, the chain and the workers in every reachable
// state, and why the steps of other workers cannot disturb it.
module Protocol {
  import opened Prelude
  import opened Chain
  import opened Lease
  import opened Tables
  import opened Signer
  import opened Gateway
  import opened RowProofs
  import LedgerSteps

  // ---------- one row, of either table ----------

  ghost predicate RowsAdvance(cfg: Config, was: Db, db: Db) {
    forall table, id :: HasRow(was, table, id) ==>
      && HasRow(db, table, id) && RowRequest(cfg, db, table, id) == RowRequest(cfg, was, table, id)
      && JobProgress(RowJob(was, table, id), RowJob(db, table, id))
      && (Terminal(RowJob(was, table, id).status) ==> SameRowAs(was, db, table, id))
  }

  /** The whole row is what it was. */
  predicate SameRowAs(was: Db, db: Db, table: Table, id: string)
    requires HasRow(was, table, id) && HasRow(db, table, id)
  {
    if table == PayoutTable then db.payouts[id] == was.payouts[id] else db.sweeps[id] == was.sweeps[id]
  }

  lemma ProgressAdvances(cfg: Config, was: Db, db: Db)
    requires PayoutsProgress(was.payouts, db.payouts) && SweepsProgress(was.sweeps, db.sweeps)
    ensures RowsAdvance(cfg, was, db)
  {
  }

  predicate Shaped(db: Db) {
    PayoutsShaped(db.payouts) && SweepsShaped(db.sweeps)
  }

  lemma RowShaped(db: Db, table: Table, id: string)
    requires Shaped(db) && HasRow(db, table, id)
    ensures JobShape(RowJob(db, table, id))
  {
  }

  lemma ChangeAdvances(cfg: Config, was: Db, db: Db, change: RowChange)
    requires Shaped(was) && RowsChanged(was, db, change)
    ensures RowsAdvance(cfg, was, db) && Shaped(db)
  {
    hide JobShape, JobProgress, LedgerSteps.SameIdentity, Moved, Enabled;
    PayoutsChangeProgress(was.payouts, db.payouts, change);
    SweepsChangeProgress(was.sweeps, db.sweeps, change);
    ProgressAdvances(cfg, was, db);
  }

  /** What a change does to any one row: the moving row takes its move, the others keep their transaction. */
  lemma RowAfter(cfg: Config, was: Db, db: Db, change: RowChange, table: Table, id: string)
    requires Shaped(was) && RowsChanged(was, db, change) && HasRow(db, table, id)
    ensures !HasRow(was, table, id) ==> RowJob(db, table, id) in {NewJob(PendingReview), NewJob(Approved)}
    ensures HasRow(was, table, id) ==> RowRequest(cfg, db, table, id) == RowRequest(cfg, was, table, id)
    ensures HasRow(was, table, id) && change.Moving? && change.table == table && change.id == id ==>
      Enabled(RowJob(was, table, id), change.move) && RowJob(db, table, id) == Moved(RowJob(was, table, id), change.move)
    ensures HasRow(was, table, id) && !(change.Moving? && change.table == table && change.id == id) ==>
      || RowJob(db, table, id) == RowJob(was, table, id)
      || (RowJob(was, table, id).status == PendingReview && RowJob(db, table, id).status in {Approved, Rejected}
          && RowJob(db, table, id) == RowJob(was, table, id).(status := RowJob(db, table, id).status))
  {
    hide Moved, Enabled, JobShape;
  }

  // ---------- the signer ----------

  predicate RecordSound(id: string, r: SignerRecord) {
    r.request.id == id && Executes(r.transaction, r.request)
  }

  predicate SignerSound(signer: Records) {
    && (forall id :: id in signer ==> RecordSound(id, signer[id]))
    && (forall a, b :: a in signer && b in signer && signer[a].transaction.id == signer[b].transaction.id ==> a == b)
  }

  predicate SignerGrows(was: Records, signer: Records) {
    forall id :: id in was ==> id in signer && signer[id] == was[id]
  }

  /** The signer stores exactly this transaction for the request. */
  predicate SignedFor(signer: Records, request: TransferRequest, tx: SignedTransaction) {
    request.id in signer && signer[request.id] == SignerRecord(request, tx)
  }

  ghost predicate RowsSigned(cfg: Config, db: Db, signer: Records) {
    forall table, id :: HasRow(db, table, id) && RowJob(db, table, id).transaction.Some? ==>
      SignedFor(signer, RowRequest(cfg, db, table, id), RowJob(db, table, id).transaction.value)
  }

  // ---------- the chain ----------

  ghost predicate TimesRise(blocks: seq<Block>) {
    forall i, j :: 0 <= i <= j < |blocks| ==> blocks[i].header.timestamp <= blocks[j].header.timestamp
  }

  /** A known transaction is on a block only if the parent came before its expiration. */
  ghost predicate InTime(blocks: seq<Block>, broadcasted: map<string, Payload>) {
    forall i, r :: 1 <= i < |blocks| && r in blocks[i].receipts && r.transactionId in broadcasted ==>
      blocks[i - 1].header.timestamp < broadcasted[r.transactionId].expiresAt
  }

  ghost predicate CustodyPaid(cfg: Config, blocks: seq<Block>, broadcasted: map<string, Payload>) {
    forall i, t :: 0 <= i < |blocks| && t in blocks[i].transfers && FromCustody(cfg, t) ==> PaidByRequest(broadcasted, t)
  }

  ghost predicate OneCustodyTransfer(cfg: Config, block: Block) {
    forall i, j :: 0 <= i < j < |block.transfers| && FromCustody(cfg, block.transfers[i]) && FromCustody(cfg, block.transfers[j]) ==>
      block.transfers[i].id.transactionId != block.transfers[j].id.transactionId
  }

  ghost predicate CustodyOnce(cfg: Config, blocks: seq<Block>) {
    forall i :: 0 <= i < |blocks| ==> OneCustodyTransfer(cfg, blocks[i])
  }

  /** A signed transaction reached the chain only by being broadcast. */
  ghost predicate IncludedBroadcast(signer: Records, chain: Chain) {
    forall id :: id in signer ==> Absent(chain.blocks, signer[id].transaction.id) || signer[id].transaction.id in chain.broadcasted
  }

  ghost predicate ChainSound(cfg: Config, chain: Chain) {
    && ValidChain(chain) && chain.network == cfg.network
    && TimesRise(chain.blocks) && InTime(chain.blocks, chain.broadcasted)
    && CustodyPaid(cfg, chain.blocks, chain.broadcasted) && CustodyOnce(cfg, chain.blocks)
  }

  /** A node knows a transaction only if some row carries it and was claimed for broadcast. */
  ghost predicate SentBy(db: Db, tx: SignedTransaction, table: Table, id: string) {
    HasRow(db, table, id) && RowJob(db, table, id).transaction == Some(tx) && RowJob(db, table, id).broadcastAttempts > 0
  }

  ghost predicate BroadcastSound(db: Db, broadcasted: map<string, Payload>) {
    forall x :: x in broadcasted ==> exists table, id :: SentBy(db, SignedTransaction(x, broadcasted[x]), table, id)
  }

  /** The solidified prefix only grows, and nodes forget nothing. */
  ghost predicate ChainGrows(was: Chain, chain: Chain) {
    && was.network == chain.network
    && was.solidified <= chain.solidified && was.solidified < |was.blocks| && was.solidified < |chain.blocks|
    && chain.blocks[..was.solidified + 1] == was.blocks[..was.solidified + 1]
    && (forall x :: x in was.broadcasted ==> x in chain.broadcasted && chain.broadcasted[x] == was.broadcasted[x])
  }

  lemma ExecutedStays(was: Chain, chain: Chain, id: string, outcome: Outcome)
    requires ChainGrows(was, chain) && Executed(was, id, outcome)
    ensures Executed(chain, id, outcome)
  {
    var i :| 0 <= i <= was.solidified && i < |was.blocks| && Receipt(id, outcome) in was.blocks[i].receipts;
    assert chain.blocks[..was.solidified + 1][i] == was.blocks[..was.solidified + 1][i];
    assert chain.blocks[i] == was.blocks[i];
  }

  lemma PrefixStays(was: Chain, chain: Chain, n: nat)
    requires ChainGrows(was, chain) && n <= was.solidified + 1
    ensures n <= |chain.blocks| && n <= |was.blocks| && chain.blocks[..n] == was.blocks[..n]
  {
    assert chain.blocks[..n] == chain.blocks[..was.solidified + 1][..n];
    assert was.blocks[..n] == was.blocks[..was.solidified + 1][..n];
  }

  // ---------- claims and workers ----------

  ghost predicate ClaimSound(cfg: Config, db: Db, log: seq<Claim>, c: Claim) {
    && c in log && HasRow(db, c.table, c.id)
    && c.request == RowRequest(cfg, db, c.table, c.id)
    && 0 < c.epoch <= RowJob(db, c.table, c.id).epoch
    && (c.phase != SigningPhase ==>
          && c.transaction.Some? && RowJob(db, c.table, c.id).transaction == c.transaction
          && RowJob(db, c.table, c.id).broadcastAttempts > 0)
  }

  /** The transaction was not in the first blocks, up to one that is solidified. */
  ghost predicate UnseenBelow(chain: Chain, id: string, readAt: nat) {
    readAt <= chain.solidified && readAt < |chain.blocks| && Absent(chain.blocks[..readAt + 1], id)
  }

  predicate HasClaim(pc: Pc) {
    pc.SigningClaimed? || pc.SignerReturned? || pc.SignerErred? || pc.BroadcastClaimed? || pc.BroadcastDone? || pc.ConfirmClaimed?
    || pc.SawSucceeded? || pc.SawFailed? || pc.SawNotFound? || pc.SawExpired? || pc.Rebroadcasting? || pc.Releasing?
  }

  ghost predicate PcSound(cfg: Config, s: State, pc: Pc) {
    && (HasClaim(pc) ==> ClaimSound(cfg, s.db, s.log, pc.claim))
    && (pc.SignerReturned? ==> SignedFor(s.signer, pc.claim.request, pc.tx))
    && (pc.SawSucceeded? ==> pc.claim.transaction.Some? && Executed(s.chain, pc.claim.transaction.value.id, ExecutionSucceeded))
    && (pc.SawFailed? ==> pc.claim.transaction.Some? && Executed(s.chain, pc.claim.transaction.value.id, ExecutionFailed))
    && (pc.SawNotFound? ==> pc.claim.transaction.Some? && UnseenBelow(s.chain, pc.claim.transaction.value.id, pc.readAt))
  }

  ghost predicate ProcsSound(cfg: Config, s: State) {
    forall p :: p in s.procs ==> PcSound(cfg, s, s.procs[p].pc)
  }

  predicate LogGrows(was: seq<Claim>, log: seq<Claim>) {
    was <= log
  }

  predicate SameRow(a: Claim, b: Claim) {
    a.table == b.table && a.id == b.id
  }

  /** Later claims of a row carry larger epochs, and no epoch runs ahead of its row. */
  ghost predicate LogSound(db: Db, log: seq<Claim>) {
    && (forall i, j :: 0 <= i < j < |log| && SameRow(log[i], log[j]) ==> log[i].epoch < log[j].epoch)
    && (forall c :: c in log ==> HasRow(db, c.table, c.id) && 0 < c.epoch <= RowJob(db, c.table, c.id).epoch)
  }

  /** The claim that took the current lease of a row. */
  ghost predicate LeasedBy(db: Db, c: Claim) {
    && HasRow(db, c.table, c.id)
    && var job := RowJob(db, c.table, c.id);
       job.lease.Some? && job.lease.value.owner == c.worker && job.epoch == c.epoch && job.status == PhaseStatus(c.phase)
  }

  /** Every lease was taken by a logged claim. */
  ghost predicate LeasesLogged(db: Db, log: seq<Claim>) {
    forall table, id :: HasRow(db, table, id) && RowJob(db, table, id).lease.Some? ==>
      exists c :: c in log && c.table == table && c.id == id && LeasedBy(db, c)
  }

  /** A succeeded row's transaction was executed on the solidified chain. */
  ghost predicate SuccessSound(db: Db, chain: Chain) {
    forall table, id :: HasRow(db, table, id) && RowJob(db, table, id).status == Succeeded ==>
      RowJob(db, table, id).transaction.Some? && Executed(chain, RowJob(db, table, id).transaction.value.id, ExecutionSucceeded)
  }

  ghost predicate ProtocolInv(cfg: Config, s: State) {
    && Shaped(s.db)
    && SignerSound(s.signer) && RowsSigned(cfg, s.db, s.signer)
    && ChainSound(cfg, s.chain) && IncludedBroadcast(s.signer, s.chain) && BroadcastSound(s.db, s.chain.broadcasted)
    && ProcsSound(cfg, s) && LogSound(s.db, s.log) && LeasesLogged(s.db, s.log) && SuccessSound(s.db, s.chain)
  }

  // ---------- progress leaves others alone ----------

  ghost predicate Progress(cfg: Config, s: State, t: State) {
    RowsAdvance(cfg, s.db, t.db) && SignerGrows(s.signer, t.signer) && ChainGrows(s.chain, t.chain) && LogGrows(s.log, t.log)
  }

  lemma ClaimStays(cfg: Config, s: State, t: State, c: Claim)
    requires RowsAdvance(cfg, s.db, t.db) && LogGrows(s.log, t.log) && ClaimSound(cfg, s.db, s.log, c)
    ensures ClaimSound(cfg, t.db, t.log, c)
  {
  }

  lemma PcStays(cfg: Config, s: State, t: State, pc: Pc)
    requires Progress(cfg, s, t) && PcSound(cfg, s, pc)
    ensures PcSound(cfg, t, pc)
  {
    hide RowsAdvance, ClaimSound, Executed, ChainGrows;
    if HasClaim(pc) {
      ClaimStays(cfg, s, t, pc.claim);
    }
    if pc.SawSucceeded? {
      ExecutedStays(s.chain, t.chain, pc.claim.transaction.value.id, ExecutionSucceeded);
    }
    if pc.SawFailed? {
      ExecutedStays(s.chain, t.chain, pc.claim.transaction.value.id, ExecutionFailed);
    }
    if pc.SawNotFound? {
      UnseenStays(s.chain, t.chain, pc.claim.transaction.value.id, pc.readAt);
    }
  }

  lemma UnseenStays(was: Chain, chain: Chain, id: string, readAt: nat)
    requires ChainGrows(was, chain) && UnseenBelow(was, id, readAt)
    ensures UnseenBelow(chain, id, readAt)
  {
    PrefixStays(was, chain, readAt + 1);
  }
}
