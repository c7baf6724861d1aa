// What one call of a scanner or a snapshot capture does in any run, told on the columns and on the block.
module ScanStatements {
  import opened Prelude
  import opened Sums
  import opened Chain
  import opened Lease
  import opened Ledger
  import opened Tables
  import opened Gateway
  import opened StoreProofs
  import opened IndexProofs
  import opened Protocol
  import opened Invariants
  import opened Theorems
  import opened Frames
  import opened RowSteps
  import opened Leases
  import LedgerProofs
  import SweepProofs
  import Indexer
  import Wallets

  ghost predicate ScanAt(cfg: Config, states: seq<State>, actions: seq<Action>, k: nat, p: string, x: ScanAction) {
    Run(cfg, states, actions) && k < |actions| && actions[k] == Scan(p, x)
  }

  ghost predicate CaptureAt(cfg: Config, states: seq<State>, actions: seq<Action>, k: nat, p: string, x: CaptureAction) {
    Run(cfg, states, actions) && k < |actions| && actions[k] == Capture(p, x)
  }

  lemma Scanned(cfg: Config, states: seq<State>, actions: seq<Action>, k: nat, p: string, x: ScanAction)
    requires ScanAt(cfg, states, actions, k, p, x)
    ensures p in states[k].procs && p in states[k + 1].procs
    ensures ScanNext(states[k].db, states[k].chain, states[k].procs[p], x, states[k + 1].db, states[k + 1].procs[p].pc)
  {
    hide ScanNext, Initial;
    assert Linked(cfg, states, actions, k);
  }

  lemma Captured(cfg: Config, states: seq<State>, actions: seq<Action>, k: nat, p: string, x: CaptureAction)
    requires CaptureAt(cfg, states, actions, k, p, x)
    ensures p in states[k].procs && p in states[k + 1].procs
    ensures CaptureNext(cfg, states[k].db, states[k].chain, states[k].procs[p].pc, x, states[k + 1].db, states[k + 1].procs[p].pc)
  {
    hide CaptureNext, Initial;
    assert Linked(cfg, states, actions, k);
  }

  // ---------- the cursor ----------

  /** Binding: only an unbound cursor at its start takes the contract; the scanner goes on exactly when the cursor is its contract's. */
  lemma BindStatement(cfg: Config, states: seq<State>, actions: seq<Action>, k: nat, p: string, contract: string)
    requires ScanAt(cfg, states, actions, k, p, ScanBind(contract))
    ensures p in states[k + 1].procs
    ensures
      var was, db := states[k].db, states[k + 1].db;
      var bound := if was.cursor.tracked.None? && was.cursor.next == was.cursor.start then Some(contract) else was.cursor.tracked;
      && db == was.(cursor := was.cursor.(tracked := bound))
      && states[k + 1].procs[p].pc == if bound == Some(contract) then ScanBound(contract) else Idle
  {
    Scanned(cfg, states, actions, k, p, ScanBind(contract));
  }

  /** The cursor is given out exactly when nobody holds a live lease on it, until now + duration, under the next epoch and at its position. */
  lemma CursorClaimStatement(cfg: Config, states: seq<State>, actions: seq<Action>, k: nat, p: string, duration: nat)
    requires ScanAt(cfg, states, actions, k, p, ScanClaimCursor(duration))
    ensures p in states[k].procs && states[k].procs[p].pc.ScanBound? && p in states[k + 1].procs
    ensures
      var was, db, worker := states[k].db, states[k + 1].db, states[k].procs[p].worker;
      var c := was.cursor;
      if c.lease.Some? && was.now < c.lease.value.until
      then db == was && states[k + 1].procs[p].pc == Idle
      else && db == was.(cursor := c.(lease := Some(Holder(worker, was.now + duration)), epoch := c.epoch + 1))
           && states[k + 1].procs[p].pc == ScanClaimed(Indexer.ScanClaim(worker, c.epoch + 1, c.next, c.previous), states[k].procs[p].pc.contract)
  {
    Scanned(cfg, states, actions, k, p, ScanClaimCursor(duration));
  }

  lemma ScanHeadStatement(cfg: Config, states: seq<State>, actions: seq<Action>, k: nat, p: string, reachable: bool)
    requires ScanAt(cfg, states, actions, k, p, ScanReadHead(reachable))
    ensures p in states[k].procs && states[k].procs[p].pc.ScanClaimed? && p in states[k + 1].procs && states[k + 1].db == states[k].db
    ensures states[k].chain.solidified < |states[k].chain.blocks|
    ensures
      var pc, head := states[k].procs[p].pc, states[k].chain.blocks[states[k].chain.solidified].header;
      states[k + 1].procs[p].pc == if reachable && pc.scan.next <= head.height then ScanHeaded(pc.scan, pc.contract, head) else ScanReleasing(pc.scan)
  {
    Scanned(cfg, states, actions, k, p, ScanReadHead(reachable));
  }

  /** The evidence a block must carry for the claim: its place, its links, unambiguous receipts, and well-formed target transfers. */
  predicate Acceptable(network: string, contract: string, scan: Indexer.ScanClaim, head: Header, b: Block) {
    && b.header.height == scan.next && b.header.hash != "" && b.header.timestamp != 0
    && b.header.parentHash == scan.previous && b.header.hash != scan.previous
    && (b.header.height == head.height ==> b.header.hash == head.hash)
    && (forall j :: 0 <= j < |b.receipts| ==> b.receipts[j].transactionId != "" && b.receipts[j].outcome in {ExecutionSucceeded, ExecutionFailed})
    && (forall i, j :: 0 <= i < j < |b.receipts| ==> b.receipts[i].transactionId != b.receipts[j].transactionId)
    && (forall j :: 0 <= j < |b.transfers| && b.transfers[j].id.contract == contract ==>
          var t := b.transfers[j];
          && t.id.network == network && contract != "" && t.id.transactionId != "" && t.sender != "" && t.recipient != ""
          && 0 < t.amount < TWO_256 && Receipt(t.id.transactionId, ExecutionSucceeded) in b.receipts)
    && (forall i, j :: 0 <= i < j < |b.transfers| && b.transfers[i].id.contract == contract && b.transfers[j].id.contract == contract ==>
          b.transfers[i].id != b.transfers[j].id)
  }

  /** The next solidified block is kept exactly when it is acceptable; otherwise the lease is to be released. */
  lemma ScanBlockStatement(cfg: Config, states: seq<State>, actions: seq<Action>, k: nat, p: string, reachable: bool)
    requires ScanAt(cfg, states, actions, k, p, ScanReadBlock(reachable))
    ensures p in states[k].procs && states[k].procs[p].pc.ScanHeaded? && p in states[k + 1].procs && states[k + 1].db == states[k].db
    ensures states[k].chain.solidified < |states[k].chain.blocks|
    ensures
      var pc, chain := states[k].procs[p].pc, states[k].chain;
      states[k + 1].procs[p].pc ==
        if reachable && pc.scan.next <= chain.solidified && Acceptable(chain.network, pc.contract, pc.scan, pc.head, chain.blocks[pc.scan.next])
        then ScanFetched(pc.scan, pc.contract, chain.blocks[pc.scan.next]) else ScanReleasing(pc.scan)
  {
    hide Acceptable, Indexer.BlockContinues, Indexer.EventsValid, Initial;
    Scanned(cfg, states, actions, k, p, ScanReadBlock(reachable));
    var pc, chain := states[k].procs[p].pc, states[k].chain;
    if pc.scan.next <= chain.solidified {
      AcceptableExactly(chain.network, pc.contract, pc.scan, pc.head, chain.blocks[pc.scan.next]);
    }
  }

  lemma AcceptableExactly(network: string, contract: string, scan: Indexer.ScanClaim, head: Header, b: Block)
    ensures Acceptable(network, contract, scan, head, b) <==> Indexer.BlockContinues(scan, head, b) && Indexer.EventsValid(network, contract, b)
  {
  }

  /** The row of a transfer in its block. */
  function StoredRow(b: Block, t: Transfer): EventRow {
    EventRow(b.header.height, b.header.hash, b.header.timestamp, t.sender, t.recipient, t.amount)
  }

  /**
   * A fetched block is committed exactly while the claim's lease on the cursor is live and the cursor
   * still stands where it was claimed: its target transfers are added, and the cursor moves past it.
   */
  lemma CommitStatement(cfg: Config, states: seq<State>, actions: seq<Action>, k: nat, p: string)
    requires ScanAt(cfg, states, actions, k, p, ScanCommit)
    ensures p in states[k].procs && states[k].procs[p].pc.ScanFetched? && p in states[k + 1].procs
    ensures
      var was, db, pc := states[k].db, states[k + 1].db, states[k].procs[p].pc;
      var c := was.cursor;
      if c.lease.Some? && c.lease.value.owner == pc.scan.worker && c.epoch == pc.scan.epoch && was.now < c.lease.value.until
         && c.next == pc.scan.next && c.previous == pc.scan.previous
      then && states[k + 1].procs[p].pc == Idle
           && db == was.(events := db.events, cursor := c.(next := c.next + 1, previous := pc.block.header.hash, lease := None))
           && (forall key :: key in was.events ==> key in db.events && db.events[key] == was.events[key])
           && (forall key :: key in db.events && key !in was.events ==>
                 exists j :: 0 <= j < |pc.block.transfers| && pc.block.transfers[j].id == key && key.contract == pc.contract
                   && db.events[key] == StoredRow(pc.block, pc.block.transfers[j]))
           && (forall j :: 0 <= j < |pc.block.transfers| && pc.block.transfers[j].id.contract == pc.contract ==>
                 pc.block.transfers[j].id in db.events && db.events[pc.block.transfers[j].id] == StoredRow(pc.block, pc.block.transfers[j]))
      else db == was && states[k + 1].procs[p].pc == ScanReleasing(pc.scan)
  {
    hide Initial, Inv, ProtocolInv, StoreInv, LedgerProofs.LedgerInv, Indexer.EventsOf, Indexer.EventsValid, ValidBlocks;
    Scanned(cfg, states, actions, k, p, ScanCommit);
    var was, pc := states[k].db, states[k].procs[p].pc;
    RunParts(cfg, states, actions, k);
    FetchedTargets(cfg, states[k], p);
    EventsOfExact(pc.contract, pc.block.header, pc.block.transfers);
    if was.cursor.next == pc.scan.next {
      ScannerNeverConflicts(cfg, states, actions, k, p);
    }
    var added := Indexer.BlockEvents(pc.contract, pc.block);
    forall key | key in added
      ensures exists j :: 0 <= j < |pc.block.transfers| && pc.block.transfers[j].id == key && key.contract == pc.contract
                && added[key] == StoredRow(pc.block, pc.block.transfers[j])
    {
      assert HasTarget(pc.block.transfers, pc.contract, key);
    }
  }

  lemma FetchedTargets(cfg: Config, s: State, p: string)
    requires Inv(cfg, s) && p in s.procs && s.procs[p].pc.ScanFetched?
    ensures TargetsDistinct(s.procs[p].pc.contract, s.procs[p].pc.block.transfers)
  {
    hide ProtocolInv, StoreInv, SweepProofs.SweepInv, Indexer.EventsValid, ValidBlocks;
    ProtocolParts(cfg, s);
    assert ScanSound(s.db, s.chain, s.procs[p].pc);
    ValidTargets(s.chain.network, s.procs[p].pc.contract, s.procs[p].pc.block);
  }

  /** A scanner that gives up ends its own lease, run out or not, and nobody else's. */
  lemma ScanReleaseStatement(cfg: Config, states: seq<State>, actions: seq<Action>, k: nat, p: string)
    requires ScanAt(cfg, states, actions, k, p, ScanRelease)
    ensures p in states[k].procs && states[k].procs[p].pc.ScanReleasing? && p in states[k + 1].procs && states[k + 1].procs[p].pc == Idle
    ensures
      var was, scan := states[k].db, states[k].procs[p].pc.scan;
      var c := was.cursor;
      states[k + 1].db ==
        if c.lease.Some? && c.lease.value.owner == scan.worker && c.epoch == scan.epoch then was.(cursor := c.(lease := None)) else was
  {
    Scanned(cfg, states, actions, k, p, ScanRelease);
  }

  // ---------- the cursor's lease in time ----------

  /** The step takes the cursor out of its lease. */
  predicate CursorGivenBack(s: State, t: State) {
    s.db.cursor.lease.Some? && t.db.cursor.lease.None?
  }

  lemma ScanLease(db: Db, chain: Chain, proc: Proc, x: ScanAction, next: Db, reached: Pc)
    requires ScanNext(db, chain, proc, x, next, reached) && db.cursor.lease.Some?
    ensures next.cursor.lease == db.cursor.lease || next.cursor.lease.None? || db.cursor.lease.value.until <= db.now
  {
    hide Indexer.EventsValid, Indexer.BlockContinues, Indexer.NoConflict, Indexer.BlockEvents, Indexer.Advances;
  }

  lemma CursorLeaseStep(cfg: Config, s: State, a: Action, t: State)
    requires LedgerProofs.LedgerInv(s.db) && PhasesAgree(s.procs) && Next(cfg, s, a, t) && s.db.cursor.lease.Some?
    ensures t.db.cursor.lease == s.db.cursor.lease || CursorGivenBack(s, t) || s.db.cursor.lease.value.until <= s.db.now
  {
    hide LedgerProofs.LedgerInv, PhasesAgree, StoreNext, ChainNext, WorkNext, ScanNext, CaptureNext;
    match a
    case Scan(p, x) => ScanLease(s.db, s.chain, s.procs[p], x, t.db, t.procs[p].pc);
    case Store(x) => StoreFrame(cfg, s.db, x, t.db);
    case Work(p, x) => WorkFrame(cfg, s, p, x, t);
    case Capture(p, x) => CaptureTables(cfg, s.db, s.chain, s.procs[p].pc, x, t.db, t.procs[p].pc);
    case _ =>
  }

  lemma {:induction false} CursorLeaseKept(cfg: Config, states: seq<State>, actions: seq<Action>, j: nat, k: nat, holder: Holder)
    requires Run(cfg, states, actions) && j <= k < |states| && states[j].db.cursor.lease == Some(holder)
    requires forall m :: j <= m < k ==> !CursorGivenBack(states[m], states[m + 1])
    ensures states[k].db.cursor.lease == Some(holder) || holder.until <= states[k].db.now
    decreases k - j
  {
    hide Next, Initial, Inv, ProtocolInv, StoreInv;
    if j < k {
      CursorLeaseKept(cfg, states, actions, j, k - 1, holder);
      RunParts(cfg, states, actions, k - 1);
      assert Linked(cfg, states, actions, k - 1);
      ClockRuns(cfg, states, actions, k - 1, k);
      if states[k - 1].db.cursor.lease == Some(holder) {
        CursorLeaseStep(cfg, states[k - 1], actions[k - 1], states[k]);
      }
    }
  }

  /** Between two granted claims of the cursor the first one's time has passed, or its lease was given back. */
  lemma CursorExclusive(cfg: Config, states: seq<State>, actions: seq<Action>, j: nat, k: nat, p: string, q: string, duration: nat, later: nat)
    requires j < k && ScanAt(cfg, states, actions, j, p, ScanClaimCursor(duration)) && ScanAt(cfg, states, actions, k, q, ScanClaimCursor(later))
    requires p in states[j + 1].procs && states[j + 1].procs[p].pc.ScanClaimed? && q in states[k + 1].procs && states[k + 1].procs[q].pc.ScanClaimed?
    ensures states[j].db.now + duration <= states[k].db.now || exists m :: j < m < k && CursorGivenBack(states[m], states[m + 1])
  {
    hide Initial, Linked;
    CursorClaimStatement(cfg, states, actions, j, p, duration);
    CursorClaimStatement(cfg, states, actions, k, q, later);
    if forall m :: j < m < k ==> !CursorGivenBack(states[m], states[m + 1]) {
      CursorLeaseKept(cfg, states, actions, j + 1, k, Holder(states[j].procs[p].worker, states[j].db.now + duration));
    }
  }

  // ---------- a snapshot capture ----------

  /** Confirming, or claimed for broadcast at least once: the chain may already have paid it. */
  predicate MayBePaid(job: Job) {
    job.status == Confirming || (job.status == ReadyForBroadcast && job.broadcastAttempts >= 1)
  }

  ghost function PayoutsOut(asset: string, counting: bool): (string, Payout) -> int {
    (id: string, p: Payout) => if p.asset == asset && MayBePaid(p.job) then if counting then 1 else p.amount else 0
  }

  ghost function SweepsOut(asset: string, counting: bool): (string, Sweep) -> int {
    (id: string, s: Sweep) => if s.asset == asset && MayBePaid(s.job) then if counting then 1 else s.amount else 0
  }

  /** The asset's checkpoint, column by column; it exists when its custody account is open and every column reads as an amount. */
  ghost predicate Reads(db: Db, asset: string, c: Checkpoint) {
    && Custody(asset) in db.accounts && db.accounts[Custody(asset)] in {Active, Locked}
    && c.balance == Balance(db.journals, Custody(asset)) && 0 <= c.balance < TWO_256
    && c.entryCount == EntryCount(db.journals, Custody(asset)) && 0 <= c.entryCount
    && c.payoutCount == MapSum(db.payouts, PayoutsOut(asset, true)) && c.payoutAmount == MapSum(db.payouts, PayoutsOut(asset, false))
    && c.sweepCount == MapSum(db.sweeps, SweepsOut(asset, true)) && c.sweepAmount == MapSum(db.sweeps, SweepsOut(asset, false))
    && 0 <= c.payoutCount && 0 <= c.payoutAmount < TWO_256 && (c.payoutCount == 0 <==> c.payoutAmount == 0)
    && 0 <= c.sweepCount && 0 <= c.sweepAmount < TWO_256 && (c.sweepCount == 0 <==> c.sweepAmount == 0)
  }

  lemma ReadsExact(db: Db, asset: string, c: Checkpoint)
    ensures Reads(db, asset, c) <==> CheckpointAvailable(db, asset) && c == Wallets.ReadCheckpoint(db, asset)
  {
    hide Balance, EntryCount;
    MapSumCongr(db.payouts, Wallets.PayoutInFlightRow(asset), PayoutsOut(asset, true));
    MapSumCongr(db.payouts, Wallets.PayoutInFlight(asset), PayoutsOut(asset, false));
    MapSumCongr(db.sweeps, Wallets.SweepInFlightRow(asset), SweepsOut(asset, true));
    MapSumCongr(db.sweeps, Wallets.SweepInFlight(asset), SweepsOut(asset, false));
  }

  lemma CaptureBeginStatement(cfg: Config, states: seq<State>, actions: seq<Action>, k: nat, p: string, asset: string)
    requires CaptureAt(cfg, states, actions, k, p, CaptureBefore(asset))
    ensures p in states[k + 1].procs && states[k + 1].db == states[k].db
    ensures forall c :: Reads(states[k].db, asset, c) ==> states[k + 1].procs[p].pc == CaptureBegun(asset, c)
    ensures (forall c :: !Reads(states[k].db, asset, c)) ==> states[k + 1].procs[p].pc == Idle
  {
    hide Initial, Reads, CheckpointAvailable, Wallets.ReadCheckpoint;
    Captured(cfg, states, actions, k, p, CaptureBefore(asset));
    forall c ensures Reads(states[k].db, asset, c) <==> CheckpointAvailable(states[k].db, asset) && c == Wallets.ReadCheckpoint(states[k].db, asset) {
      ReadsExact(states[k].db, asset, c);
    }
    var read := Wallets.ReadCheckpoint(states[k].db, asset);
    assert Reads(states[k].db, asset, read) || !CheckpointAvailable(states[k].db, asset);
  }

  function Itself(): int -> int {
    (x: int) => x
  }

  lemma {:induction false} TotalIsSum(balances: seq<int>)
    ensures Wallets.Total(balances) == SeqSum(balances, Itself())
  {
    if balances != [] {
      TotalIsSum(balances[..|balances| - 1]);
    }
  }

  /** The balances are read wallet by wallet on the solidified chain, each and their total below 2^256. */
  lemma BalanceStatement(cfg: Config, states: seq<State>, actions: seq<Action>, k: nat, p: string)
    requires CaptureAt(cfg, states, actions, k, p, CaptureBalance)
    ensures p in states[k].procs && states[k].procs[p].pc.CaptureReading? && p in states[k + 1].procs && states[k + 1].db == states[k].db
    ensures
      var pc, chain := states[k].procs[p].pc, states[k].chain;
      && chain.solidified < |chain.blocks| && pc.asset in cfg.wallets && |pc.balances| < |cfg.wallets[pc.asset]|
      && var amount := TokenBalance(chain.blocks[..chain.solidified + 1], pc.asset, cfg.wallets[pc.asset][|pc.balances|]);
         var total := SeqSum(pc.balances + [amount], Itself());
         states[k + 1].procs[p].pc ==
           if 0 <= amount < TWO_256 && 0 <= total < TWO_256 then CaptureReading(pc.asset, pc.before, pc.head, pc.balances + [amount]) else Idle
  {
    hide Initial, TokenBalance;
    Captured(cfg, states, actions, k, p, CaptureBalance);
    var pc, chain := states[k].procs[p].pc, states[k].chain;
    TotalIsSum(pc.balances + [TokenBalance(chain.blocks[..chain.solidified + 1], pc.asset, cfg.wallets[pc.asset][|pc.balances|])]);
  }

  /** The head is read before the first balance and must be the same after the last one. */
  lemma HeadsStatement(cfg: Config, states: seq<State>, actions: seq<Action>, k: nat, p: string)
    requires Run(cfg, states, actions) && k < |actions| && (actions[k] == Capture(p, CaptureStartHead) || actions[k] == Capture(p, CaptureEndHead))
    ensures p in states[k].procs && p in states[k + 1].procs && states[k + 1].db == states[k].db && states[k].chain.solidified < |states[k].chain.blocks|
    ensures
      var pc, head := states[k].procs[p].pc, states[k].chain.blocks[states[k].chain.solidified].header;
      if actions[k] == Capture(p, CaptureStartHead) then pc.CaptureBegun? && states[k + 1].procs[p].pc == CaptureReading(pc.asset, pc.before, head, [])
      else && pc.CaptureReading? && pc.asset in cfg.wallets && |pc.balances| == |cfg.wallets[pc.asset]|
           && states[k + 1].procs[p].pc == if head == pc.head then CaptureRead(pc.asset, pc.before, pc.head, pc.balances) else Idle
  {
    hide Initial;
    Captured(cfg, states, actions, k, p, actions[k].capture);
  }

  /** A capture ends with a snapshot exactly when the checkpoint reads as before; it is saved exactly when it reads so once more. */
  lemma SnapshotStatement(cfg: Config, states: seq<State>, actions: seq<Action>, k: nat, p: string)
    requires CaptureAt(cfg, states, actions, k, p, CaptureAfter)
    ensures p in states[k].procs && states[k].procs[p].pc.CaptureRead? && p in states[k + 1].procs && states[k + 1].db == states[k].db
    ensures
      var pc := states[k].procs[p].pc;
      states[k + 1].procs[p].pc ==
        if Reads(states[k].db, pc.asset, pc.before) then CaptureDone(Snapshot(pc.asset, pc.head, pc.balances, SeqSum(pc.balances, Itself()), pc.before)) else Idle
  {
    hide Initial, Reads, CheckpointAvailable, Wallets.ReadCheckpoint;
    Captured(cfg, states, actions, k, p, CaptureAfter);
    ReadsExact(states[k].db, states[k].procs[p].pc.asset, states[k].procs[p].pc.before);
    TotalIsSum(states[k].procs[p].pc.balances);
  }

  lemma SaveStatement(cfg: Config, states: seq<State>, actions: seq<Action>, k: nat, p: string)
    requires CaptureAt(cfg, states, actions, k, p, CaptureSave)
    ensures p in states[k].procs && states[k].procs[p].pc.CaptureDone? && p in states[k + 1].procs && states[k + 1].procs[p].pc == Idle
    ensures
      var snapshot := states[k].procs[p].pc.snapshot;
      states[k + 1].db ==
        if Reads(states[k].db, snapshot.asset, snapshot.ledger) then states[k].db.(snapshots := states[k].db.snapshots + [snapshot]) else states[k].db
  {
    hide Initial, Reads, CheckpointAvailable, Wallets.ReadCheckpoint;
    Captured(cfg, states, actions, k, p, CaptureSave);
    ReadsExact(states[k].db, states[k].procs[p].pc.snapshot.asset, states[k].procs[p].pc.snapshot.ledger);
  }
}
