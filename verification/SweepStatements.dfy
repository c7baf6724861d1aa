// When a sweep is planned in any run, told on the snapshot, the indexed events and the earlier sweeps.
module SweepStatements {
  import opened Prelude
  import opened Sums
  import opened Chain
  import opened Lease
  import opened Tables
  import opened Sweeps
  import opened Gateway
  import opened RowProofs
  import opened RowSteps
  import opened Invariants
  import opened IndexProofs
  import LedgerProofs

  /** The wallet at this position of the asset's wallets held the balance in the run. */
  predicate Showed(cfg: Config, run: Snapshot, wallet: nat, source: string, balance: int) {
    && run.asset in cfg.wallets && |run.balances| == |cfg.wallets[run.asset]| && wallet < |run.balances|
    && cfg.wallets[run.asset][wallet] == source && run.balances[wallet] == balance
  }

  /** The event was paid to the source, in a block the snapshot covers. */
  predicate CameIn(db: Db, run: Snapshot, source: string, key: EventId) {
    key in db.events && key.contract == run.asset && db.events[key].recipient == source && db.events[key].height <= run.head.height
  }

  /** The earlier sweeps from the same source neither wait, nor fly, nor used this run. */
  predicate SourceIdle(db: Db, run: Snapshot, runIndex: nat, source: string) {
    forall id :: id in db.sweeps && db.sweeps[id].asset == run.asset && db.sweeps[id].source == source ==>
      db.sweeps[id].job.status in {PendingReview, Rejected, Succeeded, Failed} && db.sweeps[id].runIndex != runIndex
  }

  ghost function CameInAmount(run: Snapshot, source: string): (EventId, EventRow) -> int {
    (key: EventId, e: EventRow) =>
      if key.contract == run.asset && e.recipient == source && e.height <= run.head.height then e.amount else 0
  }

  ghost function SweptAmount(run: Snapshot, source: string): (string, Sweep) -> int {
    (id: string, s: Sweep) => if s.asset == run.asset && s.source == source && s.job.status == Succeeded then s.amount else 0
  }

  /** All that must hold before the source's balance may be moved. */
  ghost predicate MayMove(cfg: Config, db: Db, x: PlanInput, run: Snapshot) {
    && (exists wallet :: Showed(cfg, run, wallet, x.source, x.balance))
    && (run.asset, x.source) in cfg.depositMerchant && cfg.hot in cfg.wallets[run.asset]
    && db.cursor.tracked == Some(run.asset) && run.head.height < db.cursor.next
    && 0 < x.minimum && x.minimum <= x.balance && (x.maximum == None || x.balance <= x.maximum.value)
    && SourceIdle(db, run, x.runIndex, x.source)
    && (exists key :: CameIn(db, run, x.source, key))
    && (forall key :: CameIn(db, run, x.source, key) ==>
          key in db.matches && db.matches[key].review == None && db.matches[key].address == x.source
          && db.matches[key].amount == db.events[key].amount)
    && x.balance + MapSum(db.sweeps, SweptAmount(run, x.source)) == MapSum(db.events, CameInAmount(run, x.source))
  }

  /** A plan is written exactly when all of it holds: the whole balance, to the hot wallet, approved. */
  lemma PlanStatement(cfg: Config, states: seq<State>, actions: seq<Action>, k: nat, x: PlanInput)
    requires Run(cfg, states, actions) && k < |actions| && actions[k] == Store(PlanSweep(x))
    ensures
      var was, db := states[k].db, states[k + 1].db;
      if x.allowed && x.id != "" && x.id !in was.sweeps && x.runIndex < |was.snapshots| && MayMove(cfg, was, x, was.snapshots[x.runIndex])
      then db == was.(sweeps := was.sweeps[x.id :=
                        Sweep(x.source, cfg.hot, was.snapshots[x.runIndex].asset, x.balance, x.runIndex,
                              Job(Approved, None, 0, 0, 0, 0, None, None, 0, "", ""))])
      else db == was
  {
    hide Initial, MayMove, Candidate;
    assert Linked(cfg, states, actions, k);
    if x.runIndex < |states[k].db.snapshots| {
      SameCandidate(cfg, states[k].db, x);
    }
  }

  lemma SameCandidate(cfg: Config, db: Db, x: PlanInput)
    requires x.runIndex < |db.snapshots|
    ensures Candidate(cfg, db, x) <==> MayMove(cfg, db, x, db.snapshots[x.runIndex])
  {
    var run := db.snapshots[x.runIndex];
    var asset, height := run.asset, run.head.height;
    assert SnapshotShows(cfg, run, x.source, x.balance) <==> exists wallet :: Showed(cfg, run, wallet, x.source, x.balance) by {
      if SnapshotShows(cfg, run, x.source, x.balance) {
        var i :| 0 <= i < |run.balances| && cfg.wallets[asset][i] == x.source && run.balances[i] == x.balance;
        assert Showed(cfg, run, i, x.source, x.balance);
      }
    }
    assert (exists key :: key in db.events && key.contract == asset && db.events[key].recipient == x.source && db.events[key].height <= height)
      <==> exists key :: CameIn(db, run, x.source, key) by {
      if key :| key in db.events && key.contract == asset && db.events[key].recipient == x.source && db.events[key].height <= height {
        assert CameIn(db, run, x.source, key);
      }
    }
    SameMatched(db, run, x.source);
    MapSumCongr(db.events, InboundUpTo(run.asset, x.source, run.head.height), CameInAmount(run, x.source));
    MapSumCongr(db.sweeps, SucceededFrom(run.asset, x.source), SweptAmount(run, x.source));
  }

  lemma SameMatched(db: Db, run: Snapshot, source: string)
    ensures InboundMatched(db, run.asset, source, run.head.height) <==> (forall key :: CameIn(db, run, source, key) ==>
              key in db.matches && db.matches[key].review == None && db.matches[key].address == source
              && db.matches[key].amount == db.events[key].amount)
  {
    if InboundMatched(db, run.asset, source, run.head.height) {
      forall key | CameIn(db, run, source, key)
        ensures key in db.matches && db.matches[key].review == None && db.matches[key].address == source && db.matches[key].amount == db.events[key].amount
      {
      }
    } else {
      var key :| key in db.events && key.contract == run.asset && db.events[key].recipient == source && db.events[key].height <= run.head.height
        && !(key in db.matches && db.matches[key].review.None? && db.matches[key].address == source && db.matches[key].amount == db.events[key].amount);
      assert CameIn(db, run, source, key);
    }
  }

  /** A new sweep in any run was planned for a whole wallet balance within the policy's bounds, fully matched and not yet swept. */
  lemma PlannedWithinPolicy(cfg: Config, states: seq<State>, actions: seq<Action>, k: nat, id: string)
    requires Run(cfg, states, actions) && k < |actions| && id !in states[k].db.sweeps && id in states[k + 1].db.sweeps
    ensures actions[k].Store? && actions[k].store.PlanSweep?
    ensures
      var was, sweep, x := states[k].db, states[k + 1].db.sweeps[id], actions[k].store.plan;
      && x.allowed && id == x.id && sweep.runIndex < |was.snapshots|
      && sweep.source == x.source && sweep.destination == cfg.hot && sweep.asset == was.snapshots[sweep.runIndex].asset
      && 0 < x.minimum <= sweep.amount && (x.maximum.Some? ==> sweep.amount <= x.maximum.value)
      && MayMove(cfg, was, x, was.snapshots[sweep.runIndex]) && sweep.amount == x.balance
  {
    hide Initial, MayMove, Inv;
    assert Linked(cfg, states, actions, k);
    InvRun(cfg, states, actions, k);
    OnlyPlanning(cfg, states[k], actions[k], states[k + 1], id);
    PlanStatement(cfg, states, actions, k, actions[k].store.plan);
    PolicyBounds(cfg, states[k].db, actions[k].store.plan);
  }

  lemma PolicyBounds(cfg: Config, db: Db, x: PlanInput)
    requires x.runIndex < |db.snapshots|
    ensures MayMove(cfg, db, x, db.snapshots[x.runIndex]) ==> 0 < x.minimum <= x.balance && (x.maximum.Some? ==> x.balance <= x.maximum.value)
  {
  }

  lemma OnlyPlanning(cfg: Config, s: State, a: Action, t: State, id: string)
    requires Inv(cfg, s) && Next(cfg, s, a, t) && id !in s.db.sweeps && id in t.db.sweeps
    ensures a.Store? && a.store.PlanSweep?
  {
    hide Inv, StoreNext, WorkNext, ScanNext, CaptureNext, ChainNext, Justified, PayoutsChanged;
    match a
    case Store(x) =>
      if !x.PlanSweep? {
        SweepRowsSame(cfg, s.db, x, t.db);
      }
    case Work(p, x) =>
      WorkerParts(cfg, s);
      var change := WorkRows(cfg, s, p, x, t);
    case Scan(p, x) => ScanRowsStay(s.db, s.chain, s.procs[p], x, t.db, t.procs[p].pc);
    case Capture(p, x) => CaptureTables(cfg, s.db, s.chain, s.procs[p].pc, x, t.db, t.procs[p].pc);
    case _ =>
  }

  lemma WorkerParts(cfg: Config, s: State)
    requires Inv(cfg, s)
    ensures PhasesAgree(s.procs) && LedgerProofs.LedgerInv(s.db)
  {
  }
}
