// Sweep planning: the evidence a source wallet must show before its balance may be moved.
module Sweeps {
  import opened Prelude
  import opened Sums
  import opened Chain
  import opened Lease
  import opened Tables

  predicate ActiveSweep(status: Status) {
    status == Approved || status == ReadyForBroadcast || status == Confirming
  }

  /** Amount of an indexed transfer to the source at or below a height. */
  function InboundUpTo(asset: string, source: string, height: nat): (EventId, EventRow) -> int {
    (key: EventId, e: EventRow) =>
      if key.contract == asset && e.recipient == source && e.height <= height then e.amount else 0
  }

  function SucceededFrom(asset: string, source: string): (string, Sweep) -> int {
    (id: string, s: Sweep) => if s.asset == asset && s.source == source && s.job.status == Succeeded then s.amount else 0
  }

  /** Every inbound event up to the height was matched in full to this source's own address. */
  predicate InboundMatched(db: Db, asset: string, source: string, height: nat) {
    forall key :: key in db.events && key.contract == asset && db.events[key].recipient == source && db.events[key].height <= height ==>
      key in db.matches && db.matches[key].review.None? && db.matches[key].address == source
      && db.matches[key].amount == db.events[key].amount
  }

  /** The snapshot balance of one wallet of the asset. */
  predicate SnapshotShows(cfg: Config, run: Snapshot, source: string, balance: int) {
    run.asset in cfg.wallets && |run.balances| == |cfg.wallets[run.asset]|
    && exists i :: 0 <= i < |run.balances| && cfg.wallets[run.asset][i] == source && run.balances[i] == balance
  }

  /** The chosen run and source, the policy bounds, and whether asset status and screening allow the plan now. */
  datatype PlanInput = PlanInput(
    id: string, source: string, runIndex: nat, balance: int, minimum: int, maximum: Option<int>, allowed: bool)

  /**
   * The candidate query, for one deposit wallet in one snapshot run that also holds the hot
   * wallet: at most one active plan, indexed beyond the snapshot, inbound matched, and inbound
   * minus swept equal to the balance.
   */
  ghost predicate Candidate(cfg: Config, db: Db, x: PlanInput)
    requires x.runIndex < |db.snapshots|
  {
    var run := db.snapshots[x.runIndex];
    var asset, height := run.asset, run.head.height;
    && SnapshotShows(cfg, run, x.source, x.balance)
    && IsDeposit(cfg, asset, x.source) && InCustody(cfg, asset, cfg.hot)
    && db.cursor.tracked == Some(asset) && height < db.cursor.next
    && 0 < x.minimum <= x.balance && (x.maximum.Some? ==> x.balance <= x.maximum.value)
    && (forall id :: id in db.sweeps && db.sweeps[id].asset == asset && db.sweeps[id].source == x.source ==>
          !ActiveSweep(db.sweeps[id].job.status) && db.sweeps[id].runIndex != x.runIndex)
    && (exists key :: key in db.events && key.contract == asset && db.events[key].recipient == x.source && db.events[key].height <= height)
    && InboundMatched(db, asset, x.source, height)
    && x.balance == MapSum(db.events, InboundUpTo(asset, x.source, height)) - MapSum(db.sweeps, SucceededFrom(asset, x.source))
  }

  predicate Plannable(db: Db, x: PlanInput) {
    x.allowed && x.id != "" && x.id !in db.sweeps && x.runIndex < |db.snapshots|
  }

  function PlannedSweep(cfg: Config, db: Db, x: PlanInput): Sweep
    requires x.runIndex < |db.snapshots|
  {
    Sweep(x.source, cfg.hot, db.snapshots[x.runIndex].asset, x.balance, x.runIndex, NewJob(Approved))
  }

  /** planNext for a chosen source; inserting the plan creates its planned execution row. */
  ghost function Plan(cfg: Config, db: Db, x: PlanInput): Db {
    if Plannable(db, x) && Candidate(cfg, db, x) then db.(sweeps := db.sweeps[x.id := PlannedSweep(cfg, db, x)]) else db
  }

  // ---------- the observation before signing ----------

  datatype Observation = Observation(balance: int, height: nat)

  /** validObservation: the source holds at least the planned amount. */
  predicate ValidObservation(o: Observation, required: int) {
    0 < o.height && 0 < required <= o.balance < TWO_256
  }
}
