// Sweeps move no more than came in: at most one active plan per source, and succeeded plus active
// sweeps of a source never exceed the transfers indexed to it.
module SweepProofs {
  import opened Sums
  import opened Chain
  import opened Lease
  import opened Tables
  import opened Sweeps
  import opened DepositProofs
  import opened RowProofs

  ghost function InboundOf(asset: string, source: string): (EventId, EventRow) -> int {
    (key: EventId, e: EventRow) => if key.contract == asset && e.recipient == source then e.amount else 0
  }

  predicate Committed(status: Status) {
    ActiveSweep(status) || status == Succeeded
  }

  ghost function CommittedFrom(asset: string, source: string): (string, Sweep) -> int {
    (id: string, s: Sweep) => if s.asset == asset && s.source == source && Committed(s.job.status) then s.amount else 0
  }

  /** A sweep moves a positive amount from a deposit wallet to the hot wallet, both in custody. */
  predicate Routed(cfg: Config, s: Sweep) {
    0 < s.amount && s.destination == cfg.hot && InCustody(cfg, s.asset, cfg.hot) && IsDeposit(cfg, s.asset, s.source)
  }

  predicate SweepsRouted(cfg: Config, sweeps: map<string, Sweep>) {
    forall id :: id in sweeps ==> Routed(cfg, sweeps[id])
  }

  predicate SameSource(a: Sweep, b: Sweep) {
    a.asset == b.asset && a.source == b.source
  }

  predicate OneActive(sweeps: map<string, Sweep>) {
    forall a, b :: a in sweeps && b in sweeps && a != b && SameSource(sweeps[a], sweeps[b]) ==>
      !(ActiveSweep(sweeps[a].job.status) && ActiveSweep(sweeps[b].job.status)) && sweeps[a].runIndex != sweeps[b].runIndex
  }

  ghost predicate WithinInbound(events: map<EventId, EventRow>, sweeps: map<string, Sweep>) {
    forall a, s :: MapSum(sweeps, CommittedFrom(a, s)) <= MapSum(events, InboundOf(a, s))
  }

  ghost predicate SweepInv(cfg: Config, events: map<EventId, EventRow>, sweeps: map<string, Sweep>) {
    SweepsRouted(cfg, sweeps) && OneActive(sweeps) && WithinInbound(events, sweeps)
  }

  // ---------- events arrive ----------

  lemma MoreEvents(cfg: Config, was: map<EventId, EventRow>, events: map<EventId, EventRow>, sweeps: map<string, Sweep>)
    requires SweepInv(cfg, was, sweeps) && EventsPositive(events)
    requires forall key :: key in was ==> key in events && events[key] == was[key]
    ensures SweepInv(cfg, events, sweeps)
  {
    forall a, s ensures MapSum(sweeps, CommittedFrom(a, s)) <= MapSum(events, InboundOf(a, s)) {
      MapSumGrows(was, events, InboundOf(a, s));
    }
  }

  // ---------- a row moves ----------

  lemma MovedActive(job: Job, m: Move)
    requires JobShape(job) && Enabled(job, m)
    ensures ActiveSweep(job.status) && (Committed(Moved(job, m).status) ==> Committed(job.status))
  {
  }

  lemma MovedKeeps(cfg: Config, events: map<EventId, EventRow>, was: map<string, Sweep>, sweeps: map<string, Sweep>, change: RowChange)
    requires SweepInv(cfg, events, was) && SweepsShaped(was) && SweepsChanged(was, sweeps, change) && !change.Planned?
    ensures SweepInv(cfg, events, sweeps)
  {
    if change.Moving? && change.table == SweepTable {
      var id, m := change.id, change.move;
      MovedActive(was[id].job, m);
      forall a, s ensures MapSum(sweeps, CommittedFrom(a, s)) <= MapSum(was, CommittedFrom(a, s)) {
        MapSumUpdate(was, CommittedFrom(a, s), id, sweeps[id]);
      }
    }
  }

  // ---------- a plan is made ----------

  /** A source with no active plan has committed exactly what succeeded. */
  lemma IdleSource(sweeps: map<string, Sweep>, asset: string, source: string)
    requires forall id :: id in sweeps && sweeps[id].asset == asset && sweeps[id].source == source ==> !ActiveSweep(sweeps[id].job.status)
    ensures MapSum(sweeps, CommittedFrom(asset, source)) == MapSum(sweeps, SucceededFrom(asset, source))
  {
    MapSumCongr(sweeps, CommittedFrom(asset, source), SucceededFrom(asset, source));
  }

  lemma InboundBelow(events: map<EventId, EventRow>, asset: string, source: string, height: nat)
    requires EventsPositive(events)
    ensures MapSum(events, InboundUpTo(asset, source, height)) <= MapSum(events, InboundOf(asset, source))
  {
    MapSumLe(events, InboundUpTo(asset, source, height), InboundOf(asset, source));
  }

  lemma PlanKeeps(cfg: Config, db: Db, x: PlanInput)
    requires SweepInv(cfg, db.events, db.sweeps) && EventsPositive(db.events)
    ensures SweepInv(cfg, db.events, Plan(cfg, db, x).sweeps)
  {
    if Plannable(db, x) && Candidate(cfg, db, x) {
      var sweep := PlannedSweep(cfg, db, x);
      PlanExclusive(db.sweeps, x.id, sweep);
      forall a, s ensures MapSum(db.sweeps[x.id := sweep], CommittedFrom(a, s)) <= MapSum(db.events, InboundOf(a, s)) {
        MapSumInsert(db.sweeps, CommittedFrom(a, s), x.id, sweep);
        if a == sweep.asset && s == sweep.source {
          IdleSource(db.sweeps, a, s);
          InboundBelow(db.events, a, s, db.snapshots[x.runIndex].head.height);
        }
      }
    }
  }

  lemma PlanExclusive(sweeps: map<string, Sweep>, id: string, sweep: Sweep)
    requires OneActive(sweeps) && id !in sweeps
    requires forall other :: other in sweeps && sweeps[other].asset == sweep.asset && sweeps[other].source == sweep.source ==>
      !ActiveSweep(sweeps[other].job.status) && sweeps[other].runIndex != sweep.runIndex
    ensures OneActive(sweeps[id := sweep])
  {
  }
}
