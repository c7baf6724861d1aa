// The sweep planner: the candidate query evaluated over the tables, and planning with retries.
module SweepStore {
  import opened Prelude
  import opened Tables
  import opened Sweeps
  import opened Storage
  import Snapshots

  const RETRY_LIMIT := 3

  class Planner {
    const cfg: Config
    const db: Database

    constructor (cfg: Config, db: Database)
      ensures this.cfg == cfg && this.db == db
    {
      this.cfg, this.db := cfg, db;
    }

    /** sweepCandidateCTE for one source and one run. */
    method IsCandidate(x: PlanInput) returns (candidate: bool)
      requires x.runIndex < |db.snapshots|
      ensures candidate == Candidate(cfg, db.View(), x)
    {
      var run := db.snapshots[x.runIndex];
      var asset, height := run.asset, run.head.height;
      if !SnapshotShows(cfg, run, x.source, x.balance) || !IsDeposit(cfg, asset, x.source) || !InCustody(cfg, asset, cfg.hot) {
        return false;
      }
      if db.cursor.tracked != Some(asset) || db.cursor.next <= height {
        return false;
      }
      if x.minimum <= 0 || x.balance < x.minimum || (x.maximum.Some? && x.balance > x.maximum.value) {
        return false;
      }
      var free := NoActivePlan(asset, x.source, x.runIndex);
      if !free {
        return false;
      }
      var inbound := HasInbound(asset, x.source, height);
      if !inbound || !InboundMatched(db.View(), asset, x.source, height) {
        return false;
      }
      var received := Snapshots.SumTable(db.events, InboundUpTo(asset, x.source, height));
      var swept := Snapshots.SumTable(db.sweeps, SucceededFrom(asset, x.source));
      candidate := x.balance == received - swept;
    }

    method NoActivePlan(asset: string, source: string, runIndex: nat) returns (free: bool)
      ensures free <==> forall id :: id in db.sweeps && db.sweeps[id].asset == asset && db.sweeps[id].source == source ==>
                          !ActiveSweep(db.sweeps[id].job.status) && db.sweeps[id].runIndex != runIndex
    {
      var todo := db.sweeps.Keys;
      while todo != {}
        invariant todo <= db.sweeps.Keys
        invariant forall id :: id in db.sweeps && id !in todo && db.sweeps[id].asset == asset && db.sweeps[id].source == source ==>
                    !ActiveSweep(db.sweeps[id].job.status) && db.sweeps[id].runIndex != runIndex
        decreases todo
      {
        var id :| id in todo;
        var s := db.sweeps[id];
        if s.asset == asset && s.source == source && (ActiveSweep(s.job.status) || s.runIndex == runIndex) {
          return false;
        }
        todo := todo - {id};
      }
      return true;
    }

    method HasInbound(asset: string, source: string, height: nat) returns (found: bool)
      ensures found <==> exists key :: key in db.events && key.contract == asset && db.events[key].recipient == source && db.events[key].height <= height
    {
      var todo := db.events.Keys;
      while todo != {}
        invariant todo <= db.events.Keys
        invariant forall key :: key in db.events && key !in todo ==>
                    !(key.contract == asset && db.events[key].recipient == source && db.events[key].height <= height)
        decreases todo
      {
        var key :| key in todo;
        if key.contract == asset && db.events[key].recipient == source && db.events[key].height <= height {
          return true;
        }
        todo := todo - {key};
      }
      return false;
    }

    /** One repeatable-read attempt. */
    method PlanOnce(x: PlanInput) returns (planned: bool)
      modifies db`sweeps
      ensures db.View() == Plan(cfg, old(db.View()), x)
      ensures planned <==> Plannable(old(db.View()), x) && Candidate(cfg, old(db.View()), x)
    {
      if !Plannable(db.View(), x) {
        return false;
      }
      planned := IsCandidate(x);
      if planned {
        db.sweeps := db.sweeps[x.id := PlannedSweep(cfg, db.View(), x)];
      }
    }

    /** PlanNext: serialization conflicts roll the attempt back; the first attempt without one decides. */
    method PlanNext(x: PlanInput, conflicts: seq<bool>) returns (planned: Option<bool>)
      requires |conflicts| == RETRY_LIMIT
      modifies db`sweeps
      ensures planned.None? <==> forall i :: 0 <= i < RETRY_LIMIT ==> conflicts[i]
      ensures db.View() == if planned.Some? then Plan(cfg, old(db.View()), x) else old(db.View())
      ensures planned == Some(true) <==> planned.Some? && Plannable(old(db.View()), x) && Candidate(cfg, old(db.View()), x)
    {
      for attempt := 0 to RETRY_LIMIT
        invariant forall i :: 0 <= i < attempt ==> conflicts[i]
        invariant db.View() == old(db.View())
      {
        if !conflicts[attempt] {
          var done := PlanOnce(x);
          return Some(done);
        }
      }
      return None;
    }
  }
}
