// Leases in time: while a lease is live nobody else is given the row or the cursor, unless it was
// given back before.
module Leases {
  import opened Prelude
  import opened Lease
  import opened Tables
  import opened Gateway
  import opened LedgerProofs
  import opened RowProofs
  import opened RowSteps
  import opened StoreProofs
  import opened IndexProofs
  import opened SweepProofs
  import opened Protocol
  import opened Frames
  import opened Invariants
  import opened Theorems
  import opened Statements

  // ---------- the clock ----------

  lemma {:induction false} ClockRuns(cfg: Config, states: seq<State>, actions: seq<Action>, j: nat, k: nat)
    requires Run(cfg, states, actions) && j <= k < |states|
    ensures states[j].db.now <= states[k].db.now
    decreases k - j
  {
    hide Next, Initial, Inv, StoreInv, ProtocolInv, LedgerInv;
    if j < k {
      ClockRuns(cfg, states, actions, j, k - 1);
      RunParts(cfg, states, actions, k - 1);
      assert Linked(cfg, states, actions, k - 1);
      ClockStep(cfg, states[k - 1], actions[k - 1], states[k]);
    }
  }

  lemma ClockStep(cfg: Config, s: State, a: Action, t: State)
    requires LedgerInv(s.db) && PhasesAgree(s.procs) && Next(cfg, s, a, t)
    ensures s.db.now <= t.db.now
  {
    hide LedgerInv, PhasesAgree, StoreNext, ChainNext, WorkNext, ScanNext, CaptureNext;
    match a
    case Store(x) => StoreFrame(cfg, s.db, x, t.db);
    case Work(p, x) => WorkFrame(cfg, s, p, x, t);
    case Scan(p, x) => ScanRowsStay(s.db, s.chain, s.procs[p], x, t.db, t.procs[p].pc);
    case Capture(p, x) => CaptureTables(cfg, s.db, s.chain, s.procs[p].pc, x, t.db, t.procs[p].pc);
    case _ =>
  }

  // ---------- leased rows ----------

  /** The step takes the row out of its lease. */
  predicate GivenBack(s: State, t: State, table: Table, id: string) {
    && HasRow(s.db, table, id) && HasRow(t.db, table, id)
    && RowJob(s.db, table, id).lease.Some? && RowJob(t.db, table, id).lease.None?
  }

  /** One step: a row keeps its lease, gives it back, or had it run out. */
  lemma LeaseStep(cfg: Config, s: State, a: Action, t: State, table: Table, id: string)
    requires Inv(cfg, s) && Next(cfg, s, a, t) && HasRow(s.db, table, id) && RowJob(s.db, table, id).lease.Some?
    ensures HasRow(t.db, table, id)
    ensures RowJob(t.db, table, id).lease == RowJob(s.db, table, id).lease || GivenBack(s, t, table, id)
            || RowJob(s.db, table, id).lease.value.until <= s.db.now
  {
    hide StoreInv, IndexInv, ScansSound, SweepInv, Next, PhasesAgree, SignerSound, RowsSigned, ChainSound, IncludedBroadcast, BroadcastSound, ProcsSound, LogSound, LeasesLogged, SuccessSound, RowsChanged, Progress;
    var change := StepRows(cfg, s, a, t);
    InvStep(cfg, s, a, t);
    RowStays(cfg, s, t, table, id);
    RowShaped(s.db, table, id);
    RowAfter(cfg, s.db, t.db, change, table, id);
    if change.Moving? && change.table == table && change.id == id && change.move.Claimed? {
      ClaimTimes(s, a, change);
    }
  }

  lemma ClaimTimes(s: State, a: Action, change: RowChange)
    requires change.Moving? && change.move.Claimed? && a.Work? && Justified(s, a.proc, change.table, change.id, change.move)
    ensures change.move.now == s.db.now
  {
  }

  lemma RowStays(cfg: Config, s: State, t: State, table: Table, id: string)
    requires Progress(cfg, s, t) && HasRow(s.db, table, id)
    ensures HasRow(t.db, table, id)
  {
    hide JobProgress, SignerGrows, ChainGrows;
  }

  /** From a claim on, the row keeps the lease until somebody gives it back or it runs out. */
  lemma {:induction false} LeaseKept(cfg: Config, states: seq<State>, actions: seq<Action>, j: nat, k: nat, table: Table, id: string, holder: Holder)
    requires Run(cfg, states, actions) && j <= k < |states| && HasRow(states[j].db, table, id) && RowJob(states[j].db, table, id).lease == Some(holder)
    requires forall m :: j <= m < k ==> !GivenBack(states[m], states[m + 1], table, id)
    ensures HasRow(states[k].db, table, id)
    ensures RowJob(states[k].db, table, id).lease == Some(holder) || holder.until <= states[k].db.now
    decreases k - j
  {
    hide Next, Initial, Inv;
    if j < k {
      LeaseKept(cfg, states, actions, j, k - 1, table, id, holder);
      InvRun(cfg, states, actions, k - 1);
      assert Linked(cfg, states, actions, k - 1);
      ClockRuns(cfg, states, actions, k - 1, k);
      if RowJob(states[k - 1].db, table, id).lease == Some(holder) {
        LeaseStep(cfg, states[k - 1], actions[k - 1], states[k], table, id);
      }
      InvStep(cfg, states[k - 1], actions[k - 1], states[k]);
      RowStays(cfg, states[k - 1], states[k], table, id);
    }
  }

  /** Between two claims of one row the first one's time has passed, or its lease was given back. */
  lemma LeaseExclusive(cfg: Config, states: seq<State>, actions: seq<Action>, j: nat, k: nat, table: Table, id: string, first: Phase, duration: nat)
    requires Run(cfg, states, actions) && j < k < |actions|
    requires actions[j].Work? && actions[j].work == ClaimRow(table, id, first, duration)
    requires actions[k].Work? && actions[k].work.ClaimRow? && actions[k].work.table == table && actions[k].work.id == id
    ensures states[j].db.now + duration <= states[k].db.now || exists m :: j < m < k && GivenBack(states[m], states[m + 1], table, id)
  {
    hide Initial, Linked, GivenBack;
    var p, x := actions[j].proc, actions[k].work;
    ClaimStatement(cfg, states, actions, j, p, table, id, first, duration);
    ClaimStatement(cfg, states, actions, k, actions[k].proc, table, id, x.phase, x.duration);
    if forall m :: j < m < k ==> !GivenBack(states[m], states[m + 1], table, id) {
      var holder := Holder(states[j].procs[p].worker, states[j].db.now + duration);
      LeaseKept(cfg, states, actions, j + 1, k, table, id, holder);
    }
  }
}
