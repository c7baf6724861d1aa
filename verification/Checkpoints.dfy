// The four in-flight columns of the ledger checkpoint, fixed step by step: a row enters them with its
// first broadcast claim and leaves them with its terminal statement, and nothing else moves them.
module Checkpoints {
  import opened Prelude
  import opened Sums
  import opened Chain
  import opened Lease
  import opened Tables
  import opened Gateway
  import opened LeaseColumns
  import opened LedgerProofs
  import opened RowProofs
  import opened RowSteps
  import opened StoreProofs
  import opened IndexProofs
  import opened SweepProofs
  import opened Protocol
  import opened Invariants
  import opened Theorems
  import opened Statements
  import opened Wallets

  /** The columns of one table. */
  datatype Columns = Columns(count: int, amount: int)

  ghost function ColumnsOf(db: Db, table: Table, asset: string): Columns {
    var c := ReadCheckpoint(db, asset);
    if table == PayoutTable then Columns(c.payoutCount, c.payoutAmount) else Columns(c.sweepCount, c.sweepAmount)
  }

  function RowAsset(db: Db, table: Table, id: string): string
    requires HasRow(db, table, id)
  {
    if table == PayoutTable then db.payouts[id].asset else db.sweeps[id].asset
  }

  function RowAmount(db: Db, table: Table, id: string): int
    requires HasRow(db, table, id)
  {
    if table == PayoutTable then db.payouts[id].amount else db.sweeps[id].amount
  }

  /** The row the step is about, for the two kinds of steps that move the columns. */
  predicate Enters(s: State, a: Action, table: Table, id: string) {
    && a.Work? && a.work.ClaimRow? && a.work.table == table && a.work.id == id && a.work.phase == BroadcastPhase
    && HasRow(s.db, table, id) && RowJob(s.db, table, id).broadcastAttempts == 0
  }

  predicate Leaves(s: State, a: Action, t: State, table: Table, id: string) {
    && a.Work? && a.work.FinishConfirmation? && a.proc in s.procs && HasClaim(s.procs[a.proc].pc)
    && s.procs[a.proc].pc.claim.table == table && s.procs[a.proc].pc.claim.id == id
    && HasRow(s.db, table, id) && RowJob(s.db, table, id).status == Confirming
    && HasRow(t.db, table, id) && RowJob(t.db, table, id).status in {Succeeded, Failed}
  }

  /** How the columns of a table move: by the one row that enters or leaves. */
  ghost predicate Moves(s: State, a: Action, t: State, table: Table, asset: string) {
    var was, now := ColumnsOf(s.db, table, asset), ColumnsOf(t.db, table, asset);
    && (forall id :: Enters(s, a, table, id) && RowAsset(s.db, table, id) == asset ==>
          now == Columns(was.count + 1, was.amount + RowAmount(s.db, table, id)))
    && (forall id :: Leaves(s, a, t, table, id) && RowAsset(s.db, table, id) == asset ==>
          now == Columns(was.count - 1, was.amount - RowAmount(s.db, table, id)))
    && ((forall id :: (Enters(s, a, table, id) || Leaves(s, a, t, table, id)) ==> RowAsset(s.db, table, id) != asset) ==> now == was)
  }

  /** An empty deployment has nothing in flight. */
  lemma NothingAtFirst(cfg: Config, s: State, table: Table, asset: string)
    requires Initial(cfg, s)
    ensures ColumnsOf(s.db, table, asset) == Columns(0, 0)
  {
  }

  // ---------- one row ----------

  /** What a row adds to the columns of its table. */
  function Share(job: Job, owns: bool, amount: int): Columns {
    if owns && (job.status == Confirming || (job.status == ReadyForBroadcast && job.broadcastAttempts > 0)) then Columns(1, amount) else Columns(0, 0)
  }

  lemma RowMoves(was: Db, db: Db, table: Table, id: string, job: Job, asset: string)
    requires OnlyRow(was, db, table, id, job)
    ensures HasRow(was, table, id)
    ensures
      var owns, amount := RowAsset(was, table, id) == asset, RowAmount(was, table, id);
      var before, after := Share(RowJob(was, table, id), owns, amount), Share(job, owns, amount);
      ColumnsOf(db, table, asset) == Columns(ColumnsOf(was, table, asset).count + after.count - before.count,
                                             ColumnsOf(was, table, asset).amount + after.amount - before.amount)
    ensures forall other :: other != table ==> ColumnsOf(db, other, asset) == ColumnsOf(was, other, asset)
  {
    if table == PayoutTable {
      MapSumUpdate(was.payouts, PayoutInFlightRow(asset), id, was.payouts[id].(job := job));
      MapSumUpdate(was.payouts, PayoutInFlight(asset), id, was.payouts[id].(job := job));
    } else {
      MapSumUpdate(was.sweeps, SweepInFlightRow(asset), id, was.sweeps[id].(job := job));
      MapSumUpdate(was.sweeps, SweepInFlight(asset), id, was.sweeps[id].(job := job));
    }
  }

  // ---------- the steps that move no row of the tables ----------

  lemma SameColumns(was: Db, db: Db, table: Table, asset: string)
    requires db.payouts == was.payouts && db.sweeps == was.sweeps
    ensures ColumnsOf(db, table, asset) == ColumnsOf(was, table, asset)
  {
  }

  /** New and reviewed rows are not in flight. */
  lemma QuietChange(was: Db, db: Db, change: RowChange, table: Table, asset: string)
    requires Shaped(was) && RowsChanged(was, db, change) && !change.Moving?
    ensures ColumnsOf(db, table, asset) == ColumnsOf(was, table, asset)
  {
    match change
    case NoRow => SameColumns(was, db, table, asset);
    case Inserted(id) =>
      MapSumInsert(was.payouts, PayoutInFlightRow(asset), id, db.payouts[id]);
      MapSumInsert(was.payouts, PayoutInFlight(asset), id, db.payouts[id]);
    case Reviewed(id) =>
      MapSumUpdate(was.payouts, PayoutInFlightRow(asset), id, db.payouts[id]);
      MapSumUpdate(was.payouts, PayoutInFlight(asset), id, db.payouts[id]);
    case Planned(id) =>
      MapSumInsert(was.sweeps, SweepInFlightRow(asset), id, db.sweeps[id]);
      MapSumInsert(was.sweeps, SweepInFlight(asset), id, db.sweeps[id]);
  }

  /** Whatever is no worker's statement leaves the columns alone. */
  lemma OutsideMoves(cfg: Config, s: State, a: Action, t: State, table: Table, asset: string)
    requires Inv(cfg, s) && Next(cfg, s, a, t) && !a.Work?
    ensures Moves(s, a, t, table, asset)
  {
    hide StoreInv, IndexInv, ScansSound, SweepInv, Next, PhasesAgree, SignerSound, RowsSigned, ChainSound, IncludedBroadcast, BroadcastSound, ProcsSound, LogSound, LeasesLogged, SuccessSound, RowsChanged, ColumnsOf;
    var change := StepRows(cfg, s, a, t);
    QuietChange(s.db, t.db, change, table, asset);
  }

  lemma CallMoves(cfg: Config, s: State, p: string, x: WorkAction, t: State, table: Table, asset: string)
    requires WorkNext(cfg, s, p, x, t) && (x.CallSigner? || x.Broadcast? || x.ReadTransaction? || x.ReadHead?)
    ensures Moves(s, Work(p, x), t, table, asset)
  {
    hide Submit, FreshTransaction, HonestRead, ColumnsOf;
  }

  // ---------- the steps that move one ----------

  /** A row's statement moves the columns as its own share says. */
  lemma ShareMoves(s: State, a: Action, t: State, table: Table, id: string, job: Job, asset: string, other: Table)
    requires OnlyRow(s.db, t.db, table, id, job) && HasRow(s.db, table, id) && HasRow(t.db, table, id) && RowJob(t.db, table, id) == job
    requires
      var was := RowJob(s.db, table, id);
      && JobShape(was)
      && (forall i :: Enters(s, a, table, i) ==> i == id) && (forall i :: Leaves(s, a, t, table, i) ==> i == id)
      && (forall i :: other != table ==> !Enters(s, a, other, i) && !Leaves(s, a, t, other, i))
      && (Enters(s, a, table, id) ==> was.status == ReadyForBroadcast && job.status == ReadyForBroadcast && job.broadcastAttempts > 0)
      && (Leaves(s, a, t, table, id) ==> was.status == Confirming && job.status in {Succeeded, Failed})
      && (!Enters(s, a, table, id) && !Leaves(s, a, t, table, id) ==> Share(job, true, 1) == Share(was, true, 1))
      && !(Enters(s, a, table, id) && Leaves(s, a, t, table, id))
    ensures Moves(s, a, t, other, asset)
  {
    hide ColumnsOf, Enters, Leaves, OnlyRow;
    RowMoves(s.db, t.db, table, id, job, asset);
    RowAssetKept(s.db, t.db, table, id, job);
    assert RowJob(s.db, table, id).status == ReadyForBroadcast && Enters(s, a, table, id) ==> RowJob(s.db, table, id).broadcastAttempts == 0 by {
      EntersFirst(s, a, table, id);
    }
  }

  lemma EntersFirst(s: State, a: Action, table: Table, id: string)
    requires HasRow(s.db, table, id)
    ensures Enters(s, a, table, id) ==> RowJob(s.db, table, id).broadcastAttempts == 0
  {
  }

  lemma RowAssetKept(was: Db, db: Db, table: Table, id: string, job: Job)
    requires OnlyRow(was, db, table, id, job)
    ensures HasRow(was, table, id) && HasRow(db, table, id) && RowJob(db, table, id) == job
    ensures RowAsset(db, table, id) == RowAsset(was, table, id) && RowAmount(db, table, id) == RowAmount(was, table, id)
  {
  }

  lemma ShapedRow(cfg: Config, states: seq<State>, actions: seq<Action>, k: nat, table: Table, id: string)
    requires Run(cfg, states, actions) && k < |states| && HasRow(states[k].db, table, id)
    ensures JobShape(RowJob(states[k].db, table, id))
  {
    hide Next, Initial, Inv, StoreInv, LedgerInv, JobShape;
    RunParts(cfg, states, actions, k);
    RowShaped(states[k].db, table, id);
  }

  lemma ClaimMoves(cfg: Config, states: seq<State>, actions: seq<Action>, k: nat, p: string, table: Table, id: string, phase: Phase, duration: nat, other: Table, asset: string)
    requires At(cfg, states, actions, k, p, ClaimRow(table, id, phase, duration))
    ensures Moves(states[k], actions[k], states[k + 1], other, asset)
  {
    hide Initial, Linked, OnlyRow, Moves;
    ClaimStatement(cfg, states, actions, k, p, table, id, phase, duration);
    ShapedRow(cfg, states, actions, k, table, id);
    var was := RowJob(states[k].db, table, id);
    var job := was.(lease := Some(Holder(states[k].procs[p].worker, states[k].db.now + duration)), epoch := was.epoch + 1,
                    signingAttempts := was.signingAttempts + (if phase == SigningPhase then 1 else 0),
                    broadcastAttempts := was.broadcastAttempts + (if phase == BroadcastPhase then 1 else 0),
                    confirmationAttempts := was.confirmationAttempts + (if phase == ConfirmationPhase then 1 else 0),
                    lastError := if phase == SigningPhase then "" else was.lastError);
    RowAssetKept(states[k].db, states[k + 1].db, table, id, job);
    ShareMoves(states[k], actions[k], states[k + 1], table, id, job, asset, other);
  }

  /** A statement that changed no row. */
  lemma NothingMoves(s: State, a: Action, t: State, table: Table, asset: string)
    requires t.db == s.db && a.Work? && !a.work.ClaimRow?
    ensures Moves(s, a, t, table, asset)
  {
    hide ColumnsOf;
  }

  lemma SigningMoves(cfg: Config, states: seq<State>, actions: seq<Action>, k: nat, p: string, table: Table, asset: string)
    requires At(cfg, states, actions, k, p, FinishSigning)
    ensures Moves(states[k], actions[k], states[k + 1], table, asset)
  {
    hide Initial, Linked, OnlyRow, Moves;
    Stepped(cfg, states, actions, k, p, FinishSigning);
    Signer(cfg, states[k], p, states[k + 1]);
    var s, pc := states[k], states[k].procs[p].pc;
    var c := pc.claim;
    var was, job: Job;
    if pc.SignerReturned? {
      SignatureStatement(cfg, states, actions, k, p);
      was := RowJob(s.db, c.table, c.id);
      job := was.(status := ReadyForBroadcast, transaction := Some(pc.tx), lease := None, lastError := "");
    } else {
      SigningReleaseStatement(cfg, states, actions, k, p);
      was := RowJob(s.db, c.table, c.id);
      job := was.(lease := None, lastError := "signer_error");
    }
    ShapedRow(cfg, states, actions, k, c.table, c.id);
    if states[k + 1].db == s.db {
      NothingMoves(s, actions[k], states[k + 1], table, asset);
    } else {
      RowAssetKept(s.db, states[k + 1].db, c.table, c.id, job);
      ShareMoves(s, actions[k], states[k + 1], c.table, c.id, job, asset, table);
    }
  }

  lemma Signer(cfg: Config, s: State, p: string, t: State)
    requires WorkNext(cfg, s, p, FinishSigning, t)
    ensures p in s.procs && (s.procs[p].pc.SignerReturned? || s.procs[p].pc.SignerErred?)
  {
  }

  lemma BroadcastMoves(cfg: Config, states: seq<State>, actions: seq<Action>, k: nat, p: string, table: Table, asset: string)
    requires At(cfg, states, actions, k, p, FinishBroadcast)
    ensures Moves(states[k], actions[k], states[k + 1], table, asset)
  {
    hide Initial, Linked, OnlyRow, Moves;
    Stepped(cfg, states, actions, k, p, FinishBroadcast);
    Sender(cfg, states[k], p, states[k + 1]);
    BeginStatement(cfg, states, actions, k, p);
    var s, pc := states[k], states[k].procs[p].pc;
    var c := pc.claim;
    ShapedRow(cfg, states, actions, k, c.table, c.id);
    if states[k + 1].db == s.db {
      NothingMoves(s, actions[k], states[k + 1], table, asset);
    } else {
      var job := RowJob(s.db, c.table, c.id).(
        status := Confirming, broadcastResult := Some(pc.result), nextConfirmation := s.db.now, lease := None,
        lastError := if pc.result == Accepted then "" else "broadcast_error");
      RowAssetKept(s.db, states[k + 1].db, c.table, c.id, job);
      ShareMoves(s, actions[k], states[k + 1], c.table, c.id, job, asset, table);
    }
  }

  lemma Sender(cfg: Config, s: State, p: string, t: State)
    requires WorkNext(cfg, s, p, FinishBroadcast, t)
    ensures p in s.procs && s.procs[p].pc.BroadcastDone?
  {
  }

  lemma Finisher(cfg: Config, s: State, p: string, journalId: string, delay: nat, t: State)
    requires WorkNext(cfg, s, p, FinishConfirmation(journalId, delay), t)
    ensures p in s.procs && (HasVerdict(s.procs[p].pc) || s.procs[p].pc.Releasing?)
  {
    hide ConfirmationFinished;
  }

  lemma ReleaseMoves(cfg: Config, states: seq<State>, actions: seq<Action>, k: nat, p: string, journalId: string, delay: nat, table: Table, asset: string)
    requires At(cfg, states, actions, k, p, FinishConfirmation(journalId, delay)) && p in states[k].procs && states[k].procs[p].pc.Releasing?
    ensures Moves(states[k], actions[k], states[k + 1], table, asset)
  {
    hide Initial, Linked, OnlyRow, Moves;
    ReleaseStatement(cfg, states, actions, k, p, journalId, delay);
    var s, pc := states[k], states[k].procs[p].pc;
    var c := pc.claim;
    ShapedRow(cfg, states, actions, k, c.table, c.id);
    if states[k + 1].db == s.db {
      NothingMoves(s, actions[k], states[k + 1], table, asset);
    } else {
      var job := RowJob(s.db, c.table, c.id).(nextConfirmation := s.db.now + delay, lastError := pc.code, lease := None);
      RowAssetKept(s.db, states[k + 1].db, c.table, c.id, job);
      ShareMoves(s, actions[k], states[k + 1], c.table, c.id, job, asset, table);
    }
  }

  lemma SweepVerdictMoves(cfg: Config, states: seq<State>, actions: seq<Action>, k: nat, p: string, journalId: string, delay: nat, table: Table, asset: string)
    requires At(cfg, states, actions, k, p, FinishConfirmation(journalId, delay)) && p in states[k].procs && HasVerdict(states[k].procs[p].pc)
    requires states[k].procs[p].pc.claim.table == SweepTable
    ensures Moves(states[k], actions[k], states[k + 1], table, asset)
  {
    hide Initial, Linked, OnlyRow, Moves;
    SweepVerdict(cfg, states, actions, k, p, journalId, delay);
    var s, pc := states[k], states[k].procs[p].pc;
    var id := pc.claim.id;
    ShapedRow(cfg, states, actions, k, SweepTable, id);
    if states[k + 1].db == s.db {
      NothingMoves(s, actions[k], states[k + 1], table, asset);
    } else {
      var job := s.db.sweeps[id].job.(status := if pc.SawSucceeded? then Succeeded else Failed, failureReason := ReasonOf(pc), lastError := "", lease := None);
      RowAssetKept(s.db, states[k + 1].db, SweepTable, id, job);
      ShareMoves(s, actions[k], states[k + 1], SweepTable, id, job, asset, table);
    }
  }

  lemma PayoutVerdictMoves(cfg: Config, states: seq<State>, actions: seq<Action>, k: nat, p: string, journalId: string, delay: nat, table: Table, asset: string)
    requires At(cfg, states, actions, k, p, FinishConfirmation(journalId, delay)) && p in states[k].procs && HasVerdict(states[k].procs[p].pc)
    requires states[k].procs[p].pc.claim.table == PayoutTable
    ensures Moves(states[k], actions[k], states[k + 1], table, asset)
  {
    hide Initial, Linked, Verdict;
    PayoutVerdict(cfg, states, actions, k, p, journalId, delay);
    if states[k + 1].db == states[k].db {
      NothingMoves(states[k], actions[k], states[k + 1], table, asset);
    } else {
      VerdictColumns(states[k], actions[k], states[k + 1], journalId, table, asset);
    }
  }

  lemma VerdictColumns(s: State, a: Action, t: State, journalId: string, table: Table, asset: string)
    requires a.Work? && a.work.FinishConfirmation? && a.proc in s.procs && HasVerdict(s.procs[a.proc].pc) && s.procs[a.proc].pc.claim.table == PayoutTable
    requires s.procs[a.proc].pc.claim.id in s.db.payouts && s.db.payouts[s.procs[a.proc].pc.claim.id].job.status == Confirming
    requires t.db == Verdict(s.db, s.procs[a.proc].pc, journalId)
    ensures Moves(s, a, t, table, asset)
  {
    var id := s.procs[a.proc].pc.claim.id;
    MapSumUpdate(s.db.payouts, PayoutInFlightRow(asset), id, t.db.payouts[id]);
    MapSumUpdate(s.db.payouts, PayoutInFlight(asset), id, t.db.payouts[id]);
    assert Leaves(s, a, t, PayoutTable, id);
  }

  /**
   * In every run each column moves exactly with the row that enters by its first broadcast claim or
   * leaves by its terminal statement; every other step leaves it alone.
   */
  lemma ColumnsMove(cfg: Config, states: seq<State>, actions: seq<Action>, k: nat, table: Table, asset: string)
    requires Run(cfg, states, actions) && k < |actions|
    ensures Moves(states[k], actions[k], states[k + 1], table, asset)
  {
    hide Initial, Moves, Inv, Next;
    assert Linked(cfg, states, actions, k);
    if !actions[k].Work? {
      InvRun(cfg, states, actions, k);
      OutsideMoves(cfg, states[k], actions[k], states[k + 1], table, asset);
      return;
    }
    var p, x := actions[k].proc, actions[k].work;
    match x
    case ClaimRow(t, id, phase, duration) => ClaimMoves(cfg, states, actions, k, p, t, id, phase, duration, table, asset);
    case FinishSigning => SigningMoves(cfg, states, actions, k, p, table, asset);
    case FinishBroadcast => BroadcastMoves(cfg, states, actions, k, p, table, asset);
    case FinishConfirmation(journalId, delay) =>
      Stepped(cfg, states, actions, k, p, x);
      Finisher(cfg, states[k], p, journalId, delay, states[k + 1]);
      var pc := states[k].procs[p].pc;
      if pc.Releasing? {
        ReleaseMoves(cfg, states, actions, k, p, journalId, delay, table, asset);
      } else if pc.claim.table == SweepTable {
        SweepVerdictMoves(cfg, states, actions, k, p, journalId, delay, table, asset);
      } else {
        PayoutVerdictMoves(cfg, states, actions, k, p, journalId, delay, table, asset);
      }
    case _ =>
      Stepped(cfg, states, actions, k, p, x);
      CallMoves(cfg, states[k], p, x, states[k + 1], table, asset);
  }
}
