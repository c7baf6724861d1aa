// The signing and execution workers, call by call. Between any two calls the rest of the system
// runs; each call is one step of the gateway's state machine, so everything proved of its runs
// holds around every worker pass.
module Workers {
  import opened Prelude
  import opened Chain
  import opened Lease
  import opened Tables
  import opened Signer
  import opened Gateway
  import opened Storage
  import opened Protocol
  import opened Invariants
  import opened LeaseColumns
  import opened Passes
  import opened Statements
  import LedgerProofs
  import StoreProofs
  import Theorems
  import Payouts
  import PayoutStore
  import SignerStores
  import Simulator

  function ActorOf(a: Action): Option<string> {
    match a
    case Work(p, _) => Some(p)
    case Scan(p, _) => Some(p)
    case Capture(p, _) => Some(p)
    case Crash(p) => Some(p)
    case _ => None
  }

  /** The shared database, signer and node, with the history of the whole system as a run. */
  class World {
    const cfg: Config
    const db: Database
    const payouts: PayoutStore.Store
    const signer: SignerStores.PostgresStore
    const service: SignerStores.Service
    const node: Simulator.Simulator
    ghost var procs: map<string, Proc>
    ghost var log: seq<Claim>
    ghost var states: seq<State>
    ghost var actions: seq<Action>

    ghost function Objects(): set<object> {
      {this, db, signer, node}
    }

    ghost function Now(): State
      reads this, db, signer, node
    {
      State(db.View(), signer.records, node.View(), procs, log)
    }

    ghost predicate Valid()
      reads this, db, signer, node
    {
      && payouts.db == db && payouts.cfg == cfg && service.store == signer && service.cfg == cfg
      && db.Valid() && node.Valid()
      && Run(cfg, states, actions) && states[|actions|] == Now()
    }

    lemma Current()
      requires Valid()
      ensures |states| == |actions| + 1 && states[|actions|].db == db.View()
    {
      hide Linked, Initial;
    }

    ghost predicate Stands(p: string, pc: Pc)
      reads this
    {
      p in procs && procs[p].pc == pc
    }

    constructor (cfg: Config, db: Database, signer: SignerStores.PostgresStore, node: Simulator.Simulator, ghost procs: map<string, Proc>)
      requires db.Valid() && node.Valid() && Initial(cfg, State(db.View(), signer.records, node.View(), procs, []))
      ensures Valid() && this.cfg == cfg && this.db == db && this.signer == signer && this.node == node && this.procs == procs
    {
      this.cfg, this.db, this.signer, this.node, this.procs := cfg, db, signer, node, procs;
      this.payouts := new PayoutStore.Store(cfg, db);
      this.service := new SignerStores.Service(cfg, signer);
      this.log, this.actions := [], [];
      this.states := [State(db.View(), signer.records, node.View(), procs, [])];
    }

    /** A call has changed the objects as one step of worker p says: extend the history. */
    ghost method Step(p: string, x: WorkAction, next: Pc, more: seq<Claim>)
      requires payouts.db == db && payouts.cfg == cfg && service.store == signer && service.cfg == cfg
      requires db.Valid() && node.Valid() && Run(cfg, states, actions) && p in procs
      requires
        WorkNext(cfg, states[|actions|], p, x,
                 State(db.View(), signer.records, node.View(), procs[p := procs[p].(pc := next)], log + more))
      modifies this`procs, this`log, this`states, this`actions
      ensures Valid() && Stands(p, next) && procs.Keys == old(procs.Keys) && procs[p].worker == old(procs)[p].worker
      ensures actions == old(actions) + [Work(p, x)] && states == old(states) + [Now()]
    {
      hide WorkNext, Initial;
      procs := procs[p := procs[p].(pc := next)];
      log := log + more;
      Extended(cfg, states, actions, Work(p, x), Now());
      states := states + [Now()];
      actions := actions + [Work(p, x)];
    }

    /** The same for a scanner's call. */
    ghost method ScanStep(p: string, x: ScanAction, next: Pc)
      requires payouts.db == db && payouts.cfg == cfg && service.store == signer && service.cfg == cfg
      requires db.Valid() && node.Valid() && Run(cfg, states, actions) && p in procs
      requires
        var last := states[|actions|];
        && last == State(last.db, signer.records, node.View(), procs, log)
        && ScanNext(last.db, last.chain, procs[p], x, db.View(), next)
      modifies this`procs, this`states, this`actions
      ensures Valid() && Stands(p, next) && procs.Keys == old(procs.Keys) && procs[p].worker == old(procs)[p].worker
      ensures actions == old(actions) + [Scan(p, x)] && old(states) <= states
    {
      hide ScanNext, Initial;
      procs := procs[p := procs[p].(pc := next)];
      Extended(cfg, states, actions, Scan(p, x), Now());
      states := states + [Now()];
      actions := actions + [Scan(p, x)];
    }

    /** The same for a call of a snapshot capture. */
    ghost method CaptureStep(p: string, x: CaptureAction, next: Pc)
      requires payouts.db == db && payouts.cfg == cfg && service.store == signer && service.cfg == cfg
      requires db.Valid() && node.Valid() && Run(cfg, states, actions) && p in procs
      requires
        var last := states[|actions|];
        && last == State(last.db, signer.records, node.View(), procs, log)
        && CaptureNext(cfg, last.db, last.chain, procs[p].pc, x, db.View(), next)
      modifies this`procs, this`states, this`actions
      ensures Valid() && Stands(p, next) && procs.Keys == old(procs.Keys) && procs[p].worker == old(procs)[p].worker
      ensures actions == old(actions) + [Capture(p, x)] && old(states) <= states
    {
      hide CaptureNext, Initial;
      procs := procs[p := procs[p].(pc := next)];
      Extended(cfg, states, actions, Capture(p, x), Now());
      states := states + [Now()];
      actions := actions + [Capture(p, x)];
    }

    /** What building and signing a transaction yields now: nothing, or a transaction whose id nobody has
        used. Its contract is all the signer relies on; this body is the case in which building fails. */
    method Build(request: TransferRequest) returns (built: Option<SignedTransaction>)
      ensures FreshTransaction(node.View(), built)
    {
      built := None;
    }

    /** Anything the others do while worker p stands where it is. Its contract is all the workers rely
        on; this body is the case in which nobody else moves. */
    method Others(ghost p: string)
      requires Valid() && p in procs
      modifies Objects()
      ensures Valid() && p in procs && procs[p] == old(procs)[p] && old(states) <= states
      ensures old(actions) <= actions && forall k :: |old(actions)| <= k < |actions| ==> ActorOf(actions[k]) != Some(p)
    {
    }
  }

  lemma Extended(cfg: Config, states: seq<State>, actions: seq<Action>, a: Action, t: State)
    requires Run(cfg, states, actions) && Next(cfg, states[|actions|], a, t)
    ensures Run(cfg, states + [t], actions + [a])
  {
    hide Next, Initial;
    var more, done := states + [t], actions + [a];
    forall k: nat | k < |done| ensures Linked(cfg, more, done, k) {
      if k < |actions| {
        assert Linked(cfg, states, actions, k);
      }
    }
  }

  // ---------- what a worker relies on ----------

  /** From broadcast on, a claim carries the row's signed transaction. */
  lemma ClaimCarries(cfg: Config, states: seq<State>, actions: seq<Action>, p: string)
    requires Run(cfg, states, actions) && p in states[|actions|].procs && HasClaim(states[|actions|].procs[p].pc)
    requires states[|actions|].procs[p].pc.claim.phase != SigningPhase
    ensures states[|actions|].procs[p].pc.claim.transaction.Some?
  {
    hide Next, Initial, ProtocolInv, Inv, StoreProofs.StoreInv, LedgerProofs.LedgerInv;
    Theorems.RunParts(cfg, states, actions, |actions|);
    Theorems.ClaimOf(cfg, states[|actions|], p);
  }

  /** A terminal statement is one step. */
  lemma SettlesNext(cfg: Config, s: State, p: string, pc: Pc, succeeded: bool, reason: string, journalId: string, delay: nat, t: State)
    requires p in s.procs && s.procs[p].pc == pc && Concludes(pc, succeeded, reason) && journalId !in s.db.journals && delay > 0
    requires t == Goto(s, p, Idle).(db := FinalizeRow(s.db, pc.claim, succeeded, reason, journalId))
    ensures WorkNext(cfg, s, p, FinishConfirmation(journalId, delay), t)
  {
    hide FinalizeRow;
  }

  lemma PayoutTerminal(db: Db, claim: Claim, succeeded: bool, reason: string, journalId: string)
    requires claim.table == PayoutTable
    ensures FinalizeRow(db, claim, succeeded, reason, journalId) == Payouts.Finalize(db, claim, succeeded, reason, journalId).0
  {
    hide Payouts.Finalize;
  }

  lemma SweepTerminal(db: Db, claim: Claim, succeeded: bool, reason: string, journalId: string)
    requires claim.table == SweepTable
    ensures FinalizeRow(db, claim, succeeded, reason, journalId)
         == if claim.id in db.sweeps && HeldLive(db.sweeps[claim.id].job, claim, db.now)
            then WithJob(db, SweepTable, claim.id, Finish(db.sweeps[claim.id].job, succeeded, reason)) else db
  {
  }

  /** The conclusions of a confirmation and the terminal statements they call for. */
  predicate Concludes(pc: Pc, succeeded: bool, reason: string) {
    || (pc.SawSucceeded? && succeeded && reason == "")
    || (pc.SawFailed? && !succeeded && reason == "execution_failed")
    || (pc.SawExpired? && !succeeded && reason == "expired_not_found")
  }

  /** One submission, first or repeated, is one step. */
  lemma SubmitsNext(cfg: Config, s: State, p: string, pc: Pc, delivery: Delivery, t: State)
    requires p in s.procs && s.procs[p].pc == pc && (pc.BroadcastClaimed? || pc.Rebroadcasting?) && pc.claim.transaction.Some?
    requires
      var (chain, acknowledged) := Gateway.Submit(s.chain, pc.claim.transaction.value, delivery);
      t == Goto(s, p, AfterSubmit(pc, acknowledged)).(chain := chain)
    ensures WorkNext(cfg, s, p, WorkAction.Broadcast(delivery), t)
  {
    hide Gateway.Submit;
  }

  function AfterSubmit(pc: Pc, acknowledged: bool): Pc
    requires pc.BroadcastClaimed? || pc.Rebroadcasting?
  {
    if pc.BroadcastClaimed? then BroadcastDone(pc.claim, if acknowledged then Accepted else Unknown)
    else Releasing(pc.claim, if acknowledged then "" else "rebroadcast_error")
  }

  lemma ReleasesNext(cfg: Config, s: State, p: string, claim: Claim, code: string, delay: nat, t: State)
    requires p in s.procs && s.procs[p].pc == Releasing(claim, code) && delay > 0
    requires t == Goto(s, p, Idle).(db := ReleaseRow(s.db, claim, delay, code))
    ensures WorkNext(cfg, s, p, FinishConfirmation("", delay), t)
  {
    hide ReleaseRow;
  }

  lemma BeginsNext(cfg: Config, s: State, p: string, claim: Claim, result: BroadcastResult, t: State)
    requires p in s.procs && s.procs[p].pc == BroadcastDone(claim, result)
    requires t == Goto(s, p, Idle).(db := BroadcastFinished(s.db, claim, result))
    ensures WorkNext(cfg, s, p, FinishBroadcast, t)
  {
    hide BroadcastFinished;
  }

  function WorkOf(a: Action): Option<WorkAction> {
    if a.Work? then Some(a.work) else None
  }

  function ScanOf(a: Action): Option<ScanAction> {
    if a.Scan? then Some(a.scan) else None
  }

  function CaptureOf(a: Action): Option<CaptureAction> {
    if a.Capture? then Some(a.capture) else None
  }

  /** The calls of one worker, in order. */
  ghost function Own<T>(actions: seq<Action>, p: string, call: Action -> Option<T>): seq<T> {
    if actions == [] then []
    else
      var last := actions[|actions| - 1];
      Own(actions[..|actions| - 1], p, call) + (if ActorOf(last) == Some(p) && call(last).Some? then [call(last).value] else [])
  }

  lemma OwnStep<T>(actions: seq<Action>, p: string, call: Action -> Option<T>, a: Action)
    requires ActorOf(a) == Some(p) && call(a).Some?
    ensures Own(actions + [a], p, call) == Own(actions, p, call) + [call(a).value]
  {
    assert (actions + [a])[..|actions|] == actions;
  }

  lemma {:induction false} OwnOthers<T>(actions: seq<Action>, more: seq<Action>, p: string, call: Action -> Option<T>)
    requires actions <= more && forall k :: |actions| <= k < |more| ==> ActorOf(more[k]) != Some(p)
    ensures Own(more, p, call) == Own(actions, p, call)
    decreases |more|
  {
    if |actions| == |more| {
      assert actions == more;
    } else {
      OwnOthers(actions, more[..|more| - 1], p, call);
    }
  }

  // ---------- the execution worker ----------

  /** The calls of one confirmation: read, maybe the head, maybe a rebroadcast, then exactly one statement on the row. */
  predicate ConfirmationCalls(calls: seq<WorkAction>) {
    && 2 <= |calls| <= 4 && calls[0].ReadTransaction? && calls[|calls| - 1].FinishConfirmation?
    && (|calls| >= 3 <==> calls[0].answer.Some? && calls[0].answer.value.status == NotFound)
    && (|calls| >= 3 ==> calls[1].ReadHead?)
    && (|calls| == 4 ==> calls[1].reachable && calls[2].Broadcast?)
  }

  predicate MissingCalls(calls: seq<WorkAction>) {
    && 2 <= |calls| <= 3 && calls[0].ReadHead? && calls[|calls| - 1].FinishConfirmation?
    && (|calls| == 3 ==> calls[0].reachable && calls[1].Broadcast?)
  }

  predicate BroadcastCalls(calls: seq<WorkAction>) {
    |calls| == 2 && calls[0].Broadcast? && calls[1].FinishBroadcast?
  }

  predicate ClaimCall(x: WorkAction, table: Table, phase: Phase) {
    x.ClaimRow? && x.table == table && x.phase == phase
  }

  /** Every row of the table in the phase's status is locked, is leased to somebody, or is not due yet. */
  ghost predicate Exhausted(db: Db, table: Table, phase: Phase, locked: set<string>) {
    forall id :: HasRow(db, table, id) && id !in locked && InPhase(RowJob(db, table, id), phase) ==>
      var job := RowJob(db, table, id);
      (job.lease.Some? && db.now < job.lease.value.until) || (phase == ConfirmationPhase && db.now < job.nextConfirmation)
  }

  /** What a verdict makes of its row, when the claim may still settle it. */
  ghost predicate VerdictMade(was: Db, db: Db, c: Lease.Claim, succeeded: bool, reason: string) {
    && (MaySettle(was, c, succeeded) ==> if succeeded then Settled(was, db, c.id) else Released(was, db, c.id, reason))
    && (c.table == SweepTable && c.id in was.sweeps && was.sweeps[c.id].job.status == Confirming && Live(was.sweeps[c.id].job, c, was.now) ==>
          OnlyRow(was, db, SweepTable, c.id,
                  was.sweeps[c.id].job.(status := if succeeded then Succeeded else Failed, failureReason := reason, lastError := "", lease := None)))
  }

  /** Without a verdict the row is due again after delay, when the claim still holds it. */
  ghost predicate GivenBack(was: Db, db: Db, c: Lease.Claim, delay: nat, code: string) {
    MayRelease(was, c) ==> DueAgain(was, db, c, delay, code)
  }

  /** The same after the transaction was submitted again. */
  ghost predicate Resent(was: Db, db: Db, c: Lease.Claim, delay: nat) {
    GivenBack(was, db, c, delay, "") || GivenBack(was, db, c, delay, "rebroadcast_error")
  }

  /** What a missing transaction makes of its row: expired from the head's timestamp on, otherwise due again. */
  ghost predicate MissingMade(was: Db, db: Db, c: Lease.Claim, head: Option<Header>, delay: nat)
    requires c.transaction.Some?
  {
    match head
    case None => GivenBack(was, db, c, delay, "node_error")
    case Some(h) =>
      if c.transaction.value.payload.expiresAt <= h.timestamp then VerdictMade(was, db, c, false, "expired_not_found")
      else Resent(was, db, c, delay)
  }

  /** What the node's answer makes of its row. */
  ghost predicate ConfirmationMade(was: Db, db: Db, c: Lease.Claim, answer: Option<TransactionState>, head: Option<Header>, delay: nat)
    requires c.transaction.Some?
  {
    match answer
    case None => GivenBack(was, db, c, delay, "node_error")
    case Some(TransactionState(TransactionSucceeded, true)) => VerdictMade(was, db, c, true, "")
    case Some(TransactionState(TransactionFailed, true)) => VerdictMade(was, db, c, false, "execution_failed")
    case Some(TransactionState(NotFound, _)) => MissingMade(was, db, c, head, delay)
    case Some(_) => GivenBack(was, db, c, delay, "")
  }

  class ExecutionWorker {
    const world: World
    const name: string
    const workerId: string
    const table: Table
    const leaseDuration: nat
    const confirmationInterval: nat
    var preferConfirmation: bool

    constructor (world: World, name: string, workerId: string, table: Table, leaseDuration: nat, confirmationInterval: nat)
      ensures this.world == world && this.name == name && this.workerId == workerId && this.table == table && !preferConfirmation
      ensures this.leaseDuration == leaseDuration && this.confirmationInterval == confirmationInterval
    {
      this.world, this.name, this.workerId, this.table := world, name, workerId, table;
      this.leaseDuration, this.confirmationInterval, this.preferConfirmation := leaseDuration, confirmationInterval, false;
    }

    ghost predicate Ready()
      reads this, world, world.db, world.signer, world.node
    {
      world.Valid() && name in world.procs && world.procs[name].worker == workerId && leaseDuration > 0 && confirmationInterval > 0
    }

    /** The history of the world, as far as this worker's own calls go. */
    ghost function Calls(): seq<WorkAction>
      reads this, world
    {
      Own(world.actions, name, WorkOf)
    }

    /** One claiming statement. */
    method Claim(phase: Phase, locked: set<string>) returns (claim: Option<Lease.Claim>)
      requires Ready() && world.Stands(name, Idle)
      modifies world.Objects()
      ensures Ready()
      ensures claim.None? ==> world.Stands(name, Idle) && world.states == old(world.states) && Calls() == old(Calls()) && Exhausted(world.db.View(), table, phase, locked)
      ensures claim.Some? ==>
                && claim.value.phase == phase && claim.value.table == table && world.Stands(name, ClaimedPc(claim.value))
                && Calls() == old(Calls()) + [ClaimRow(table, claim.value.id, phase, leaseDuration)]
    {
      ghost var was := world.Now();
      claim := world.db.ClaimNext(world.cfg, table, phase, workerId, leaseDuration, locked);
      if claim.Some? {
        ghost var x := ClaimRow(table, claim.value.id, phase, leaseDuration);
        OwnStep(world.actions, name, WorkOf, Work(name, x));
        world.Step(name, x, ClaimedPc(claim.value), [claim.value]);
      }
    }

    /** The rest of the system runs between two calls. */
    method Pause(ghost pc: Pc)
      requires Ready() && world.Stands(name, pc)
      modifies world.Objects()
      ensures Ready() && world.Stands(name, pc) && Calls() == old(Calls()) && old(world.states) <= world.states
    {
      ghost var before := world.actions;
      world.Others(name);
      OwnOthers(before, world.actions, name, WorkOf);
    }

    lemma Carries(claim: Lease.Claim, pc: Pc)
      requires Ready() && world.Stands(name, pc) && HasClaim(pc) && pc.claim == claim && claim.phase != SigningPhase
      ensures claim.transaction.Some?
    {
      hide Run;
      ClaimCarries(world.cfg, world.states, world.actions, name);
    }

    /** broadcast: submit the stored transaction, whatever comes back begin the confirmation. */
    method Broadcast(claim: Lease.Claim)
      requires Ready() && claim.phase == BroadcastPhase && world.Stands(name, BroadcastClaimed(claim))
      modifies world.Objects()
      ensures Ready() && world.Stands(name, Idle)
      ensures exists calls :: BroadcastCalls(calls) && Calls() == old(Calls()) + calls
    {
      hide World.Valid, Own;
      ghost var start := Calls();
      Pause(BroadcastClaimed(claim));
      Carries(claim, BroadcastClaimed(claim));
      var result := Submit(claim, BroadcastClaimed(claim));
      Pause(BroadcastDone(claim, result));
      Begin(claim, result);
      ghost var calls := Calls()[|start|..];
      assert BroadcastCalls(calls) && Calls() == start + calls;
    }

    method Begin(claim: Lease.Claim, result: BroadcastResult)
      requires Ready() && world.Stands(name, BroadcastDone(claim, result))
      modifies world.Objects()
      ensures Ready() && world.Stands(name, Idle)
      ensures Calls() == old(Calls()) + [FinishBroadcast]
    {
      hide Run, Own, ValidChain, JournalsUnique, WorkNext;
      ghost var s := world.Now();
      var done := world.db.BeginConfirmation(claim, result);
      OwnStep(world.actions, name, WorkOf, Work(name, FinishBroadcast));
      BeginsNext(world.cfg, s, name, claim, result, Goto(s, name, Idle).(db := world.db.View()));
      assert world.log + [] == world.log;
      world.Step(name, FinishBroadcast, Idle, []);
    }

    /** One submission to the node. */
    method Submit(claim: Lease.Claim, ghost pc: Pc) returns (result: BroadcastResult)
      requires Ready() && world.Stands(name, pc) && claim.transaction.Some?
      requires pc == BroadcastClaimed(claim) || pc == Rebroadcasting(claim)
      modifies world.Objects()
      ensures Ready()
      ensures world.Stands(name, if pc.BroadcastClaimed? then BroadcastDone(claim, result)
                                 else Releasing(claim, if result == Accepted then "" else "rebroadcast_error"))
      ensures |Calls()| == |old(Calls())| + 1 && Calls()[..|old(Calls())|] == old(Calls()) && Calls()[|old(Calls())|].Broadcast?
    {
      hide Run, Own, JournalsUnique, ValidChain, WorkNext, Gateway.Submit;
      ghost var s := world.Now();
      ghost var delivery := world.node.NextDelivery();
      var error := world.node.Broadcast(claim.transaction.value);
      result := if error.None? then Accepted else Unknown;
      ghost var x := WorkAction.Broadcast(delivery);
      OwnStep(world.actions, name, WorkOf, Work(name, x));
      ghost var next := AfterSubmit(pc, error.None?);
      SubmitsNext(world.cfg, s, name, pc, delivery, Goto(s, name, next).(chain := world.node.View()));
      assert world.log + [] == world.log;
      world.Step(name, x, next, []);
    }

    /** The last call of a confirmation: settle the row as succeeded or failed. */
    method Settle(claim: Lease.Claim, ghost pc: Pc, succeeded: bool, reason: string)
      requires Ready() && world.Stands(name, pc) && Concludes(pc, succeeded, reason) && pc.claim == claim
      modifies world.Objects()
      ensures Ready() && world.Stands(name, Idle)
      ensures exists x: WorkAction :: x.FinishConfirmation? && Calls() == old(Calls()) + [x]
      ensures VerdictMade(old(world.db.View()), world.db.View(), claim, succeeded, reason)
    {
      hide Run, Own, ValidChain, JournalsUnique, WorkNext, Payouts.Finalize, FinalizeRow, VerdictMade;
      ghost var s := world.Now();
      world.Current();
      var journalId := world.db.NewJournalId();
      if claim.table == PayoutTable {
        var outcome := world.payouts.FinalizeConfirmation(claim, succeeded, reason, journalId);
        PayoutTerminal(s.db, claim, succeeded, reason, journalId);
      } else {
        var done := world.db.FinalizeSweep(claim, succeeded, reason);
        SweepTerminal(s.db, claim, succeeded, reason, journalId);
      }
      ghost var x := FinishConfirmation(journalId, confirmationInterval);
      OwnStep(world.actions, name, WorkOf, Work(name, x));
      SettlesNext(world.cfg, s, name, pc, succeeded, reason, journalId, confirmationInterval, Goto(s, name, Idle).(db := world.db.View()));
      assert world.log + [] == world.log;
      world.Step(name, x, Idle, []);
      Verdicts(s, pc, succeeded, reason, x);
    }

    /** The step just made from a verdict moved the row and its amount accordingly. */
    lemma Verdicts(s: State, pc: Pc, succeeded: bool, reason: string, x: WorkAction)
      requires Ready() && |world.actions| > 0 && world.states[|world.actions| - 1] == s && world.actions[|world.actions| - 1] == Work(name, x)
      requires name in s.procs && s.procs[name].pc == pc && Concludes(pc, succeeded, reason) && x.FinishConfirmation?
      ensures VerdictMade(s.db, world.db.View(), pc.claim, succeeded, reason)
    {
      hide Linked, Initial, Settled, Released, MaySettle;
      var k := |world.actions| - 1;
      if MaySettle(s.db, pc.claim, succeeded) {
        VerdictLands(world.cfg, world.states, world.actions, k, name, x.journalId, x.delay);
      }
      if pc.claim.table == SweepTable {
        SweepVerdict(world.cfg, world.states, world.actions, k, name, x.journalId, x.delay);
      }
    }

    /** Or give the row back for a later confirmation. */
    method Release(claim: Lease.Claim, code: string)
      requires Ready() && world.Stands(name, Releasing(claim, code)) && claim.phase == ConfirmationPhase
      modifies world.Objects()
      ensures Ready() && world.Stands(name, Idle)
      ensures exists x: WorkAction :: x.FinishConfirmation? && Calls() == old(Calls()) + [x]
      ensures GivenBack(old(world.db.View()), world.db.View(), claim, confirmationInterval, code)
    {
      hide Run, Own, ValidChain, JournalsUnique, WorkNext, ReleaseRow;
      ghost var s := world.Now();
      var done := world.db.ReleaseConfirmation(claim, confirmationInterval, code);
      ghost var x := FinishConfirmation("", confirmationInterval);
      OwnStep(world.actions, name, WorkOf, Work(name, x));
      ReleasesNext(world.cfg, s, name, claim, code, confirmationInterval, Goto(s, name, Idle).(db := world.db.View()));
      assert world.log + [] == world.log;
      world.Step(name, x, Idle, []);
    }

    /** First the transaction is read ... */
    method ReadTransaction(claim: Lease.Claim) returns (answer: Option<TransactionState>, ghost readAt: nat)
      requires Ready() && world.Stands(name, ConfirmClaimed(claim)) && claim.transaction.Some?
      modifies world.Objects()
      ensures Ready() && world.Stands(name, AfterRead(claim, answer, readAt))
      ensures Calls() == old(Calls()) + [WorkAction.ReadTransaction(answer)]
    {
      var reply := world.node.Transaction(claim.transaction.value.id);
      answer := if reply.Ok? then Some(reply.value.state) else None;
      readAt := world.node.solidified;
      ghost var x := WorkAction.ReadTransaction(answer);
      OwnStep(world.actions, name, WorkOf, Work(name, x));
      world.Step(name, x, AfterRead(claim, answer, readAt), []);
    }

    /** ... and only then the solidified head. */
    method ReadHead(claim: Lease.Claim, ghost readAt: nat) returns (head: Option<Header>)
      requires Ready() && world.Stands(name, SawNotFound(claim, readAt)) && claim.transaction.Some?
      modifies world.Objects()
      ensures Ready() && world.Stands(name, AfterHead(claim, claim.transaction.value.payload.expiresAt, head))
      ensures Calls() == old(Calls()) + [WorkAction.ReadHead(head.Some?)]
    {
      var reply := world.node.SolidifiedHead();
      head := if reply.Ok? then Some(reply.value) else None;
      ghost var x := WorkAction.ReadHead(head.Some?);
      OwnStep(world.actions, name, WorkOf, Work(name, x));
      world.Step(name, x, AfterHead(claim, claim.transaction.value.payload.expiresAt, head), []);
    }

    /** confirm; was is the database its last statement met. */
    method Confirm(claim: Lease.Claim) returns (ghost answer: Option<TransactionState>, ghost head: Option<Header>, ghost was: Db)
      requires Ready() && claim.phase == ConfirmationPhase && world.Stands(name, ConfirmClaimed(claim))
      modifies world.Objects()
      ensures Ready() && world.Stands(name, Idle)
      ensures exists calls :: ConfirmationCalls(calls) && Calls() == old(Calls()) + calls && calls[0] == WorkAction.ReadTransaction(answer)
      ensures claim.transaction.Some? && ConfirmationMade(was, world.db.View(), claim, answer, head, confirmationInterval)
    {
      hide World.Valid, Own, VerdictMade, GivenBack, MissingMade, HonestRead, Linked;
      Pause(ConfirmClaimed(claim));
      Carries(claim, ConfirmClaimed(claim));
      ghost var start := Calls();
      var reply: Option<TransactionState>;
      ghost var readAt: nat;
      reply, readAt := ReadTransaction(claim);
      answer, head := reply, None;
      Pause(AfterRead(claim, reply, readAt));
      ghost var calls;
      if reply.Some? && reply.value.status == NotFound {
        head, was := ConfirmMissing(claim, readAt);
      } else {
        was := Conclude(claim, reply, readAt);
      }
      calls := [WorkAction.ReadTransaction(answer)] + Calls()[|start| + 1..];
      assert ConfirmationCalls(calls) && Calls() == start + calls;
    }

    /** The answer decides alone. */
    method Conclude(claim: Lease.Claim, answer: Option<TransactionState>, ghost readAt: nat) returns (ghost was: Db)
      requires Ready() && claim.phase == ConfirmationPhase && world.Stands(name, AfterRead(claim, answer, readAt)) && claim.transaction.Some?
      requires answer.None? || answer.value.status != NotFound
      modifies world.Objects()
      ensures Ready() && world.Stands(name, Idle)
      ensures exists x: WorkAction :: x.FinishConfirmation? && Calls() == old(Calls()) + [x]
      ensures ConfirmationMade(was, world.db.View(), claim, answer, None, confirmationInterval)
    {
      hide World.Valid, Own, VerdictMade, GivenBack, MissingMade;
      was := world.db.View();
      if answer.None? {
        Release(claim, "node_error");
      } else if answer.value.solidified && answer.value.status == TransactionSucceeded {
        Settle(claim, SawSucceeded(claim), true, "");
      } else if answer.value.solidified && answer.value.status == TransactionFailed {
        Settle(claim, SawFailed(claim), false, "execution_failed");
      } else {
        Release(claim, "");
      }
    }

    /** The transaction is missing: expire safely, or send the same transaction again. */
    method ConfirmMissing(claim: Lease.Claim, ghost readAt: nat) returns (ghost head: Option<Header>, ghost was: Db)
      requires Ready() && claim.phase == ConfirmationPhase && world.Stands(name, SawNotFound(claim, readAt)) && claim.transaction.Some?
      modifies world.Objects()
      ensures Ready() && world.Stands(name, Idle)
      ensures exists tail :: MissingCalls(tail) && Calls() == old(Calls()) + tail && tail[0] == WorkAction.ReadHead(head.Some?)
      ensures MissingMade(was, world.db.View(), claim, head, confirmationInterval)
    {
      hide World.Valid, Own, VerdictMade, GivenBack, HonestRead, Linked, MaySettle, Settled, Released;
      ghost var start := Calls();
      var reply := ReadHead(claim, readAt);
      head := reply;
      Pause(AfterHead(claim, claim.transaction.value.payload.expiresAt, reply));
      was := world.db.View();
      ghost var read := WorkAction.ReadHead(head.Some?);
      if reply.Some? && reply.value.timestamp < claim.transaction.value.payload.expiresAt {
        was := Rebroadcast(claim);
        ghost var x, y := Calls()[|start| + 1], Calls()[|start| + 2];
        assert MissingCalls([read, x, y]) && Calls() == start + [read, x, y];
        return;
      }
      if reply.None? {
        Release(claim, "node_error");
      } else {
        Settle(claim, SawExpired(claim), false, "expired_not_found");
      }
      ghost var x := Calls()[|start| + 1];
      assert MissingCalls([read, x]) && Calls() == start + [read, x];
    }

    method Rebroadcast(claim: Lease.Claim) returns (ghost was: Db)
      requires Ready() && world.Stands(name, Rebroadcasting(claim)) && claim.transaction.Some? && claim.phase == ConfirmationPhase
      modifies world.Objects()
      ensures Ready() && world.Stands(name, Idle)
      ensures exists x: WorkAction, y: WorkAction :: x.Broadcast? && y.FinishConfirmation? && Calls() == old(Calls()) + [x, y]
      ensures Resent(was, world.db.View(), claim, confirmationInterval)
    {
      hide Ready, World.Stands, Calls, GivenBack;
      ghost var start := Calls();
      var result := Submit(claim, Rebroadcasting(claim));
      var code := if result == Accepted then "" else "rebroadcast_error";
      Pause(Releasing(claim, code));
      was := world.db.View();
      Release(claim, code);
      assert Calls() == start + [Calls()[|start|], Calls()[|start| + 1]];
    }

    /** Claim and finish one confirmation, if there is one. */
    method TryConfirm(locked: set<string>) returns (worked: bool)
      requires Ready() && world.Stands(name, Idle)
      modifies this`preferConfirmation, world.Objects()
      ensures Ready() && world.Stands(name, Idle)
      ensures !worked ==> Calls() == old(Calls()) && preferConfirmation == old(preferConfirmation)
      ensures !worked ==> world.states == old(world.states) && Exhausted(world.db.View(), table, ConfirmationPhase, locked)
      ensures worked ==> !preferConfirmation && exists first: WorkAction, calls ::
                Calls() == old(Calls()) + [first] + calls && ClaimCall(first, table, ConfirmationPhase) && ConfirmationCalls(calls)
    {
      hide World.Valid, Own;
      var claim := Claim(ConfirmationPhase, locked);
      worked := claim.Some?;
      if worked {
        preferConfirmation := false;
        ghost var answer, head, was := Confirm(claim.value);
      }
    }

    /** Claim and finish one broadcast, if there is one. */
    method TryBroadcast(locked: set<string>) returns (worked: bool)
      requires Ready() && world.Stands(name, Idle)
      modifies this`preferConfirmation, world.Objects()
      ensures Ready() && world.Stands(name, Idle)
      ensures !worked ==> Calls() == old(Calls()) && preferConfirmation == old(preferConfirmation)
      ensures !worked ==> world.states == old(world.states) && Exhausted(world.db.View(), table, BroadcastPhase, locked)
      ensures worked ==> preferConfirmation && exists first: WorkAction, calls ::
                Calls() == old(Calls()) + [first] + calls && ClaimCall(first, table, BroadcastPhase) && BroadcastCalls(calls)
    {
      hide World.Valid, Own;
      var claim := Claim(BroadcastPhase, locked);
      worked := claim.Some?;
      if worked {
        preferConfirmation := true;
        Broadcast(claim.value);
      }
    }

    /**
     * One pass: prefer a confirmation after a broadcast, otherwise broadcast first. It makes the calls
     * of exactly one job and remembers which kind comes first next time, or it found no broadcast and
     * then no confirmation to do.
     */
    method RunOnce(preferred: set<string>, sending: set<string>, confirming: set<string>) returns (worked: bool)
      requires Ready() && world.Stands(name, Idle)
      modifies this`preferConfirmation, world.Objects()
      ensures Ready() && world.Stands(name, Idle)
      ensures !worked ==> Calls() == old(Calls()) && preferConfirmation == old(preferConfirmation)
      ensures !worked ==>
                && Exhausted(world.db.View(), table, ConfirmationPhase, confirming)
                && exists k :: 0 <= k < |world.states| && old(world.states) <= world.states[..k + 1] && Exhausted(world.states[k].db, table, BroadcastPhase, sending)
      ensures worked ==> exists first: WorkAction, calls ::
                && Calls() == old(Calls()) + [first] + calls
                && (if preferConfirmation then ClaimCall(first, table, BroadcastPhase) && BroadcastCalls(calls)
                    else ClaimCall(first, table, ConfirmationPhase) && ConfirmationCalls(calls))
    {
      hide World.Valid, Own, BroadcastCalls, ConfirmationCalls, ClaimCall;
      if preferConfirmation {
        worked := TryConfirm(preferred);
        if worked {
          return;
        }
        Pause(Idle);
      }
      worked := TryBroadcast(sending);
      if worked {
        return;
      }
      world.Current();
      assert Exhausted(world.states[|world.actions|].db, table, BroadcastPhase, sending);
      Pause(Idle);
      worked := TryConfirm(confirming);
    }
  }

  // ---------- the signing worker ----------

  lemma SignsNext(cfg: Config, s: State, p: string, claim: Claim, built: Option<SignedTransaction>, lost: bool, t: State)
    requires p in s.procs && s.procs[p].pc == SigningClaimed(claim) && FreshTransaction(s.chain, built)
    requires
      var (records, result) := Sign(cfg, s.signer, claim.request, built);
      t == Goto(s, p, if lost || result.Err? then SignerErred(claim) else SignerReturned(claim, result.value)).(signer := records)
    ensures WorkNext(cfg, s, p, CallSigner(built, lost), t)
  {
    hide Sign, FreshTransaction;
  }

  lemma CompletesNext(cfg: Config, s: State, p: string, pc: Pc, t: State)
    requires p in s.procs && s.procs[p].pc == pc && (pc.SignerReturned? || pc.SignerErred?)
    requires t == Goto(s, p, Idle).(db := SigningFinished(s.db, pc))
    ensures WorkNext(cfg, s, p, FinishSigning, t)
  {
    hide SigningFinished;
  }

  class SigningWorker {
    const world: World
    const name: string
    const workerId: string
    const table: Table
    const leaseDuration: nat

    constructor (world: World, name: string, workerId: string, table: Table, leaseDuration: nat)
      ensures this.world == world && this.name == name && this.workerId == workerId && this.table == table && this.leaseDuration == leaseDuration
    {
      this.world, this.name, this.workerId, this.table, this.leaseDuration := world, name, workerId, table, leaseDuration;
    }

    ghost predicate Ready()
      reads this, world, world.db, world.signer, world.node
    {
      world.Valid() && name in world.procs && world.procs[name].worker == workerId && leaseDuration > 0
    }

    ghost function Calls(): seq<WorkAction>
      reads this, world
    {
      Own(world.actions, name, WorkOf)
    }

    method Pause(ghost pc: Pc)
      requires Ready() && world.Stands(name, pc)
      modifies world.Objects()
      ensures Ready() && world.Stands(name, pc) && Calls() == old(Calls()) && old(world.states) <= world.states
    {
      ghost var before := world.actions;
      world.Others(name);
      OwnOthers(before, world.actions, name, WorkOf);
    }

    method Claim(locked: set<string>) returns (claim: Option<Lease.Claim>)
      requires Ready() && world.Stands(name, Idle)
      modifies world.Objects()
      ensures Ready()
      ensures claim.None? ==> world.Stands(name, Idle) && Calls() == old(Calls()) && Exhausted(world.db.View(), table, SigningPhase, locked)
      ensures claim.Some? ==>
                && claim.value.phase == SigningPhase && claim.value.table == table && world.Stands(name, SigningClaimed(claim.value))
                && Calls() == old(Calls()) + [ClaimRow(table, claim.value.id, SigningPhase, leaseDuration)]
    {
      claim := world.db.ClaimNext(world.cfg, table, SigningPhase, workerId, leaseDuration, locked);
      if claim.Some? {
        ghost var x := ClaimRow(table, claim.value.id, SigningPhase, leaseDuration);
        OwnStep(world.actions, name, WorkOf, Work(name, x));
        world.Step(name, x, SigningClaimed(claim.value), [claim.value]);
      }
    }

    /** The signer's answer may be lost after it was stored. */
    method Sign(claim: Lease.Claim, lost: bool) returns (tx: Option<SignedTransaction>)
      requires Ready() && world.Stands(name, SigningClaimed(claim))
      modifies world.Objects()
      ensures Ready() && world.Stands(name, if tx.Some? then SignerReturned(claim, tx.value) else SignerErred(claim))
      ensures exists x: WorkAction :: x.CallSigner? && Calls() == old(Calls()) + [x]
    {
      hide Run, Own, ValidChain, JournalsUnique, WorkNext, Signer.Sign, FreshTransaction;
      ghost var s := world.Now();
      var built := world.Build(claim.request);
      var result := world.service.SignTransfer(claim.request, built);
      tx := if lost || result.Err? then None else Some(result.value);
      ghost var next := if lost || result.Err? then SignerErred(claim) else SignerReturned(claim, result.value);
      ghost var x := CallSigner(built, lost);
      OwnStep(world.actions, name, WorkOf, Work(name, x));
      SignsNext(world.cfg, s, name, claim, built, lost, Goto(s, name, next).(signer := world.signer.records));
      assert world.log + [] == world.log;
      world.Step(name, x, next, []);
    }

    method Finish(claim: Lease.Claim, tx: Option<SignedTransaction>)
      requires Ready() && world.Stands(name, if tx.Some? then SignerReturned(claim, tx.value) else SignerErred(claim))
      modifies world.Objects()
      ensures Ready() && world.Stands(name, Idle) && Calls() == old(Calls()) + [FinishSigning]
    {
      hide Run, Own, ValidChain, JournalsUnique, WorkNext, SigningFinished;
      ghost var s := world.Now();
      if tx.Some? {
        var done := world.db.CompleteSigning(claim, tx.value);
      } else {
        var done := world.db.ReleaseSigning(claim);
      }
      OwnStep(world.actions, name, WorkOf, Work(name, FinishSigning));
      CompletesNext(world.cfg, s, name, s.procs[name].pc, Goto(s, name, Idle).(db := world.db.View()));
      assert world.log + [] == world.log;
      world.Step(name, FinishSigning, Idle, []);
    }

    /** One pass: claim, ask the signer, then complete with its transaction or release the row. */
    method RunOnce(locked: set<string>, lost: bool) returns (worked: bool)
      requires Ready() && world.Stands(name, Idle)
      modifies world.Objects()
      ensures Ready() && world.Stands(name, Idle)
      ensures !worked ==> Calls() == old(Calls()) && Exhausted(world.db.View(), table, SigningPhase, locked)
      ensures worked ==> exists first: WorkAction, x: WorkAction ::
                ClaimCall(first, table, SigningPhase) && x.CallSigner? && Calls() == old(Calls()) + [first, x, FinishSigning]
    {
      hide World.Valid, Own;
      ghost var start := Calls();
      var claim := Claim(locked);
      if claim.None? {
        return false;
      }
      Pause(SigningClaimed(claim.value));
      var tx := Sign(claim.value, lost);
      Pause(if tx.Some? then SignerReturned(claim.value, tx.value) else SignerErred(claim.value));
      Finish(claim.value, tx);
      ghost var first, x := Calls()[|start|], Calls()[|start| + 1];
      assert ClaimCall(first, table, SigningPhase) && x.CallSigner? && Calls() == start + [first, x, FinishSigning];
      return true;
    }
  }
}
