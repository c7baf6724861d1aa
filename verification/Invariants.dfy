// The invariant of the whole gateway, and that every step keeps it.
module Invariants {
  import opened Sums
  import opened Chain
  import opened Lease
  import opened Ledger
  import opened Tables
  import opened Gateway
  import opened LedgerProofs
  import opened RowProofs
  import opened RowSteps
  import opened StoreProofs
  import opened DepositProofs
  import opened Protocol
  import opened ProtocolSteps
  import opened IndexProofs
  import opened Frames
  import opened SweepProofs
  import Sweeps
  import Indexer
  import Payouts
  import Deposits
  import Wallets

  ghost predicate Inv(cfg: Config, s: State) {
    && StoreInv(cfg, s.db)
    && ProtocolInv(cfg, s)
    && PhasesAgree(s.procs)
    && IndexInv(s.db, s.chain)
    && ScansSound(s.db, s.chain, s.procs)
    && SweepInv(cfg, s.db.events, s.db.sweeps)
  }

  lemma StoreParts(cfg: Config, db: Db)
    requires StoreInv(cfg, db)
    ensures LedgerInv(db) && Shaped(db) && EventsPositive(db.events)
  {
  }

  lemma ProtocolParts(cfg: Config, s: State)
    requires ProtocolInv(cfg, s)
    ensures ValidChain(s.chain) && s.chain.network == cfg.network && ChainGrows(s.chain, s.chain)
  {
    ChainSame(s.chain);
  }

  lemma ProgressParts(cfg: Config, s: State, t: State)
    requires Progress(cfg, s, t)
    ensures ChainGrows(s.chain, t.chain) && RowsAdvance(cfg, s.db, t.db)
  {
  }

  /** Steps that leave the scanners' tables alone and move one worker outside scanning. */
  lemma ScansUndisturbed(cfg: Config, s: State, t: State)
    requires IndexInv(s.db, s.chain) && ScansSound(s.db, s.chain, s.procs) && ChainGrows(s.chain, t.chain)
    requires ScansUntouched(s.db, t.db)
    requires forall p :: p in t.procs ==> (p in s.procs && t.procs[p].pc == s.procs[p].pc) || !ScanPc(t.procs[p].pc)
    ensures IndexInv(t.db, t.chain) && ScansSound(t.db, t.chain, t.procs)
  {
    hide IndexInv, ChainGrows, ScanSound;
    IndexStays(s.db, t.db, s.chain, t.chain);
    ScansStay(s.db, t.db, s.chain, t.chain, s.procs);
    forall p | p in t.procs ensures ScanSound(t.db, t.chain, t.procs[p].pc) {
      if !(p in s.procs && t.procs[p].pc == s.procs[p].pc) {
        OtherPc(t.db, t.chain, t.procs[p].pc);
      }
    }
  }

  predicate ScanPc(pc: Pc) {
    pc.ScanBound? || pc.ScanClaimed? || pc.ScanHeaded? || pc.ScanFetched?
  }

  lemma OtherPc(db: Db, chain: Chain, pc: Pc)
    requires !ScanPc(pc)
    ensures ScanSound(db, chain, pc)
  {
  }

  // ---------- sweeps ----------

  lemma SweepStore(cfg: Config, db: Db, x: StoreAction, next: Db, change: RowChange)
    requires SweepInv(cfg, db.events, db.sweeps) && Shaped(db) && EventsPositive(db.events)
    requires StoreNext(cfg, db, x, next) && RowsChanged(db, next, change) && !change.Moving? && next.events == db.events
    ensures SweepInv(cfg, next.events, next.sweeps)
  {
    hide SweepInv, Payouts.Create, Payouts.Review, Deposits.Match, Deposits.Expire, Deposits.CreateIntent, Sweeps.Plan;
    if x.PlanSweep? {
      PlanKeeps(cfg, db, x.plan);
    } else {
      SweepRowsSame(cfg, db, x, next);
    }
  }

  /** Only planning inserts a sweep. */
  lemma SweepRowsSame(cfg: Config, db: Db, x: StoreAction, next: Db)
    requires StoreNext(cfg, db, x, next) && !x.PlanSweep?
    ensures next.sweeps == db.sweeps
  {
    hide Payouts.Create, Payouts.Review, Deposits.Match, PostedId, PostedJournals;
    match x
    case CreatePayout(r, merchant, assetStatus, journalId) => CreateSweeps(db, r, merchant, assetStatus, journalId);
    case ReviewPayout(r, allowed, journalId) => ReviewSweeps(db, r, allowed, journalId);
    case MatchEvent(input, journalId) => MatchTables(cfg, db, input, journalId);
    case _ =>
  }

  lemma CreateSweeps(db: Db, r: Payouts.CreateRequest, merchant: Payouts.MerchantStatus, assetStatus: Payouts.AssetStatus, journalId: string)
    ensures Payouts.Create(db, r, merchant, assetStatus, journalId).0.sweeps == db.sweeps
  {
    hide PostedId, PostedJournals, Balance, Payouts.FindExisting;
  }

  lemma ReviewSweeps(db: Db, r: Payouts.ReviewRequest, allowed: bool, journalId: string)
    ensures Payouts.Review(db, r, allowed, journalId).0.sweeps == db.sweeps
  {
    hide PostedId, PostedJournals, Balance;
  }

  lemma SweepWork(cfg: Config, s: State, t: State, change: RowChange)
    requires SweepInv(cfg, s.db.events, s.db.sweeps) && Shaped(s.db) && RowsChanged(s.db, t.db, change)
    requires t.db.events == s.db.events && (change == NoRow || change.Moving?)
    ensures SweepInv(cfg, t.db.events, t.db.sweeps)
  {
    hide SweepInv;
    MovedKeeps(cfg, s.db.events, s.db.sweeps, t.db.sweeps, change);
  }

  /** A commit adds event rows and changes none. */
  lemma EventsGrow(db: Db, chain: Chain, proc: Proc, x: ScanAction, next: Db, reached: Pc)
    requires ScanNext(db, chain, proc, x, next, reached)
    ensures forall key :: key in db.events ==> key in next.events && next.events[key] == db.events[key]
  {
    hide Indexer.EventsValid, Indexer.BlockContinues;
  }

  lemma StoreActionInv(cfg: Config, s: State, x: StoreAction, t: State)
    requires Inv(cfg, s) && StoreNext(cfg, s.db, x, t.db) && t == s.(db := t.db)
    ensures Inv(cfg, t) && Progress(cfg, s, t)
  {
    hide SweepInv, StoreInv, ProtocolInv, IndexInv, ScansSound, StoreNext, Progress, RowsChanged, LedgerInv, PhasesAgree;
    StoreParts(cfg, s.db);
    StoreStep(cfg, s.db, x, t.db);
    var change := StoreRows(cfg, s.db, x, t.db);
    StoreProtocol(cfg, s, t, change);
    StoreFrame(cfg, s.db, x, t.db);
    SweepStore(cfg, s.db, x, t.db, change);
    ProgressParts(cfg, s, t);
    ScansUndisturbed(cfg, s, t);
  }

  lemma NetworkInv(cfg: Config, s: State, x: ChainAction, t: State)
    requires Inv(cfg, s) && ChainNext(cfg, s, x, t.chain) && t == s.(chain := t.chain)
    ensures Inv(cfg, t) && Progress(cfg, s, t)
  {
    hide SweepInv, StoreInv, ProtocolInv, IndexInv, ScansSound, ChainNext, Progress, PhasesAgree;
    NetworkProtocol(cfg, s, x, t);
    ProgressParts(cfg, s, t);
    ScansUndisturbed(cfg, s, t);
  }

  /** A worker's step moves only its own position, to one outside scanning and of its claim's phase. */
  lemma WorkMoves(cfg: Config, s: State, p: string, x: WorkAction, t: State)
    requires WorkNext(cfg, s, p, x, t)
    ensures p in s.procs && p in t.procs && t.procs == s.procs[p := s.procs[p].(pc := t.procs[p].pc)] && !ScanPc(t.procs[p].pc)
    ensures PhaseAgrees(s.procs[p].pc) ==> PhaseAgrees(t.procs[p].pc)
  {
    hide ConfirmationFinished, BroadcastFinished, SigningFinished, Submit, FreshTransaction, HonestRead, WithJob, ClaimJob;
  }

  lemma WorkInv(cfg: Config, s: State, p: string, x: WorkAction, t: State)
    requires Inv(cfg, s) && WorkNext(cfg, s, p, x, t)
    ensures Inv(cfg, t) && Progress(cfg, s, t)
  {
    hide SweepInv, StoreInv, ProtocolInv, IndexInv, ScansSound, WorkNext, Progress, LedgerInv, PhaseAgrees;
    StoreParts(cfg, s.db);
    WorkStore(cfg, s, p, x, t);
    WorkProtocol(cfg, s, p, x, t);
    WorkFrame(cfg, s, p, x, t);
    var change := WorkRows(cfg, s, p, x, t);
    SweepWork(cfg, s, t, change);
    WorkMoves(cfg, s, p, x, t);
    ProgressParts(cfg, s, t);
    ScansUndisturbed(cfg, s, t);
  }

  lemma NetworkOf(cfg: Config, s: State, pc: Pc)
    requires ScanSound(s.db, s.chain, pc) && s.chain.network == cfg.network && pc.ScanFetched?
    ensures Indexer.EventsValid(cfg.network, pc.contract, pc.block)
  {
  }

  lemma ScanInv(cfg: Config, s: State, p: string, x: ScanAction, t: State)
    requires Inv(cfg, s) && p in s.procs && p in t.procs
    requires ScanNext(s.db, s.chain, s.procs[p], x, t.db, t.procs[p].pc) && t == Goto(s, p, t.procs[p].pc).(db := t.db)
    ensures Inv(cfg, t) && Progress(cfg, s, t)
  {
    hide SweepInv, StoreInv, ProtocolInv, IndexInv, ScanNext, Progress, ScanSound, ValidChain, ChainGrows, CursorAdvances;
    ProtocolParts(cfg, s);
    assert ScanSound(s.db, s.chain, s.procs[p].pc) && PhaseAgrees(s.procs[p].pc);
    if s.procs[p].pc.ScanFetched? {
      NetworkOf(cfg, s, s.procs[p].pc);
    }
    ScanStore(cfg, s.db, s.chain, s.procs[p], x, t.db, t.procs[p].pc);
    ScanRowsStay(s.db, s.chain, s.procs[p], x, t.db, t.procs[p].pc);
    OutsideProtocol(cfg, s, p, t);
    ScanStepKeeps(s.db, s.chain, s.procs[p], x, t.db, t.procs[p].pc);
    ScansStay(s.db, t.db, s.chain, s.chain, s.procs);
    EventsGrow(s.db, s.chain, s.procs[p], x, t.db, t.procs[p].pc);
    StoreParts(cfg, t.db);
    MoreEvents(cfg, s.db.events, t.db.events, s.db.sweeps);
  }

  lemma CaptureTables(cfg: Config, db: Db, chain: Chain, pc: Pc, x: CaptureAction, next: Db, reached: Pc)
    requires CaptureNext(cfg, db, chain, pc, x, next, reached)
    ensures next == db.(snapshots := next.snapshots) && !HasClaim(reached) && !ScanPc(reached)
  {
    hide ReadableCheckpoint, Wallets.ReadCheckpoint, TokenBalance;
  }

  lemma CaptureInv(cfg: Config, s: State, p: string, x: CaptureAction, t: State)
    requires Inv(cfg, s) && p in s.procs && p in t.procs
    requires CaptureNext(cfg, s.db, s.chain, s.procs[p].pc, x, t.db, t.procs[p].pc) && t == Goto(s, p, t.procs[p].pc).(db := t.db)
    ensures Inv(cfg, t) && Progress(cfg, s, t)
  {
    hide SweepInv, StoreInv, ProtocolInv, IndexInv, ScansSound, CaptureNext, Progress, ChainGrows;
    ProtocolParts(cfg, s);
    CaptureStore(cfg, s.db, s.chain, s.procs[p].pc, x, t.db, t.procs[p].pc);
    CaptureTables(cfg, s.db, s.chain, s.procs[p].pc, x, t.db, t.procs[p].pc);
    OutsideProtocol(cfg, s, p, t);
    ScansUndisturbed(cfg, s, t);
  }

  lemma CrashInv(cfg: Config, s: State, p: string, t: State)
    requires Inv(cfg, s) && p in s.procs && t == Goto(s, p, Idle)
    ensures Inv(cfg, t) && Progress(cfg, s, t)
  {
    hide SweepInv, StoreInv, ProtocolInv, IndexInv, ScansSound, Progress, ChainGrows;
    ProtocolParts(cfg, s);
    OutsideProtocol(cfg, s, p, t);
    ScansUndisturbed(cfg, s, t);
  }

  /** Every step of every actor keeps the invariant and disturbs nobody else. */
  lemma InvStep(cfg: Config, s: State, a: Action, t: State)
    requires Inv(cfg, s) && Next(cfg, s, a, t)
    ensures Inv(cfg, t) && Progress(cfg, s, t)
  {
    hide Inv, Progress, StoreNext, ChainNext, WorkNext, ScanNext, CaptureNext;
    match a
    case Store(x) => StoreActionInv(cfg, s, x, t);
    case Network(x) => NetworkInv(cfg, s, x, t);
    case Work(p, x) => WorkInv(cfg, s, p, x, t);
    case Scan(p, x) => ScanInv(cfg, s, p, x, t);
    case Capture(p, x) => CaptureInv(cfg, s, p, x, t);
    case Crash(p) => CrashInv(cfg, s, p, t);
  }

  /** Every step changes at most one row of the leased tables; only a worker's position moves a leased row. */
  lemma StepRows(cfg: Config, s: State, a: Action, t: State) returns (change: RowChange)
    requires Inv(cfg, s) && Next(cfg, s, a, t)
    ensures RowsChanged(s.db, t.db, change)
    ensures change.Moving? ==> a.Work? && Justified(s, a.proc, change.table, change.id, change.move)
  {
    hide StoreInv, ProtocolInv, IndexInv, ScansSound, SweepInv, StoreNext, ChainNext, WorkNext, ScanNext, CaptureNext, RowsChanged, LedgerInv, PhasesAgree, Justified;
    StoreParts(cfg, s.db);
    match a
    case Store(x) => change := StoreRows(cfg, s.db, x, t.db);
    case Work(p, x) => change := WorkRows(cfg, s, p, x, t);
    case Scan(p, x) =>
      ScanRowsStay(s.db, s.chain, s.procs[p], x, t.db, t.procs[p].pc);
      change := NoRow;
      NoChange(s.db, t.db);
    case Capture(p, x) =>
      CaptureTables(cfg, s.db, s.chain, s.procs[p].pc, x, t.db, t.procs[p].pc);
      change := NoRow;
      NoChange(s.db, t.db);
    case Network(_) =>
      change := NoRow;
      NoChange(s.db, t.db);
    case Crash(_) =>
      change := NoRow;
      NoChange(s.db, t.db);
  }

  lemma NoChange(was: Db, db: Db)
    requires db.payouts == was.payouts && db.sweeps == was.sweeps
    ensures RowsChanged(was, db, NoRow)
  {
  }

  lemma EmptyLedger(db: Db)
    requires db.journals == map[] && db.payouts == map[] && db.intents == map[]
    ensures LedgerInv(db)
  {
    forall account ensures Balance(db.journals, account) == 0 {
    }
    forall m, a ensures MapSum(db.payouts, OpenAmount(m, a)) == 0 {
    }
    forall a ensures MapSum(db.payouts, SucceededAmount(a)) == 0 && MapSum(db.intents, CreditedAmount(a)) == 0 {
    }
    forall a ensures MapSum(db.accounts, LiabilityBalance(db.journals, a)) == 0 {
      MapSumZero(db.accounts, LiabilityBalance(db.journals, a));
    }
  }

  lemma EmptyDeposits(cfg: Config, db: Db)
    requires db.events == map[] && db.matches == map[] && db.intents == map[]
    ensures DepositInv(cfg, db)
  {
    forall a ensures MapSum(db.intents, MatchedByIntent(db.matches, a)) == 0 && MapSum(db.matches, MatchedOfAsset(a)) == 0 {
    }
  }

  lemma EmptySweeps(cfg: Config, db: Db)
    requires db.events == map[] && db.sweeps == map[]
    ensures SweepInv(cfg, db.events, db.sweeps)
  {
  }

  lemma InvInitial(cfg: Config, s: State)
    requires Initial(cfg, s)
    ensures Inv(cfg, s)
  {
    hide LedgerInv, DepositInv, SweepInv;
    EmptySweeps(cfg, s.db);
    EmptyLedger(s.db);
    EmptyDeposits(cfg, s.db);
  }

  /** Every state of every run satisfies the invariant. */
  lemma {:induction false} InvRun(cfg: Config, states: seq<State>, actions: seq<Action>, k: nat)
    requires Run(cfg, states, actions) && k < |states|
    ensures Inv(cfg, states[k])
  {
    hide Inv, Next, Initial;
    if k == 0 {
      InvInitial(cfg, states[0]);
    } else {
      InvRun(cfg, states, actions, k - 1);
      assert Linked(cfg, states, actions, k - 1);
      InvStep(cfg, states[k - 1], actions[k - 1], states[k]);
    }
  }
}
