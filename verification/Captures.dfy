// No false shortfall: a snapshot that a capture accepts never shows more custody on the ledger
// than the wallets held plus the payouts in flight, whatever ran between its reads.
module Captures {
  import opened Sums
  import opened Chain
  import opened Lease
  import opened Ledger
  import opened Tables
  import opened Gateway
  import opened LedgerProofs
  import opened RowSteps
  import opened SweepProofs
  import opened StoreProofs
  import opened Protocol
  import opened IndexProofs
  import opened Frames
  import opened Invariants
  import opened Finality
  import opened CustodyFlow
  import opened Reconciliation
  import opened Entries
  import Wallets
  import Indexer

  // ---------- what a capture knows ----------

  ghost predicate HeadKnown(chain: Chain, head: Header) {
    head.height <= chain.solidified && head.height < |chain.blocks| && chain.blocks[head.height].header == head
  }

  /** No custody entry was lost since the first checkpoint. */
  ghost predicate CountsFrom(db: Db, asset: string, before: Checkpoint) {
    before.entryCount <= EntryCount(db.journals, Custody(asset))
  }

  /** While the entry count is the first checkpoint's, credits are covered by deposits up to the head. */
  ghost predicate CoveredAt(cfg: Config, db: Db, chain: Chain, asset: string, before: Checkpoint, height: nat)
    requires height < |chain.blocks|
  {
    before.entryCount == EntryCount(db.journals, Custody(asset)) ==>
      CreditedSum(db.intents, asset) <= SeqSum(Flat(chain.blocks[..height + 1]), DepositIn(cfg, asset))
  }

  /** Balances read so far are those at the head, as long as the head is still the solidified one. */
  ghost predicate BalancesTrue(cfg: Config, chain: Chain, asset: string, head: Header, balances: seq<int>)
    requires head.height < |chain.blocks|
  {
    && asset in cfg.wallets && |balances| <= |cfg.wallets[asset]|
    && (chain.solidified == head.height ==>
          balances == BalancesAt(chain.blocks[..head.height + 1], asset, cfg.wallets[asset][..|balances|]))
  }

  ghost predicate CaptureSound(cfg: Config, db: Db, chain: Chain, pc: Pc) {
    && (pc.CaptureBegun? ==> pc.asset in cfg.wallets && CountsFrom(db, pc.asset, pc.before))
    && (pc.CaptureReading? ==>
          && CountsFrom(db, pc.asset, pc.before) && HeadKnown(chain, pc.head)
          && CoveredAt(cfg, db, chain, pc.asset, pc.before, pc.head.height)
          && BalancesTrue(cfg, chain, pc.asset, pc.head, pc.balances))
    && (pc.CaptureRead? ==>
          && CountsFrom(db, pc.asset, pc.before) && HeadKnown(chain, pc.head)
          && CoveredAt(cfg, db, chain, pc.asset, pc.before, pc.head.height)
          && pc.asset in cfg.wallets
          && pc.balances == BalancesAt(chain.blocks[..pc.head.height + 1], pc.asset, cfg.wallets[pc.asset]))
    && (pc.CaptureDone? ==> SnapshotSound(cfg, chain, pc.snapshot))
  }

  /** The balances are the wallets' at the head, and the ledger does not exceed them by more than what is in flight. */
  ghost predicate SnapshotSound(cfg: Config, chain: Chain, snapshot: Snapshot) {
    && HeadKnown(chain, snapshot.head) && snapshot.asset in cfg.wallets
    && snapshot.balances == BalancesAt(chain.blocks[..snapshot.head.height + 1], snapshot.asset, cfg.wallets[snapshot.asset])
    && snapshot.total == Wallets.Total(snapshot.balances)
    && !Wallets.Shortfall(snapshot)
  }

  ghost predicate CapturesSound(cfg: Config, s: State) {
    && (forall p :: p in s.procs ==> CaptureSound(cfg, s.db, s.chain, s.procs[p].pc))
    && (forall snapshot :: snapshot in s.db.snapshots ==> SnapshotSound(cfg, s.chain, snapshot))
  }

  // ---------- other steps do not disturb it ----------

  lemma HeadStays(was: Chain, chain: Chain, head: Header)
    requires ChainGrows(was, chain) && HeadKnown(was, head)
    ensures HeadKnown(chain, head) && chain.blocks[..head.height + 1] == was.blocks[..head.height + 1]
  {
    PrefixStays(was, chain, head.height + 1);
    assert chain.blocks[..head.height + 1][head.height] == was.blocks[..head.height + 1][head.height];
  }

  lemma SnapshotStays(cfg: Config, was: Chain, chain: Chain, snapshot: Snapshot)
    requires ChainGrows(was, chain) && SnapshotSound(cfg, was, snapshot)
    ensures SnapshotSound(cfg, chain, snapshot)
  {
    hide ChainGrows;
    HeadStays(was, chain, snapshot.head);
  }

  lemma CoveredStays(cfg: Config, was: Db, db: Db, before: Chain, chain: Chain, asset: string, first: Checkpoint, head: Header)
    requires EntriesGrow(was, db) && ChainGrows(before, chain) && HeadKnown(before, head) && HeadKnown(chain, head)
    requires CountsFrom(was, asset, first) && CoveredAt(cfg, was, before, asset, first, head.height)
    ensures CountsFrom(db, asset, first) && CoveredAt(cfg, db, chain, asset, first, head.height)
  {
    hide ChainGrows, CreditedSum, EntryCount;
    HeadStays(before, chain, head);
  }

  lemma CaptureStays(cfg: Config, was: Db, db: Db, before: Chain, chain: Chain, pc: Pc)
    requires EntriesGrow(was, db) && ChainGrows(before, chain) && CaptureSound(cfg, was, before, pc)
    ensures CaptureSound(cfg, db, chain, pc)
  {
    hide EntriesGrow, EntryCount, CoveredAt;
    if pc.CaptureBegun? {
      CountsStay(was, db, pc.asset, pc.before);
    }
    if pc.CaptureReading? || pc.CaptureRead? {
      HeadStays(before, chain, pc.head);
      CoveredStays(cfg, was, db, before, chain, pc.asset, pc.before, pc.head);
    }
    if pc.CaptureDone? {
      SnapshotStays(cfg, before, chain, pc.snapshot);
    }
  }

  lemma CountsStay(was: Db, db: Db, asset: string, first: Checkpoint)
    requires EntriesGrow(was, db) && CountsFrom(was, asset, first)
    ensures CountsFrom(db, asset, first)
  {
    hide EntryCount;
  }

  // ---------- the capture's own steps ----------

  lemma BeginHead(cfg: Config, s: State, asset: string, before: Checkpoint)
    requires Inv(cfg, s) && asset in cfg.wallets && CountsFrom(s.db, asset, before)
    ensures s.chain.solidified < |s.chain.blocks|
    ensures CaptureSound(cfg, s.db, s.chain, CaptureReading(asset, before, SolidifiedHead(s.chain), []))
  {
    hide Inv, EntryCount, DepositIn, ValidBlocks;
    ParsedInv(cfg, s);
    ChainParts(cfg, s);
    HeightIsIndex(s.chain.network, s.chain.blocks, s.chain.solidified);
    CreditedDeposited(cfg, s, asset);
    assert cfg.wallets[asset][..0] == [];
  }

  lemma NextBalance(cfg: Config, s: State, pc: Pc)
    requires pc.CaptureReading? && CaptureSound(cfg, s.db, s.chain, pc)
    requires |pc.balances| < |cfg.wallets[pc.asset]| && s.chain.solidified < |s.chain.blocks|
    ensures
      var amount := TokenBalance(s.chain.blocks[..s.chain.solidified + 1], pc.asset, cfg.wallets[pc.asset][|pc.balances|]);
      CaptureSound(cfg, s.db, s.chain, CaptureReading(pc.asset, pc.before, pc.head, pc.balances + [amount]))
  {
    hide EntryCount, CoveredAt, TokenBalance;
    var wallets, n := cfg.wallets[pc.asset], |pc.balances|;
    assert wallets[..n + 1][..n] == wallets[..n];
    assert wallets[..n + 1][n] == wallets[n];
  }

  lemma EndHead(cfg: Config, s: State, pc: Pc)
    requires ProtocolInv(cfg, s) && pc.CaptureReading? && CaptureSound(cfg, s.db, s.chain, pc)
    requires |pc.balances| == |cfg.wallets[pc.asset]| && s.chain.solidified < |s.chain.blocks| && SolidifiedHead(s.chain) == pc.head
    ensures CaptureSound(cfg, s.db, s.chain, CaptureRead(pc.asset, pc.before, pc.head, pc.balances))
  {
    hide ProtocolInv, EntryCount, CoveredAt, ValidBlocks;
    ChainParts(cfg, s);
    HeightIsIndex(s.chain.network, s.chain.blocks, s.chain.solidified);
    assert cfg.wallets[pc.asset][..|pc.balances|] == cfg.wallets[pc.asset];
  }

  /** The heart of reconciliation: equal checkpoints around the balance reads rule out a false shortfall. */
  lemma AcceptedSound(cfg: Config, s: State, pc: Pc)
    requires ValidConfig(cfg) && Inv(cfg, s) && FinalInv(s) && pc.CaptureRead? && CaptureSound(cfg, s.db, s.chain, pc)
    requires Wallets.ReadCheckpoint(s.db, pc.asset) == pc.before
    ensures SnapshotSound(cfg, s.chain, Snapshot(pc.asset, pc.head, pc.balances, Wallets.Total(pc.balances), pc.before))
  {
    hide Inv, FinalInv, DepositIn, CreditedAmount, Wallets.PayoutInFlight, Wallets.SweepInFlight, EntryCount, BalancesAt;
    IntervalBound(cfg, s, pc.asset, pc.head.height);
  }

  lemma ReadingWallets(cfg: Config, s: State, pc: Pc)
    requires pc.CaptureReading? && CaptureSound(cfg, s.db, s.chain, pc)
    ensures pc.asset in cfg.wallets && |pc.balances| <= |cfg.wallets[pc.asset]|
  {
  }

  /** A capture step leads to a sound position. */
  lemma CaptureReaches(cfg: Config, s: State, pc: Pc, x: CaptureAction, next: Db, reached: Pc)
    requires ValidConfig(cfg) && Inv(cfg, s) && FinalInv(s) && CaptureSound(cfg, s.db, s.chain, pc)
    requires CaptureNext(cfg, s.db, s.chain, pc, x, next, reached)
    ensures CaptureSound(cfg, s.db, s.chain, reached)
  {
    hide Inv, FinalInv, SnapshotSound, CoveredAt, HeadKnown, ReadableCheckpoint, TokenBalance, ProtocolInv, StoreInv, IndexInv, SweepInv, ValidConfig, EntryCount, BalancesTrue;
    ParsedInv(cfg, s);
    match x
    case CaptureBefore(asset) =>
    case CaptureStartHead => BeginHead(cfg, s, pc.asset, pc.before);
    case CaptureBalance =>
      ReadingWallets(cfg, s, pc);
      NextBalance(cfg, s, pc);
    case CaptureEndHead =>
      ReadingWallets(cfg, s, pc);
      if SolidifiedHead(s.chain) == pc.head {
        EndHead(cfg, s, pc);
      }
    case CaptureAfter =>
      if Wallets.ReadCheckpoint(s.db, pc.asset) == pc.before {
        AcceptedSound(cfg, s, pc);
      }
    case CaptureSave =>
  }

  /** Saved snapshots are those already saved and the one just accepted. */
  lemma SavedSound(cfg: Config, s: State, pc: Pc, x: CaptureAction, next: Db, reached: Pc)
    requires CaptureSound(cfg, s.db, s.chain, pc) && CaptureNext(cfg, s.db, s.chain, pc, x, next, reached)
    requires forall snapshot :: snapshot in s.db.snapshots ==> SnapshotSound(cfg, s.chain, snapshot)
    ensures forall snapshot :: snapshot in next.snapshots ==> SnapshotSound(cfg, s.chain, snapshot)
  {
    hide SnapshotSound, CoveredAt, HeadKnown, ReadableCheckpoint, TokenBalance;
  }

  // ---------- every step ----------

  predicate CapturePc(pc: Pc) {
    pc.CaptureBegun? || pc.CaptureReading? || pc.CaptureRead? || pc.CaptureDone?
  }

  lemma Uncaptured(cfg: Config, db: Db, chain: Chain, pc: Pc)
    requires !CapturePc(pc)
    ensures CaptureSound(cfg, db, chain, pc)
  {
  }

  lemma WorkUncaptured(cfg: Config, s: State, p: string, x: WorkAction, t: State)
    requires WorkNext(cfg, s, p, x, t)
    ensures p in t.procs && !CapturePc(t.procs[p].pc)
  {
    hide ConfirmationFinished, BroadcastFinished, SigningFinished, Submit, FreshTransaction, HonestRead, WithJob, ClaimJob;
  }

  lemma ScanUncaptured(db: Db, chain: Chain, proc: Proc, x: ScanAction, next: Db, reached: Pc)
    requires ScanNext(db, chain, proc, x, next, reached)
    ensures !CapturePc(reached)
  {
    hide Indexer.BlockContinues, Indexer.EventsValid;
  }

  lemma EntriesSame(was: Db, db: Db)
    requires db.journals == was.journals && db.intents == was.intents
    ensures EntriesGrow(was, db)
  {
    hide EntriesGrow;
    SameCredits(was, db);
  }

  lemma EntriesStep(cfg: Config, s: State, a: Action, t: State)
    requires Inv(cfg, s) && Next(cfg, s, a, t)
    ensures EntriesGrow(s.db, t.db)
    ensures t.db.snapshots == s.db.snapshots || a.Capture?
  {
    hide Inv, StoreInv, EntriesGrow, StoreNext, ChainNext, WorkNext, ScanNext, CaptureNext, LedgerInv, PhasesAgree;
    ParsedInv(cfg, s);
    StoreParts(cfg, s.db);
    Phases(cfg, s);
    match a
    case Store(x) =>
      StoreEntries(cfg, s.db, x, t.db);
      StoreFrame(cfg, s.db, x, t.db);
    case Work(p, x) =>
      WorkEntries(cfg, s, p, x, t);
      WorkFrame(cfg, s, p, x, t);
    case Scan(p, x) =>
      ScanRowsStay(s.db, s.chain, s.procs[p], x, t.db, t.procs[p].pc);
      EntriesSame(s.db, t.db);
    case Capture(p, x) =>
      CaptureTables(cfg, s.db, s.chain, s.procs[p].pc, x, t.db, t.procs[p].pc);
      EntriesSame(s.db, t.db);
    case Network(_) => EntriesSame(s.db, t.db);
    case Crash(_) => EntriesSame(s.db, t.db);
  }

  lemma Phases(cfg: Config, s: State)
    requires Inv(cfg, s)
    ensures PhasesAgree(s.procs)
  {
  }

  /** A position after a step is one of before, one outside captures, or one a capture step reached. */
  lemma Positions(cfg: Config, s: State, a: Action, t: State, p: string)
    requires Next(cfg, s, a, t) && p in t.procs
    ensures p in s.procs
    ensures t.procs[p].pc == s.procs[p].pc || !CapturePc(t.procs[p].pc) || (a.Capture? && a.proc == p)
  {
    hide StoreNext, ChainNext, WorkNext, ScanNext, CaptureNext;
    match a
    case Work(q, x) =>
      WorkMoves(cfg, s, q, x, t);
      WorkUncaptured(cfg, s, q, x, t);
    case Scan(q, x) => ScanUncaptured(s.db, s.chain, s.procs[q], x, t.db, t.procs[q].pc);
    case _ =>
  }

  lemma CapturesStep(cfg: Config, s: State, a: Action, t: State)
    requires ValidConfig(cfg) && Inv(cfg, s) && FinalInv(s) && CapturesSound(cfg, s) && Next(cfg, s, a, t)
    ensures CapturesSound(cfg, t)
  {
    hide Inv, FinalInv, CaptureSound, SnapshotSound, StoreNext, ChainNext, WorkNext, ScanNext, CaptureNext, EntriesGrow, ChainGrows, ValidConfig;
    InvStep(cfg, s, a, t);
    ProgressParts(cfg, s, t);
    EntriesStep(cfg, s, a, t);
    if a.Capture? {
      CaptureReaches(cfg, s, s.procs[a.proc].pc, a.capture, t.db, t.procs[a.proc].pc);
      CaptureStays(cfg, s.db, t.db, s.chain, t.chain, t.procs[a.proc].pc);
      SavedSound(cfg, s, s.procs[a.proc].pc, a.capture, t.db, t.procs[a.proc].pc);
    }
    forall p | p in t.procs ensures CaptureSound(cfg, t.db, t.chain, t.procs[p].pc) {
      Positions(cfg, s, a, t, p);
      if t.procs[p].pc == s.procs[p].pc {
        CaptureStays(cfg, s.db, t.db, s.chain, t.chain, s.procs[p].pc);
      } else if !CapturePc(t.procs[p].pc) {
        Uncaptured(cfg, t.db, t.chain, t.procs[p].pc);
      }
    }
    forall snapshot | snapshot in t.db.snapshots ensures SnapshotSound(cfg, t.chain, snapshot) {
      if snapshot in s.db.snapshots {
        SnapshotStays(cfg, s.chain, t.chain, snapshot);
      }
    }
  }

  lemma CapturesInitial(cfg: Config, s: State)
    requires Initial(cfg, s)
    ensures CapturesSound(cfg, s)
  {
  }

  /** No false shortfall, over every run whose expiry decisions are quiet. */
  lemma {:induction false} CapturesRun(cfg: Config, states: seq<State>, actions: seq<Action>, k: nat)
    requires Run(cfg, states, actions) && QuietRun(states, actions) && k < |states|
    ensures CapturesSound(cfg, states[k])
  {
    hide Next, FinalInv, QuietRead, CapturesSound, Inv;
    if k == 0 {
      CapturesInitial(cfg, states[0]);
    } else {
      CapturesRun(cfg, states, actions, k - 1);
      InvRun(cfg, states, actions, k - 1);
      FinalRun(cfg, states, actions, k - 1);
      assert Linked(cfg, states, actions, k - 1);
      CapturesStep(cfg, states[k - 1], actions[k - 1], states[k]);
    }
  }
}
