// One concrete run, from an empty deployment, in which a payout is paid on the chain and failed in
// the database, because a block solidified between the two reads of its confirmation.
module PaidTwice {
  import opened Prelude
  import opened Chain
  import opened Lease
  import opened Ledger
  import opened Tables
  import opened Signer
  import opened Gateway
  import opened Finality
  import Payouts
  import Deposits
  import Indexer

  // ---------- the cast ----------

  const CFG := Config("tron", "H", map["U" := ["H", "D"]], map[("U", "D") := "M"], 1000)
  const CUSTODY := Custody("U")
  const AVAILABLE := Available("M", "U")
  const FROZEN := Frozen("M", "U")
  const GENESIS := Block(Header(0, "g", "", 0), [], [])
  const DEPOSIT := Transfer(EventId("tron", "U", "d", 0), "X", "D", 5)
  const FIRST := Block(Header(1, "h1", "g", 1), [Receipt("d", ExecutionSucceeded)], [DEPOSIT])
  const PAYMENT := Transfer(EventId("tron", "U", "t", 0), "H", "Z", 5)
  const SECOND := Block(Header(2, "h2", "h1", 2), [Receipt("t", ExecutionSucceeded)], [PAYMENT])
  const REQUEST := Payouts.CreateRequest("p", "M", "U", "k", "r", "Z", "5")
  const TX := SignedTransaction("t", Payload(TransferRequest("p", "U", "H", "Z", 5), 2, "s"))
  const INTENT := Deposits.NewIntent("M", "U", "D", 5, 0, 9)
  const CREDIT := Deposits.CreditJournal("i", INTENT)
  const PAYOUT := Payout("M", "U", "k", "r", "Z", 5, "5", "j2", None, None, None, true, NewJob(PendingReview))
  const FREEZE := Payouts.FreezeJournal("p", PAYOUT)
  const REVIEW := Payouts.ReviewRequest("p", Payouts.Approve, "o", "ok")

  function Start(): State {
    State(
      Db(0, map[CUSTODY := Active, AVAILABLE := Active, FROZEN := Active], map[], map[], map[], [],
         Cursor(1, "g", 1, "g", None, None, 0), map[], map[], map[], []),
      map[], Chain("tron", [GENESIS], 0, map[]), map["w" := Proc("w", Idle)], [])
  }

  // ---------- a deposit is indexed and credited ----------

  function Deposited(): State {
    Start().(db := Start().db.(intents := map["i" := INTENT]),
             chain := Chain("tron", [GENESIS, FIRST], 1, map[]))
  }

  const SCAN := Indexer.ScanClaim("w", 1, 1, "g")

  function Scanned(): State {
    Deposited().(db := Deposited().db.(
      cursor := Cursor(1, "g", 2, "h1", Some("U"), None, 1),
      events := map[DEPOSIT.id := Indexer.RowOf(FIRST.header, DEPOSIT)]))
  }

  function CreditedDb(): Db {
    Scanned().db.(
      journals := map["j1" := CREDIT],
      intents := map["i" := INTENT.(received := 5, status := Paid, journalId := Some("j1"), credited := 5)],
      matches := map[DEPOSIT.id := MatchRow("D", Some("i"), None, 5)],
      outbox := [OutboxEvent(DepositConfirmed, "i", 5, "j1")])
  }

  // ---------- the payout up to its first confirmation ----------

  function Row(job: Job): Payout {
    PAYOUT.(review := Some(ReviewRecord("o", "ok")), screeningOpen := false, job := job)
  }

  function PaidDb(p: Payout): Db {
    CreditedDb().(journals := map["j1" := CREDIT, "j2" := FREEZE], payouts := map["p" := p])
  }

  const APPROVED := NewJob(Approved)
  const SIGNING := ClaimJob(APPROVED, SigningPhase, "w", 0, 1)
  const SIGNED := CompleteSigning(SIGNING, TX)
  const SENDING := ClaimJob(SIGNED, BroadcastPhase, "w", 0, 1)
  const SENT := BeginConfirmation(SENDING, Accepted, "broadcast_error", 0)
  const CONFIRMING := ClaimJob(SENT, ConfirmationPhase, "w", 0, 1)

  function ClaimOf(phase: Phase, epoch: nat, tx: Option<SignedTransaction>): Claim {
    Claim(PayoutTable, "p", "w", epoch, phase, TX.payload.request, tx)
  }

  const SIGNING_CLAIM := ClaimOf(SigningPhase, 1, None)
  const BROADCAST_CLAIM := ClaimOf(BroadcastPhase, 2, Some(TX))
  const CONFIRMATION_CLAIM := ClaimOf(ConfirmationPhase, 3, Some(TX))

  const KNOWN: map<string, SignerRecord> := map["p" := SignerRecord(TX.payload.request, TX)]

  function World(p: Payout, signer: Records, blocks: seq<Block>, solidified: nat, broadcasted: map<string, Payload>, pc: Pc, log: seq<Claim>): State {
    State(PaidDb(p), signer, Chain("tron", blocks, solidified, broadcasted), map["w" := Proc("w", pc)], log)
  }

  const ONE := [GENESIS, FIRST]
  const TWO := [GENESIS, FIRST, SECOND]
  const SEEN: map<string, Payload> := map["t" := TX.payload]

  function Bound(): State {
    Goto(Deposited().(db := Deposited().db.(cursor := Cursor(1, "g", 1, "g", Some("U"), None, 0))), "w", ScanBound("U"))
  }

  function Scanning(pc: Pc): State {
    Goto(Deposited().(db := Deposited().db.(cursor := Cursor(1, "g", 1, "g", Some("U"), Some(Holder("w", 1)), 1))), "w", pc)
  }

  const CLAIMED := ScanClaimed(SCAN, "U")
  const HEADED := ScanHeaded(SCAN, "U", FIRST.header)
  const FETCHED := ScanFetched(SCAN, "U", FIRST)

  function Ready(blocks: seq<Block>): State {
    World(Row(SENT), KNOWN, blocks, 1, SEEN, Idle, [SIGNING_CLAIM, BROADCAST_CLAIM])
  }

  function Confirms(solidified: nat, pc: Pc): State {
    World(Row(CONFIRMING), KNOWN, TWO, solidified, SEEN, pc, [SIGNING_CLAIM, BROADCAST_CLAIM, CONFIRMATION_CLAIM])
  }

  function Final(): State {
    var s := Confirms(2, Idle);
    var q := Payouts.Finalized(Row(CONFIRMING), false, "expired_not_found", "j3");
    s.(db := s.db.(journals := s.db.journals["j3" := Payouts.TerminalJournal("p", Row(CONFIRMING), false)],
                   payouts := map["p" := q],
                   outbox := s.db.outbox + [OutboxEvent(PayoutFailed, "p", 5, "j3")]))
  }

  // ---------- each step is a step ----------

  lemma StartInitial()
    ensures Initial(CFG, Start())
  {
    assert ValidConfig(CFG);
  }

  lemma Intend()
    ensures StoreNext(CFG, Start().db, CreateIntent("i", INTENT), Deposited().db)
  {
  }

  lemma FirstFits(s: State)
    requires s == Start().(db := Deposited().db)
    ensures ChainNext(CFG, s, AppendBlock(FIRST), s.chain.(blocks := ONE))
  {
    assert HashFresh(s.chain.blocks, "h1");
    assert BlockFits("tron", s.chain.blocks, FIRST);
    assert Permitted(CFG, s, FIRST);
    assert s.chain.blocks + [FIRST] == ONE;
  }

  lemma SecondFits(s: State)
    requires s == Ready(ONE)
    ensures ChainNext(CFG, s, AppendBlock(SECOND), s.chain.(blocks := TWO))
  {
    assert Absent(ONE, "t");
    assert BlockFits("tron", ONE, SECOND);
    SecondPermitted(s);
    assert ONE + [SECOND] == TWO;
  }

  lemma SecondPermitted(s: State)
    requires s == Ready(ONE)
    ensures Permitted(CFG, s, SECOND)
  {
    assert PaidByRequest(SEEN, PAYMENT);
  }

  lemma BindsContract(s: State)
    requires s == Deposited()
    ensures ScanNext(s.db, s.chain, s.procs["w"], ScanBind("U"), Bound().db, ScanBound("U"))
  {
  }

  lemma ClaimsCursor(s: State)
    requires s == Bound()
    ensures ScanNext(s.db, s.chain, s.procs["w"], ScanClaimCursor(1), Scanning(CLAIMED).db, CLAIMED)
  {
  }

  lemma ReadsScanHead(s: State)
    requires s == Scanning(CLAIMED)
    ensures ScanNext(s.db, s.chain, s.procs["w"], ScanReadHead(true), s.db, HEADED)
  {
  }

  lemma ReadsBlock(s: State)
    requires s == Scanning(HEADED)
    ensures ScanNext(s.db, s.chain, s.procs["w"], ScanReadBlock(true), s.db, FETCHED)
  {
    assert Indexer.EventsValid("tron", "U", FIRST);
  }

  lemma CommitsBlock(s: State)
    requires s == Scanning(FETCHED)
    ensures ScanNext(s.db, s.chain, s.procs["w"], ScanCommit, Scanned().db, Idle)
  {
    assert FIRST.transfers[..0] == [];
    assert Indexer.EventsOf("U", FIRST.header, []) == map[];
    assert Indexer.BlockEvents("U", FIRST) == map[DEPOSIT.id := Indexer.RowOf(FIRST.header, DEPOSIT)];
    assert Scanned().db.events == s.db.events + Indexer.BlockEvents("U", FIRST);
  }

  // ---------- money ----------

  lemma Matches()
    ensures Deposits.Match(CFG, Scanned().db, Deposits.MatchInput(DEPOSIT.id, Deposits.Allow, true, true, true), "j1").0 == CreditedDb()
  {
    var db := Scanned().db;
    assert db.intents["i"].asset == "U" && db.intents["i"].address == "D";
    assert Deposits.IntentAt(db, "U", "D") == Some("i");
    Credits();
  }

  lemma Credits()
    ensures Deposits.Apply(Scanned().db, DEPOSIT.id, Indexer.RowOf(FIRST.header, DEPOSIT), "i", "j1").0 == CreditedDb()
  {
    assert Post(map[], "j1", CREDIT) == Created;
  }

  lemma AvailableIsFive()
    ensures Balance(map["j1" := CREDIT], AVAILABLE) == 5 && Balance(map["j1" := CREDIT], FROZEN) == 0
  {
    var none: Journals := map[];
    BalanceAfterPost(none, "j1", CREDIT, AVAILABLE);
    BalanceAfterPost(none, "j1", CREDIT, FROZEN);
    TwoEntriesEffect(CUSTODY, AVAILABLE, "U", 5, AVAILABLE);
    TwoEntriesEffect(CUSTODY, AVAILABLE, "U", 5, FROZEN);
    assert none["j1" := CREDIT] == map["j1" := CREDIT];
  }

  lemma FrozenIsFive()
    ensures Balance(map["j1" := CREDIT, "j2" := FREEZE], FROZEN) == 5
  {
    var one: Journals := map["j1" := CREDIT];
    AvailableIsFive();
    BalanceAfterPost(one, "j2", FREEZE, FROZEN);
    TwoEntriesEffect(AVAILABLE, FROZEN, "U", 5, FROZEN);
    assert one["j2" := FREEZE] == map["j1" := CREDIT, "j2" := FREEZE];
  }

  lemma RequestReads()
    ensures Payouts.ValidRequest(REQUEST) && REQUEST.Amount() == 5
    ensures forall freezeId :: Payouts.NewPayout(REQUEST, freezeId) == PAYOUT.(freezeId := freezeId)
  {
    assert "5"[..0] == "";
  }

  lemma Creates()
    ensures Payouts.Create(CreditedDb(), REQUEST, Payouts.ActiveMerchant, Payouts.ActiveAsset("tron"), "j2").0 == PaidDb(PAYOUT)
  {
    hide Payouts.ValidRequest, Balance, REQUEST.Amount, Payouts.NewPayout;
    var db := CreditedDb();
    assert Payouts.Matching(db.payouts, REQUEST) == {};
    RequestReads();
    AvailableIsFive();
    assert Post(db.journals, "j2", FREEZE) == Created;
    assert db.journals["j2" := FREEZE] == map["j1" := CREDIT, "j2" := FREEZE];
  }

  lemma Approves()
    ensures Payouts.Review(PaidDb(PAYOUT), REVIEW, true, "j").0 == PaidDb(Row(APPROVED))
  {
    assert PaidDb(PAYOUT).payouts["p" := Row(APPROVED)] == map["p" := Row(APPROVED)];
  }

  lemma Fails()
    ensures Payouts.Finalize(PaidDb(Row(CONFIRMING)), CONFIRMATION_CLAIM, false, "expired_not_found", "j3").0 == Final().db
  {
    FrozenIsFive();
    ReleasePosts();
    FailsWith(PaidDb(Row(CONFIRMING)));
  }

  lemma ReleasePosts()
    ensures Post(map["j1" := CREDIT, "j2" := FREEZE], "j3", Payouts.TerminalJournal("p", Row(CONFIRMING), false)) == Created
  {
  }

  lemma FailsWith(db: Db)
    requires db == PaidDb(Row(CONFIRMING)) && Balance(db.journals, FROZEN) == 5
    requires Post(db.journals, "j3", Payouts.TerminalJournal("p", Row(CONFIRMING), false)) == Created
    ensures Payouts.Finalize(db, CONFIRMATION_CLAIM, false, "expired_not_found", "j3").0 == Final().db
  {
    hide Post, Balance, Final, Payouts.TerminalJournal, Payouts.Finalized;
    FinalDb(db);
    assert db.payouts["p" := Payouts.Finalized(Row(CONFIRMING), false, "expired_not_found", "j3")]
        == map["p" := Payouts.Finalized(Row(CONFIRMING), false, "expired_not_found", "j3")];
  }

  lemma FinalDb(db: Db)
    requires db == PaidDb(Row(CONFIRMING))
    ensures Final().db == db.(
              journals := db.journals["j3" := Payouts.TerminalJournal("p", Row(CONFIRMING), false)],
              payouts := map["p" := Payouts.Finalized(Row(CONFIRMING), false, "expired_not_found", "j3")],
              outbox := db.outbox + [OutboxEvent(PayoutFailed, "p", 5, "j3")])
  {
  }

  // ---------- the worker ----------

  lemma Moves(was: Job, job: Job)
    ensures WithJob(PaidDb(Row(was)), PayoutTable, "p", job) == PaidDb(Row(job))
  {
    assert map["p" := Row(was)]["p" := Row(job)] == map["p" := Row(job)];
  }

  lemma Claims(s: State, phase: Phase, was: Job, c: Claim, t: State)
    requires s.db == PaidDb(Row(was)) && "w" in s.procs && s.procs["w"] == Proc("w", Idle)
    requires Claimable(was, phase, 0) && c == Claim(PayoutTable, "p", "w", was.epoch + 1, phase, TX.payload.request, was.transaction)
    requires t == Goto(s, "w", ClaimedPc(c)).(db := PaidDb(Row(ClaimJob(was, phase, "w", 0, 1))), log := s.log + [c])
    ensures WorkNext(CFG, s, "w", ClaimRow(PayoutTable, "p", phase, 1), t)
  {
    Moves(was, ClaimJob(was, phase, "w", 0, 1));
  }

  lemma ClaimsSigning(s: State, t: State)
    requires s == World(Row(APPROVED), map[], ONE, 1, map[], Idle, [])
    requires t == World(Row(SIGNING), map[], ONE, 1, map[], SigningClaimed(SIGNING_CLAIM), [SIGNING_CLAIM])
    ensures WorkNext(CFG, s, "w", ClaimRow(PayoutTable, "p", SigningPhase, 1), t)
  {
    Claims(s, SigningPhase, APPROVED, SIGNING_CLAIM, t);
  }

  lemma SignsTransaction(s: State, t: State)
    requires s == World(Row(SIGNING), map[], ONE, 1, map[], SigningClaimed(SIGNING_CLAIM), [SIGNING_CLAIM])
    requires t == World(Row(SIGNING), KNOWN, ONE, 1, map[], SignerReturned(SIGNING_CLAIM, TX), [SIGNING_CLAIM])
    ensures WorkNext(CFG, s, "w", CallSigner(Some(TX), false), t)
  {
    assert Absent(ONE, "t");
    assert Sign(CFG, map[], TX.payload.request, Some(TX)) == (KNOWN, Ok(TX));
  }

  lemma StoresSignature(s: State, t: State)
    requires s == World(Row(SIGNING), KNOWN, ONE, 1, map[], SignerReturned(SIGNING_CLAIM, TX), [SIGNING_CLAIM])
    requires t == World(Row(SIGNED), KNOWN, ONE, 1, map[], Idle, [SIGNING_CLAIM])
    ensures WorkNext(CFG, s, "w", FinishSigning, t)
  {
    Moves(SIGNING, SIGNED);
  }

  lemma ClaimsBroadcast(s: State, t: State)
    requires s == World(Row(SIGNED), KNOWN, ONE, 1, map[], Idle, [SIGNING_CLAIM])
    requires t == World(Row(SENDING), KNOWN, ONE, 1, map[], BroadcastClaimed(BROADCAST_CLAIM), [SIGNING_CLAIM, BROADCAST_CLAIM])
    ensures WorkNext(CFG, s, "w", ClaimRow(PayoutTable, "p", BroadcastPhase, 1), t)
  {
    Claims(s, BroadcastPhase, SIGNED, BROADCAST_CLAIM, t);
  }

  lemma SendsTransaction(s: State, t: State)
    requires s == World(Row(SENDING), KNOWN, ONE, 1, map[], BroadcastClaimed(BROADCAST_CLAIM), [SIGNING_CLAIM, BROADCAST_CLAIM])
    requires t == World(Row(SENDING), KNOWN, ONE, 1, SEEN, BroadcastDone(BROADCAST_CLAIM, Accepted), [SIGNING_CLAIM, BROADCAST_CLAIM])
    ensures WorkNext(CFG, s, "w", Broadcast(Delivered), t)
  {
  }

  lemma BeginsConfirmation(s: State, t: State)
    requires s == World(Row(SENDING), KNOWN, ONE, 1, SEEN, BroadcastDone(BROADCAST_CLAIM, Accepted), [SIGNING_CLAIM, BROADCAST_CLAIM])
    requires t == Ready(ONE)
    ensures WorkNext(CFG, s, "w", FinishBroadcast, t)
  {
    Moves(SENDING, SENT);
  }

  lemma ClaimsConfirmation(s: State, t: State)
    requires s == Ready(TWO)
    requires t == Confirms(1, ConfirmClaimed(CONFIRMATION_CLAIM))
    ensures WorkNext(CFG, s, "w", ClaimRow(PayoutTable, "p", ConfirmationPhase, 1), t)
  {
    Claims(s, ConfirmationPhase, SENT, CONFIRMATION_CLAIM, t);
  }

  /** The first read: the payment is on an unsolidified block, so a node may still report it missing. */
  lemma SeesNothing(s: State, t: State)
    requires s == Confirms(1, ConfirmClaimed(CONFIRMATION_CLAIM))
    requires t == Confirms(1, SawNotFound(CONFIRMATION_CLAIM, 1))
    ensures WorkNext(CFG, s, "w", ReadTransaction(Some(TransactionState(NotFound, false))), t)
  {
    assert TWO[..2] == ONE;
    assert Absent(ONE, "t");
  }

  /** The second read: its block is solidified now, with a time past its expiration. */
  lemma DeclaresExpiry(s: State, t: State)
    requires s == Confirms(2, SawNotFound(CONFIRMATION_CLAIM, 1))
    requires t == Confirms(2, SawExpired(CONFIRMATION_CLAIM))
    ensures WorkNext(CFG, s, "w", ReadHead(true), t) && Expires(s, Work("w", ReadHead(true))) && !QuietRead(s, Work("w", ReadHead(true)))
  {
    assert !NoReceipt(TWO[2], "t") by {
      assert TWO[2].receipts[0].transactionId == "t";
    }
  }

  lemma ReleasesFunds(s: State, t: State)
    requires s == Confirms(2, SawExpired(CONFIRMATION_CLAIM))
    requires t == Final()
    ensures WorkNext(CFG, s, "w", FinishConfirmation("j3", 1), t)
  {
    hide Payouts.Finalize;
    Fails();
  }

  // ---------- the run ----------

  ghost predicate Reaches(states: seq<State>, actions: seq<Action>, s: State) {
    Run(CFG, states, actions) && states[|actions|] == s
  }

  lemma Extend(states: seq<State>, actions: seq<Action>, s: State, a: Action, t: State)
    requires Reaches(states, actions, s) && Next(CFG, s, a, t)
    ensures Reaches(states + [t], actions + [a], t)
  {
    hide Next, Initial;
    var more, done := states + [t], actions + [a];
    forall k: nat | k < |done| ensures Linked(CFG, more, done, k) {
      if k < |actions| {
        assert Linked(CFG, states, actions, k);
      }
    }
  }

  lemma StoreLink(s: State, x: StoreAction, t: State)
    requires StoreNext(CFG, s.db, x, t.db) && t == s.(db := t.db)
    ensures Next(CFG, s, Store(x), t)
  {
  }

  lemma NetworkLink(s: State, x: ChainAction, t: State)
    requires ChainNext(CFG, s, x, t.chain) && t == s.(chain := t.chain)
    ensures Next(CFG, s, Network(x), t)
  {
  }

  lemma ScanLink(s: State, x: ScanAction, t: State)
    requires "w" in s.procs && "w" in t.procs && ScanNext(s.db, s.chain, s.procs["w"], x, t.db, t.procs["w"].pc)
    requires t == Goto(s, "w", t.procs["w"].pc).(db := t.db)
    ensures Next(CFG, s, Scan("w", x), t)
  {
  }

  lemma WorkLink(s: State, x: WorkAction, t: State)
    requires WorkNext(CFG, s, "w", x, t)
    ensures Next(CFG, s, Work("w", x), t)
  {
  }

  lemma DepositArrives() returns (states: seq<State>, actions: seq<Action>)
    ensures Reaches(states, actions, Deposited())
  {
    var s1 := Start().(db := Deposited().db);
    var s2 := Deposited().(chain := Chain("tron", ONE, 0, map[]));
    StartInitial();
    Intend();
    StoreLink(Start(), CreateIntent("i", INTENT), s1);
    FirstFits(s1);
    NetworkLink(s1, AppendBlock(FIRST), s2);
    Solidifies(s2, 1);
    NetworkLink(s2, Solidify(1), Deposited());
    assert Reaches([Start()], [], Start());
    Extend([Start()], [], Start(), Store(CreateIntent("i", INTENT)), s1);
    states, actions := [Start()] + [s1], [] + [Store(CreateIntent("i", INTENT))];
    Extend(states, actions, s1, Network(AppendBlock(FIRST)), s2);
    states, actions := states + [s2], actions + [Network(AppendBlock(FIRST))];
    Extend(states, actions, s2, Network(Solidify(1)), Deposited());
    states, actions := states + [Deposited()], actions + [Network(Solidify(1))];
  }

  lemma Solidifies(s: State, height: nat)
    requires s.chain.solidified <= height < |s.chain.blocks|
    ensures ChainNext(CFG, s, Solidify(height), s.chain.(solidified := height))
  {
  }

  lemma ScanSteps()
    ensures Next(CFG, Deposited(), Scan("w", ScanBind("U")), Bound())
    ensures Next(CFG, Bound(), Scan("w", ScanClaimCursor(1)), Scanning(CLAIMED))
    ensures Next(CFG, Scanning(CLAIMED), Scan("w", ScanReadHead(true)), Scanning(HEADED))
    ensures Next(CFG, Scanning(HEADED), Scan("w", ScanReadBlock(true)), Scanning(FETCHED))
    ensures Next(CFG, Scanning(FETCHED), Scan("w", ScanCommit), Scanned())
  {
    hide ScanNext, Next;
    BindsContract(Deposited());
    ScanLink(Deposited(), ScanBind("U"), Bound());
    ClaimsCursor(Bound());
    ScanLink(Bound(), ScanClaimCursor(1), Scanning(CLAIMED));
    ReadsScanHead(Scanning(CLAIMED));
    ScanLink(Scanning(CLAIMED), ScanReadHead(true), Scanning(HEADED));
    ReadsBlock(Scanning(HEADED));
    ScanLink(Scanning(HEADED), ScanReadBlock(true), Scanning(FETCHED));
    CommitsBlock(Scanning(FETCHED));
    ScanLink(Scanning(FETCHED), ScanCommit, Scanned());
  }

  lemma DepositScanned() returns (states: seq<State>, actions: seq<Action>)
    ensures Reaches(states, actions, Scanned())
  {
    hide Next, Initial, Run, Reaches, Deposited, Bound, Scanning, Scanned;
    states, actions := DepositArrives();
    ScanSteps();
    Extend(states, actions, Deposited(), Scan("w", ScanBind("U")), Bound());
    states, actions := states + [Bound()], actions + [Scan("w", ScanBind("U"))];
    Extend(states, actions, Bound(), Scan("w", ScanClaimCursor(1)), Scanning(CLAIMED));
    states, actions := states + [Scanning(CLAIMED)], actions + [Scan("w", ScanClaimCursor(1))];
    Extend(states, actions, Scanning(CLAIMED), Scan("w", ScanReadHead(true)), Scanning(HEADED));
    states, actions := states + [Scanning(HEADED)], actions + [Scan("w", ScanReadHead(true))];
    Extend(states, actions, Scanning(HEADED), Scan("w", ScanReadBlock(true)), Scanning(FETCHED));
    states, actions := states + [Scanning(FETCHED)], actions + [Scan("w", ScanReadBlock(true))];
    Extend(states, actions, Scanning(FETCHED), Scan("w", ScanCommit), Scanned());
    states, actions := states + [Scanned()], actions + [Scan("w", ScanCommit)];
  }

  const MATCH := Store(MatchEvent(Deposits.MatchInput(DEPOSIT.id, Deposits.Allow, true, true, true), "j1"))
  const CREATE := Store(CreatePayout(REQUEST, Payouts.ActiveMerchant, Payouts.ActiveAsset("tron"), "j2"))
  const APPROVE := Store(ReviewPayout(REVIEW, true, "j"))

  function Funded(): State { Scanned().(db := CreditedDb()) }
  function Created10(): State { World(PAYOUT, map[], ONE, 1, map[], Idle, []) }
  function Approved11(): State { World(Row(APPROVED), map[], ONE, 1, map[], Idle, []) }

  lemma MoneySteps()
    ensures Next(CFG, Scanned(), MATCH, Funded())
    ensures Next(CFG, Funded(), CREATE, Created10())
    ensures Next(CFG, Created10(), APPROVE, Approved11())
  {
    hide StoreNext, Next;
    MatchStep();
    StoreLink(Scanned(), MATCH.store, Funded());
    CreateStep();
    StoreLink(Funded(), CREATE.store, Created10());
    ReviewStep();
    StoreLink(Created10(), APPROVE.store, Approved11());
  }

  lemma MatchStep()
    ensures StoreNext(CFG, Scanned().db, MATCH.store, CreditedDb())
  {
    hide Deposits.Match;
    Matches();
  }

  lemma CreateStep()
    ensures StoreNext(CFG, CreditedDb(), CREATE.store, PaidDb(PAYOUT))
  {
    hide Payouts.Create;
    Creates();
  }

  lemma ReviewStep()
    ensures StoreNext(CFG, PaidDb(PAYOUT), APPROVE.store, PaidDb(Row(APPROVED)))
  {
    hide Payouts.Review;
    Approves();
  }

  lemma PayoutApproved() returns (states: seq<State>, actions: seq<Action>)
    ensures Reaches(states, actions, Approved11())
  {
    hide Next, Initial, Run, Reaches, Scanned, Funded, Created10, Approved11;
    states, actions := DepositScanned();
    MoneySteps();
    Extend(states, actions, Scanned(), MATCH, Funded());
    states, actions := states + [Funded()], actions + [MATCH];
    Extend(states, actions, Funded(), CREATE, Created10());
    states, actions := states + [Created10()], actions + [CREATE];
    Extend(states, actions, Created10(), APPROVE, Approved11());
    states, actions := states + [Approved11()], actions + [APPROVE];
  }

  function ToSign(): State { World(Row(SIGNING), map[], ONE, 1, map[], SigningClaimed(SIGNING_CLAIM), [SIGNING_CLAIM]) }
  function Returned(): State { World(Row(SIGNING), KNOWN, ONE, 1, map[], SignerReturned(SIGNING_CLAIM, TX), [SIGNING_CLAIM]) }
  function SignedState(): State { World(Row(SIGNED), KNOWN, ONE, 1, map[], Idle, [SIGNING_CLAIM]) }
  function ToSend(): State { World(Row(SENDING), KNOWN, ONE, 1, map[], BroadcastClaimed(BROADCAST_CLAIM), [SIGNING_CLAIM, BROADCAST_CLAIM]) }
  function SentState(): State { World(Row(SENDING), KNOWN, ONE, 1, SEEN, BroadcastDone(BROADCAST_CLAIM, Accepted), [SIGNING_CLAIM, BROADCAST_CLAIM]) }

  lemma PayoutSent() returns (states: seq<State>, actions: seq<Action>)
    ensures Reaches(states, actions, Ready(ONE))
  {
    hide Next, Initial, Run, Reaches, Approved11, ToSign, Returned, SignedState, ToSend, SentState, Ready;
    states, actions := PayoutApproved();
    SendingSteps();
    Extend(states, actions, Approved11(), Work("w", ClaimRow(PayoutTable, "p", SigningPhase, 1)), ToSign());
    states, actions := states + [ToSign()], actions + [Work("w", ClaimRow(PayoutTable, "p", SigningPhase, 1))];
    Extend(states, actions, ToSign(), Work("w", CallSigner(Some(TX), false)), Returned());
    states, actions := states + [Returned()], actions + [Work("w", CallSigner(Some(TX), false))];
    Extend(states, actions, Returned(), Work("w", FinishSigning), SignedState());
    states, actions := states + [SignedState()], actions + [Work("w", FinishSigning)];
    Extend(states, actions, SignedState(), Work("w", ClaimRow(PayoutTable, "p", BroadcastPhase, 1)), ToSend());
    states, actions := states + [ToSend()], actions + [Work("w", ClaimRow(PayoutTable, "p", BroadcastPhase, 1))];
    Extend(states, actions, ToSend(), Work("w", Broadcast(Delivered)), SentState());
    states, actions := states + [SentState()], actions + [Work("w", Broadcast(Delivered))];
    Extend(states, actions, SentState(), Work("w", FinishBroadcast), Ready(ONE));
    states, actions := states + [Ready(ONE)], actions + [Work("w", FinishBroadcast)];
  }

  lemma SendingSteps()
    ensures Next(CFG, Approved11(), Work("w", ClaimRow(PayoutTable, "p", SigningPhase, 1)), ToSign())
    ensures Next(CFG, ToSign(), Work("w", CallSigner(Some(TX), false)), Returned())
    ensures Next(CFG, Returned(), Work("w", FinishSigning), SignedState())
    ensures Next(CFG, SignedState(), Work("w", ClaimRow(PayoutTable, "p", BroadcastPhase, 1)), ToSend())
    ensures Next(CFG, ToSend(), Work("w", Broadcast(Delivered)), SentState())
    ensures Next(CFG, SentState(), Work("w", FinishBroadcast), Ready(ONE))
  {
    hide Next, WorkNext, World, Row;
    ClaimsSigning(Approved11(), ToSign());
    WorkLink(Approved11(), ClaimRow(PayoutTable, "p", SigningPhase, 1), ToSign());
    SignsTransaction(ToSign(), Returned());
    WorkLink(ToSign(), CallSigner(Some(TX), false), Returned());
    StoresSignature(Returned(), SignedState());
    WorkLink(Returned(), FinishSigning, SignedState());
    ClaimsBroadcast(SignedState(), ToSend());
    WorkLink(SignedState(), ClaimRow(PayoutTable, "p", BroadcastPhase, 1), ToSend());
    SendsTransaction(ToSend(), SentState());
    WorkLink(ToSend(), Broadcast(Delivered), SentState());
    BeginsConfirmation(SentState(), Ready(ONE));
    WorkLink(SentState(), FinishBroadcast, Ready(ONE));
  }

  const CONFIRM := Work("w", ClaimRow(PayoutTable, "p", ConfirmationPhase, 1))
  const MISSING := Work("w", ReadTransaction(Some(TransactionState(NotFound, false))))

  lemma ConfirmingSteps()
    ensures Next(CFG, Ready(ONE), Network(AppendBlock(SECOND)), Ready(TWO))
    ensures Next(CFG, Ready(TWO), CONFIRM, Confirms(1, ConfirmClaimed(CONFIRMATION_CLAIM)))
    ensures Next(CFG, Confirms(1, ConfirmClaimed(CONFIRMATION_CLAIM)), MISSING, Confirms(1, SawNotFound(CONFIRMATION_CLAIM, 1)))
    ensures Next(CFG, Confirms(1, SawNotFound(CONFIRMATION_CLAIM, 1)), Network(Solidify(2)), Confirms(2, SawNotFound(CONFIRMATION_CLAIM, 1)))
    ensures Next(CFG, Confirms(2, SawNotFound(CONFIRMATION_CLAIM, 1)), Work("w", ReadHead(true)), Confirms(2, SawExpired(CONFIRMATION_CLAIM)))
    ensures Next(CFG, Confirms(2, SawExpired(CONFIRMATION_CLAIM)), Work("w", FinishConfirmation("j3", 1)), Final())
  {
    hide Next, WorkNext, ChainNext, Row;
    SecondFits(Ready(ONE));
    NetworkLink(Ready(ONE), AppendBlock(SECOND), Ready(TWO));
    ClaimsConfirmation(Ready(TWO), Confirms(1, ConfirmClaimed(CONFIRMATION_CLAIM)));
    WorkLink(Ready(TWO), CONFIRM.work, Confirms(1, ConfirmClaimed(CONFIRMATION_CLAIM)));
    SeesNothing(Confirms(1, ConfirmClaimed(CONFIRMATION_CLAIM)), Confirms(1, SawNotFound(CONFIRMATION_CLAIM, 1)));
    WorkLink(Confirms(1, ConfirmClaimed(CONFIRMATION_CLAIM)), MISSING.work, Confirms(1, SawNotFound(CONFIRMATION_CLAIM, 1)));
    Solidifies(Confirms(1, SawNotFound(CONFIRMATION_CLAIM, 1)), 2);
    NetworkLink(Confirms(1, SawNotFound(CONFIRMATION_CLAIM, 1)), Solidify(2), Confirms(2, SawNotFound(CONFIRMATION_CLAIM, 1)));
    DeclaresExpiry(Confirms(2, SawNotFound(CONFIRMATION_CLAIM, 1)), Confirms(2, SawExpired(CONFIRMATION_CLAIM)));
    WorkLink(Confirms(2, SawNotFound(CONFIRMATION_CLAIM, 1)), ReadHead(true), Confirms(2, SawExpired(CONFIRMATION_CLAIM)));
    ReleasesFunds(Confirms(2, SawExpired(CONFIRMATION_CLAIM)), Final());
    WorkLink(Confirms(2, SawExpired(CONFIRMATION_CLAIM)), FinishConfirmation("j3", 1), Final());
  }

  lemma PayoutRefunded() returns (states: seq<State>, actions: seq<Action>, at: nat)
    ensures Reaches(states, actions, Final()) && at < |actions|
    ensures states[at] == Confirms(2, SawNotFound(CONFIRMATION_CLAIM, 1)) && actions[at] == Work("w", ReadHead(true))
  {
    hide Next, Initial, Ready, Confirms, Final, Run;
    states, actions := PayoutSent();
    ConfirmingSteps();
    Extend(states, actions, Ready(ONE), Network(AppendBlock(SECOND)), Ready(TWO));
    states, actions := states + [Ready(TWO)], actions + [Network(AppendBlock(SECOND))];
    Extend(states, actions, Ready(TWO), CONFIRM, Confirms(1, ConfirmClaimed(CONFIRMATION_CLAIM)));
    states, actions := states + [Confirms(1, ConfirmClaimed(CONFIRMATION_CLAIM))], actions + [CONFIRM];
    Extend(states, actions, Confirms(1, ConfirmClaimed(CONFIRMATION_CLAIM)), MISSING, Confirms(1, SawNotFound(CONFIRMATION_CLAIM, 1)));
    states, actions := states + [Confirms(1, SawNotFound(CONFIRMATION_CLAIM, 1))], actions + [MISSING];
    Extend(states, actions, Confirms(1, SawNotFound(CONFIRMATION_CLAIM, 1)), Network(Solidify(2)), Confirms(2, SawNotFound(CONFIRMATION_CLAIM, 1)));
    states, actions := states + [Confirms(2, SawNotFound(CONFIRMATION_CLAIM, 1))], actions + [Network(Solidify(2))];
    at := |actions|;
    Lengths(states, actions);
    Extend(states, actions, Confirms(2, SawNotFound(CONFIRMATION_CLAIM, 1)), Work("w", ReadHead(true)), Confirms(2, SawExpired(CONFIRMATION_CLAIM)));
    states, actions := states + [Confirms(2, SawExpired(CONFIRMATION_CLAIM))], actions + [Work("w", ReadHead(true))];
    Extend(states, actions, Confirms(2, SawExpired(CONFIRMATION_CLAIM)), Work("w", FinishConfirmation("j3", 1)), Final());
    states, actions := states + [Final()], actions + [Work("w", FinishConfirmation("j3", 1))];
  }

  lemma Lengths(states: seq<State>, actions: seq<Action>)
    requires Run(CFG, states, actions)
    ensures |states| == |actions| + 1
  {
    hide Next, Initial;
  }

  /** The run that pays and refunds: it ends with the payout failed, its amount available to the
      merchant again, and the payment executed on the solidified chain. */
  lemma PaidAndRefunded() returns (states: seq<State>, actions: seq<Action>)
    ensures Run(CFG, states, actions) && !QuietRun(states, actions)
    ensures
      var last := states[|actions|];
      && "p" in last.db.payouts && last.db.payouts["p"].job.status == Failed && last.db.payouts["p"].job.transaction == Some(TX)
      && Executed(last.chain, TX.id, ExecutionSucceeded)
      && Balance(last.db.journals, AVAILABLE) == 5
  {
    hide Next, Initial, QuietRead, Executed, Balance;
    var at;
    states, actions, at := PayoutRefunded();
    DeclaresExpiry(Confirms(2, SawNotFound(CONFIRMATION_CLAIM, 1)), Confirms(2, SawExpired(CONFIRMATION_CLAIM)));
    assert !QuietRead(states[at], actions[at]);
    Refunded();
  }

  lemma Refunded()
    ensures Balance(Final().db.journals, AVAILABLE) == 5 && Executed(Final().chain, TX.id, ExecutionSucceeded)
  {
    var journals := map["j1" := CREDIT, "j2" := FREEZE];
    var one: Journals := map["j1" := CREDIT];
    AvailableIsFive();
    BalanceAfterPost(one, "j2", FREEZE, AVAILABLE);
    TwoEntriesEffect(AVAILABLE, FROZEN, "U", 5, AVAILABLE);
    assert one["j2" := FREEZE] == journals;
    BalanceAfterPost(journals, "j3", Payouts.TerminalJournal("p", Row(CONFIRMING), false), AVAILABLE);
    TwoEntriesEffect(FROZEN, AVAILABLE, "U", 5, AVAILABLE);
    assert Receipt("t", ExecutionSucceeded) in TWO[2].receipts;
  }
}
