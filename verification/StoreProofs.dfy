// Every step keeps the database invariants: the ledger, the deposits, the outbox, and the shape of
// the leased rows.
module StoreProofs {
  import opened Prelude
  import opened Chain
  import opened Lease
  import opened Ledger
  import opened Tables
  import opened Gateway
  import opened LedgerProofs
  import opened LedgerSteps
  import opened LedgerTransactions
  import opened DepositProofs
  import opened OutboxProofs
  import opened RowProofs
  import opened RowSteps
  import Payouts
  import Deposits
  import Indexer
  import Sweeps

  ghost predicate StoreInv(cfg: Config, db: Db) {
    && LedgerInv(db) && DepositInv(cfg, db) && EventsPositive(db.events)
    && OutboxSound(db.outbox, db.payouts, db.intents)
    && PayoutsShaped(db.payouts) && SweepsShaped(db.sweeps)
  }

  lemma DepositFrame(cfg: Config, db: Db, next: Db)
    requires DepositInv(cfg, db)
    requires next.events == db.events && next.matches == db.matches && next.intents == db.intents
    ensures DepositInv(cfg, next)
  {
  }

  lemma LedgerFrame(db: Db, next: Db)
    requires LedgerInv(db)
    requires next.accounts == db.accounts && next.journals == db.journals && next.payouts == db.payouts && next.intents == db.intents
    ensures LedgerInv(next)
  {
  }

  // ---------- payout transactions ----------

  /** A payout transaction keeps the database invariants when it keeps the ledger, the outbox and the row shape. */
  lemma PayoutTransaction(cfg: Config, db: Db, next: Db)
    requires StoreInv(cfg, db) && LedgerInv(next)
    requires next == db.(journals := next.journals, payouts := next.payouts, outbox := next.outbox)
    requires OutboxSound(next.outbox, next.payouts, next.intents) && PayoutsShaped(next.payouts)
    ensures StoreInv(cfg, next)
  {
    DepositFrame(cfg, db, next);
  }

  lemma InsertedRest(outbox: seq<OutboxEvent>, payouts: map<string, Payout>, intents: map<string, Intent>, r: Payouts.CreateRequest, journalId: string)
    requires OutboxSound(outbox, payouts, intents) && PayoutsShaped(payouts) && r.id !in payouts
    ensures
      var next := payouts[r.id := Payouts.NewPayout(r, journalId)];
      OutboxSound(outbox, next, intents) && PayoutsShaped(next)
  {
    OpenUnannounced(outbox, payouts, intents, r.id, Payouts.NewPayout(r, journalId));
  }

  lemma InsertedStore(cfg: Config, db: Db, r: Payouts.CreateRequest, journalId: string)
    requires StoreInv(cfg, db) && r.id !in db.payouts && LedgerInv(LedgerTransactions.Inserted(db, r, journalId))
    ensures StoreInv(cfg, LedgerTransactions.Inserted(db, r, journalId))
  {
    InsertedRest(db.outbox, db.payouts, db.intents, r, journalId);
    PayoutTransaction(cfg, db, LedgerTransactions.Inserted(db, r, journalId));
  }

  lemma CreateStore(cfg: Config, db: Db, r: Payouts.CreateRequest, merchant: Payouts.MerchantStatus, assetStatus: Payouts.AssetStatus, journalId: string)
    requires StoreInv(cfg, db) && journalId !in db.journals
    ensures StoreInv(cfg, Payouts.Create(db, r, merchant, assetStatus, journalId).0)
  {
    CreateKeeps(db, r, merchant, assetStatus, journalId);
    var outcome := Payouts.Create(db, r, merchant, assetStatus, journalId).1;
    if outcome.Ok? && outcome.value.created {
      InsertedStore(cfg, db, r, journalId);
    }
  }

  lemma ApprovalStore(cfg: Config, db: Db, r: Payouts.ReviewRequest)
    requires StoreInv(cfg, db) && r.id in db.payouts && db.payouts[r.id].job.status == PendingReview && r.decision == Payouts.Approve
    requires LedgerInv(Approval(db, r))
    ensures StoreInv(cfg, Approval(db, r))
  {
    hide LedgerInv, DepositInv;
    OpenUnannounced(db.outbox, db.payouts, db.intents, r.id, Payouts.Reviewed(db.payouts[r.id], r, None));
    PayoutTransaction(cfg, db, Approval(db, r));
  }

  /** The row and the event of a payout that settles. */
  lemma SettledRest(outbox: seq<OutboxEvent>, payouts: map<string, Payout>, intents: map<string, Intent>, id: string, p: Payout, e: OutboxEvent)
    requires OutboxSound(outbox, payouts, intents) && PayoutsShaped(payouts) && JobShape(p.job)
    requires id in payouts && !Settled(payouts[id]) && Announces(e, id, p)
    ensures OutboxSound(outbox + [e], payouts[id := p], intents) && PayoutsShaped(payouts[id := p])
  {
    SettleAnnounced(outbox, payouts, intents, id, p, e);
  }

  lemma RejectionStore(cfg: Config, db: Db, r: Payouts.ReviewRequest, journalId: string)
    requires StoreInv(cfg, db) && r.id in db.payouts && db.payouts[r.id].job.status == PendingReview && r.decision == Payouts.Reject
    requires LedgerInv(Rejection(db, r, journalId))
    ensures StoreInv(cfg, Rejection(db, r, journalId))
  {
    hide LedgerInv, DepositInv;
    var p := db.payouts[r.id];
    SettledRest(db.outbox, db.payouts, db.intents, r.id, Payouts.Reviewed(p, r, Some(journalId)),
                OutboxEvent(PayoutRejected, r.id, p.amount, journalId));
    PayoutTransaction(cfg, db, Rejection(db, r, journalId));
  }

  lemma ReviewStore(cfg: Config, db: Db, r: Payouts.ReviewRequest, allowed: bool, journalId: string)
    requires StoreInv(cfg, db) && journalId !in db.journals
    ensures StoreInv(cfg, Payouts.Review(db, r, allowed, journalId).0)
  {
    ReviewKeeps(db, r, allowed, journalId);
    var outcome := Payouts.Review(db, r, allowed, journalId).1;
    if outcome.Ok? && outcome.value.changed {
      if r.decision == Payouts.Approve {
        ApprovalStore(cfg, db, r);
      } else {
        RejectionStore(cfg, db, r, journalId);
      }
    }
  }

  lemma SettlementStore(cfg: Config, db: Db, claim: Claim, succeeded: bool, reason: string, journalId: string)
    requires StoreInv(cfg, db) && claim.id in db.payouts && db.payouts[claim.id].job.status == Confirming
    requires LedgerInv(Settlement(db, claim, succeeded, reason, journalId))
    ensures StoreInv(cfg, Settlement(db, claim, succeeded, reason, journalId))
  {
    hide LedgerInv, DepositInv;
    var p := db.payouts[claim.id];
    SettledRest(db.outbox, db.payouts, db.intents, claim.id, Payouts.Finalized(p, succeeded, reason, journalId),
                OutboxEvent(if succeeded then PayoutSucceeded else PayoutFailed, claim.id, p.amount, journalId));
    PayoutTransaction(cfg, db, Settlement(db, claim, succeeded, reason, journalId));
  }

  lemma FinalizeStore(cfg: Config, db: Db, claim: Claim, succeeded: bool, reason: string, journalId: string)
    requires StoreInv(cfg, db) && journalId !in db.journals && claim.phase == ConfirmationPhase
    ensures StoreInv(cfg, Payouts.Finalize(db, claim, succeeded, reason, journalId).0)
  {
    FinalizeKeeps(db, claim, succeeded, reason, journalId);
    if Payouts.Finalize(db, claim, succeeded, reason, journalId).1.Ok? {
      SettlementStore(cfg, db, claim, succeeded, reason, journalId);
    }
  }

  // ---------- row moves that post nothing ----------

  lemma SweepRowStore(cfg: Config, db: Db, id: string, sweep: Sweep)
    requires StoreInv(cfg, db) && JobShape(sweep.job) && SweepStatus(sweep.job.status)
    ensures StoreInv(cfg, db.(sweeps := db.sweeps[id := sweep]))
  {
    var next := db.(sweeps := db.sweeps[id := sweep]);
    LedgerFrame(db, next);
    DepositFrame(cfg, db, next);
  }

  lemma PayoutRowStore(cfg: Config, db: Db, id: string, job: Job)
    requires StoreInv(cfg, db) && id in db.payouts && JobShape(job)
    requires Open(db.payouts[id].job.status) && Open(job.status) && db.payouts[id].job.status != PendingReview && job.status != PendingReview
    ensures StoreInv(cfg, db.(payouts := db.payouts[id := db.payouts[id].(job := job)]))
  {
    hide LedgerInv, DepositInv;
    var p := db.payouts[id].(job := job);
    PayoutRowLedger(db, id, p);
    OpenUnannounced(db.outbox, db.payouts, db.intents, id, p);
    PayoutTransaction(cfg, db, db.(payouts := db.payouts[id := p]));
  }

  lemma PayoutRowLedger(db: Db, id: string, p: Payout)
    requires LedgerInv(db) && id in db.payouts && p == db.payouts[id].(job := p.job)
    requires Open(db.payouts[id].job.status) && Open(p.job.status) && db.payouts[id].job.status != PendingReview && p.job.status != PendingReview
    ensures LedgerInv(db.(payouts := db.payouts[id := p]))
  {
    assert PayoutLinks(db.journals, id, db.payouts[id]);
    QuietUpdate(db, id, p);
  }

  lemma MoveStore(cfg: Config, db: Db, table: Table, id: string, m: Move)
    requires StoreInv(cfg, db) && HasRow(db, table, id) && Enabled(RowJob(db, table, id), m)
    requires m.Finished? ==> table == SweepTable
    ensures StoreInv(cfg, WithJob(db, table, id, Moved(RowJob(db, table, id), m)))
  {
    hide LedgerInv, DepositInv, OutboxSound;
    var job := RowJob(db, table, id);
    MoveProgress(job, m);
    if table == PayoutTable {
      PayoutRowStore(cfg, db, id, Moved(job, m));
    } else {
      SweepRowStore(cfg, db, id, db.sweeps[id].(job := Moved(job, m)));
    }
  }

  // ---------- deposits ----------

  lemma CreditedOutbox(cfg: Config, db: Db, key: EventId, id: string, journalId: string)
    requires StoreInv(cfg, db) && Pays(db, key, id) && db.intents[id].journalId.None?
    ensures
      var next := Credited(db, key, db.events[key], id, journalId);
      OutboxSound(next.outbox, next.payouts, next.intents)
  {
    CreditAnnounced(db.outbox, db.payouts, db.intents, id, CreditedIntent(db.intents[id], journalId),
                    OutboxEvent(DepositConfirmed, id, db.intents[id].expected, journalId));
  }

  lemma AccruedOutbox(cfg: Config, db: Db, key: EventId, event: EventRow, id: string)
    requires StoreInv(cfg, db) && id in db.intents
    ensures
      var next := Accrued(db, key, event, id);
      OutboxSound(next.outbox, next.payouts, next.intents)
  {
    QuietUnannounced(db.outbox, db.payouts, db.intents, id, AccruedIntent(db.intents[id], event.amount));
  }

  lemma ApplyOutbox(cfg: Config, db: Db, key: EventId, id: string, journalId: string)
    requires StoreInv(cfg, db) && journalId !in db.journals && Pays(db, key, id)
    ensures
      var next := Deposits.Apply(db, key, db.events[key], id, journalId).0;
      OutboxSound(next.outbox, next.payouts, next.intents)
  {
    if db.intents[id].received + db.events[key].amount != db.intents[id].expected {
      PartialShape(db, key, db.events[key], id, journalId);
      AccruedOutbox(cfg, db, key, db.events[key], id);
    } else {
      ApplyExactShape(cfg, db, key, id, journalId);
      CreditedOutbox(cfg, db, key, id, journalId);
    }
  }

  lemma MatchStore(cfg: Config, db: Db, input: Deposits.MatchInput, journalId: string)
    requires StoreInv(cfg, db) && journalId !in db.journals
    ensures StoreInv(cfg, Deposits.Match(cfg, db, input, journalId).0)
  {
    hide Deposits.Match, LedgerInv, DepositInv, OutboxSound;
    MatchKeeps(cfg, db, input, journalId);
    MatchTables(cfg, db, input, journalId);
    MatchOutbox(cfg, db, input, journalId);
  }

  lemma MatchOutbox(cfg: Config, db: Db, input: Deposits.MatchInput, journalId: string)
    requires StoreInv(cfg, db) && journalId !in db.journals
    ensures
      var next := Deposits.Match(cfg, db, input, journalId).0;
      OutboxSound(next.outbox, next.payouts, next.intents)
  {
    hide Deposits.Apply, LedgerInv, DepositInv, OutboxSound;
    var route := MatchRoutes(cfg, db, input, journalId);
    if route.Payment? {
      ApplyOutbox(cfg, db, input.event, route.id, journalId);
    }
  }

  lemma CreateIntentStore(cfg: Config, db: Db, id: string, i: Intent)
    requires StoreInv(cfg, db)
    ensures StoreInv(cfg, Deposits.CreateIntent(cfg, db, id, i))
  {
    CreateIntentKeeps(cfg, db, id, i);
    if Deposits.IntentAllowed(cfg, db, id, i) {
      QuietUnannounced(db.outbox, db.payouts, db.intents, id, i);
    }
  }

  lemma ExpireStore(cfg: Config, db: Db, id: string)
    requires StoreInv(cfg, db)
    ensures StoreInv(cfg, Deposits.Expire(db, id))
  {
    ExpireKeeps(cfg, db, id);
    if id in db.intents && Deposits.Due(db.intents[id], db.now) {
      QuietUnannounced(db.outbox, db.payouts, db.intents, id, Deposits.ExpiredIntent(db.intents[id]));
    }
  }

  // ---------- events ----------

  lemma {:induction false} EventsOfPositive(contract: string, header: Header, transfers: seq<Transfer>)
    requires forall j :: 0 <= j < |transfers| && transfers[j].id.contract == contract ==> 0 < transfers[j].amount
    ensures EventsPositive(Indexer.EventsOf(contract, header, transfers))
  {
    if transfers != [] {
      EventsOfPositive(contract, header, transfers[..|transfers| - 1]);
    }
  }

  lemma CommitStore(cfg: Config, db: Db, scan: Indexer.ScanClaim, contract: string, block: Block)
    requires StoreInv(cfg, db) && Indexer.EventsValid(cfg.network, contract, block)
    ensures StoreInv(cfg, Indexer.Commit(db, scan, contract, block))
  {
    var next := Indexer.Commit(db, scan, contract, block);
    if next != db {
      EventsOfPositive(contract, block.header, block.transfers);
      LedgerFrame(db, next);
      assert MatchesSound(next.events, next.matches, next.intents);
    }
  }

  // ---------- groups ----------

  lemma QuietStore(cfg: Config, db: Db, next: Db)
    requires StoreInv(cfg, db)
    requires next == db.(now := next.now, cursor := next.cursor, snapshots := next.snapshots)
    ensures StoreInv(cfg, next)
  {
    LedgerFrame(db, next);
    DepositFrame(cfg, db, next);
  }

  lemma AccountStore(cfg: Config, db: Db, account: Account, status: AccountStatus)
    requires StoreInv(cfg, db)
    ensures StoreInv(cfg, db.(accounts := db.accounts[account := status]))
  {
    AccountChangeConserves(db.accounts, db.journals, account, status);
    DepositFrame(cfg, db, db.(accounts := db.accounts[account := status]));
  }

  lemma PlanStore(cfg: Config, db: Db, plan: Sweeps.PlanInput)
    requires StoreInv(cfg, db)
    ensures StoreInv(cfg, Sweeps.Plan(cfg, db, plan))
  {
    var next := Sweeps.Plan(cfg, db, plan);
    if next != db {
      SweepRowStore(cfg, db, plan.id, next.sweeps[plan.id]);
    }
  }

  lemma StoreStep(cfg: Config, db: Db, x: StoreAction, next: Db)
    requires StoreInv(cfg, db) && StoreNext(cfg, db, x, next)
    ensures StoreInv(cfg, next)
  {
    hide StoreInv;
    match x
    case Tick(_) => QuietStore(cfg, db, next);
    case SetAccount(account, status) => AccountStore(cfg, db, account, status);
    case CreatePayout(r, merchant, assetStatus, journalId) => CreateStore(cfg, db, r, merchant, assetStatus, journalId);
    case ReviewPayout(r, allowed, journalId) => ReviewStore(cfg, db, r, allowed, journalId);
    case CreateIntent(id, i) => CreateIntentStore(cfg, db, id, i);
    case MatchEvent(input, journalId) => MatchStore(cfg, db, input, journalId);
    case ExpireIntent(id) => ExpireStore(cfg, db, id);
    case PlanSweep(plan) => PlanStore(cfg, db, plan);
  }

  lemma SigningStore(cfg: Config, db: Db, pc: Pc)
    requires StoreInv(cfg, db) && (pc.SignerReturned? || pc.SignerErred?) && PhaseAgrees(pc)
    ensures StoreInv(cfg, SigningFinished(db, pc))
  {
    hide StoreInv;
    var claim := pc.claim;
    if SigningFinished(db, pc) != db {
      MoveStore(cfg, db, claim.table, claim.id, if pc.SignerReturned? then Signed(pc.tx) else SigningReleased("signer_error"));
    }
  }

  lemma BroadcastStore(cfg: Config, db: Db, claim: Claim, result: BroadcastResult)
    requires StoreInv(cfg, db) && claim.phase == BroadcastPhase
    ensures StoreInv(cfg, BroadcastFinished(db, claim, result))
  {
    hide StoreInv;
    if BroadcastFinished(db, claim, result) != db {
      MoveStore(cfg, db, claim.table, claim.id, Begun(result, "broadcast_error", db.now));
    }
  }

  lemma FinalizeRowStore(cfg: Config, db: Db, claim: Claim, succeeded: bool, reason: string, journalId: string)
    requires StoreInv(cfg, db) && journalId !in db.journals && claim.phase == ConfirmationPhase
    ensures StoreInv(cfg, FinalizeRow(db, claim, succeeded, reason, journalId))
  {
    hide StoreInv, Payouts.Finalize;
    if claim.table == PayoutTable {
      FinalizeStore(cfg, db, claim, succeeded, reason, journalId);
    } else if claim.id in db.sweeps && HeldLive(db.sweeps[claim.id].job, claim, db.now) {
      MoveStore(cfg, db, SweepTable, claim.id, Finished(succeeded, reason));
    }
  }

  lemma ConfirmationStore(cfg: Config, db: Db, pc: Pc, journalId: string, delay: nat)
    requires StoreInv(cfg, db) && Confirmed(pc) && (pc.Releasing? || journalId !in db.journals) && PhaseAgrees(pc)
    ensures StoreInv(cfg, ConfirmationFinished(db, pc, journalId, delay))
  {
    hide StoreInv, FinalizeRow;
    match pc
    case SawSucceeded(claim) => FinalizeRowStore(cfg, db, claim, true, "", journalId);
    case SawFailed(claim) => FinalizeRowStore(cfg, db, claim, false, "execution_failed", journalId);
    case SawExpired(claim) => FinalizeRowStore(cfg, db, claim, false, "expired_not_found", journalId);
    case Releasing(claim, code) =>
      if ReleaseRow(db, claim, delay, code) != db {
        MoveStore(cfg, db, claim.table, claim.id, ConfirmationReleased(delay, code, db.now));
      }
  }

  lemma WorkStore(cfg: Config, s: State, p: string, x: WorkAction, t: State)
    requires StoreInv(cfg, s.db) && WorkNext(cfg, s, p, x, t) && PhasesAgree(s.procs)
    ensures StoreInv(cfg, t.db)
  {
    hide StoreInv;
    assert PhaseAgrees(s.procs[p].pc);
    match x
    case ClaimRow(table, id, phase, duration) =>
      MoveStore(cfg, s.db, table, id, Claimed(phase, s.procs[p].worker, s.db.now, duration));
    case FinishSigning => SigningStore(cfg, s.db, s.procs[p].pc);
    case FinishBroadcast => BroadcastStore(cfg, s.db, s.procs[p].pc.claim, s.procs[p].pc.result);
    case FinishConfirmation(journalId, delay) => ConfirmationStore(cfg, s.db, s.procs[p].pc, journalId, delay);
    case _ =>
  }

  lemma ScanStore(cfg: Config, db: Db, chain: Chain, proc: Proc, x: ScanAction, next: Db, reached: Pc)
    requires StoreInv(cfg, db) && ScanNext(db, chain, proc, x, next, reached)
    requires proc.pc.ScanFetched? ==> Indexer.EventsValid(cfg.network, proc.pc.contract, proc.pc.block)
    ensures StoreInv(cfg, next)
  {
    hide StoreInv, Indexer.Commit, Indexer.EventsValid, Indexer.BlockContinues;
    if x.ScanCommit? {
      CommitStore(cfg, db, proc.pc.scan, proc.pc.contract, proc.pc.block);
    } else {
      CursorTable(db, chain, proc, x, next, reached);
      QuietStore(cfg, db, next);
    }
  }

  lemma CursorTable(db: Db, chain: Chain, proc: Proc, x: ScanAction, next: Db, reached: Pc)
    requires ScanNext(db, chain, proc, x, next, reached) && !x.ScanCommit?
    ensures next == db.(cursor := next.cursor)
  {
    hide Indexer.EventsValid, Indexer.BlockContinues;
  }

  lemma CaptureStore(cfg: Config, db: Db, chain: Chain, pc: Pc, x: CaptureAction, next: Db, reached: Pc)
    requires StoreInv(cfg, db) && CaptureNext(cfg, db, chain, pc, x, next, reached)
    ensures StoreInv(cfg, next)
  {
    hide StoreInv, CheckpointAvailable, Wallets.ReadCheckpoint, TokenBalance;
    QuietStore(cfg, db, next);
  }
}
