// What one call of a signing or execution worker does in any run, told on the columns it reads and
// writes: which row it may take, when its answer is stored, and what its verdict makes of the row.
module Statements {
  import opened Prelude
  import opened Chain
  import opened Lease
  import opened Ledger
  import opened Tables
  import opened Gateway
  import opened LeaseColumns
  import opened LedgerProofs
  import opened LedgerTransactions
  import opened StoreProofs
  import opened RowSteps
  import opened Protocol
  import opened Invariants
  import opened Theorems
  import Payouts

  /** The worker at its step, its claim, and the row it is about. */
  ghost predicate At(cfg: Config, states: seq<State>, actions: seq<Action>, k: nat, p: string, x: WorkAction) {
    Run(cfg, states, actions) && k < |actions| && actions[k] == Work(p, x)
  }

  lemma Stepped(cfg: Config, states: seq<State>, actions: seq<Action>, k: nat, p: string, x: WorkAction)
    requires At(cfg, states, actions, k, p, x)
    ensures WorkNext(cfg, states[k], p, x, states[k + 1]) && p in states[k].procs
  {
    hide WorkNext, Initial;
    assert Linked(cfg, states, actions, k);
    WorkerKnown(cfg, states[k], p, x, states[k + 1]);
  }

  lemma WorkerKnown(cfg: Config, s: State, p: string, x: WorkAction, t: State)
    requires WorkNext(cfg, s, p, x, t)
    ensures p in s.procs
  {
  }

  // ---------- claiming ----------

  /**
   * A row is only given out in the status of the phase, when nobody holds a live lease on it, and for
   * a confirmation when that is due; the claimer gets it until now + duration under the next epoch.
   */
  lemma ClaimStatement(cfg: Config, states: seq<State>, actions: seq<Action>, k: nat, p: string, table: Table, id: string, phase: Phase, duration: nat)
    requires At(cfg, states, actions, k, p, ClaimRow(table, id, phase, duration))
    ensures HasRow(states[k].db, table, id) && p in states[k].procs
    ensures
      var now, was := states[k].db.now, RowJob(states[k].db, table, id);
      && (was.lease.Some? ==> was.lease.value.until <= now)
      && (phase == SigningPhase ==> was.status == Approved)
      && (phase == BroadcastPhase ==> was.status == ReadyForBroadcast)
      && (phase == ConfirmationPhase ==> was.status == Confirming && was.nextConfirmation <= now)
      && OnlyRow(states[k].db, states[k + 1].db, table, id,
                 ClaimedJob(was, phase, states[k].procs[p].worker, now, duration))
  {
    Stepped(cfg, states, actions, k, p, ClaimRow(table, id, phase, duration));
  }

  /** The claim hands out the row's own request and signed transaction. */
  lemma ClaimContent(cfg: Config, states: seq<State>, actions: seq<Action>, k: nat, p: string, table: Table, id: string, phase: Phase, duration: nat)
    requires At(cfg, states, actions, k, p, ClaimRow(table, id, phase, duration))
    ensures HasRow(states[k].db, table, id) && p in states[k].procs && p in states[k + 1].procs
    ensures
      var s := states[k];
      var was := RowJob(s.db, table, id);
      var request :=
        if table == PayoutTable
        then TransferRequest(id, s.db.payouts[id].asset, cfg.hot, s.db.payouts[id].destination, s.db.payouts[id].amount)
        else TransferRequest(id, s.db.sweeps[id].asset, s.db.sweeps[id].source, s.db.sweeps[id].destination, s.db.sweeps[id].amount);
      var claim := Claim(table, id, s.procs[p].worker, was.epoch + 1, phase, request, was.transaction);
      && states[k + 1].procs[p].pc ==
           (match phase
            case SigningPhase => SigningClaimed(claim)
            case BroadcastPhase => BroadcastClaimed(claim)
            case ConfirmationPhase => ConfirmClaimed(claim))
      && states[k + 1].log == s.log + [claim] && states[k + 1].signer == s.signer && states[k + 1].chain == s.chain
  {
    Stepped(cfg, states, actions, k, p, ClaimRow(table, id, phase, duration));
  }

  // ---------- signing ----------

  /** A signature is stored exactly while the claim's lease on the approved row is live; it then ends the lease. */
  lemma SignatureStatement(cfg: Config, states: seq<State>, actions: seq<Action>, k: nat, p: string)
    requires At(cfg, states, actions, k, p, FinishSigning) && p in states[k].procs && states[k].procs[p].pc.SignerReturned?
    ensures
      var db, c, tx := states[k].db, states[k].procs[p].pc.claim, states[k].procs[p].pc.tx;
      && HasRow(db, c.table, c.id)
      && var was := RowJob(db, c.table, c.id);
         if was.status == Approved && Live(was, c, db.now)
         then OnlyRow(db, states[k + 1].db, c.table, c.id, was.(status := ReadyForBroadcast, transaction := Some(tx), lease := None, lastError := ""))
         else states[k + 1].db == db
  {
    hide Initial, Inv, StoreInv, LedgerInv, ProtocolInv, TransactionUnused;
    Stepped(cfg, states, actions, k, p, FinishSigning);
    SigningNeverConflicts(cfg, states, actions, k, p);
    ClaimerRow(cfg, states, actions, k, p);
  }

  /** After a signer error the row is given back exactly while it carries the claim's lease. */
  lemma SigningReleaseStatement(cfg: Config, states: seq<State>, actions: seq<Action>, k: nat, p: string)
    requires At(cfg, states, actions, k, p, FinishSigning) && p in states[k].procs && states[k].procs[p].pc.SignerErred?
    ensures
      var db, c := states[k].db, states[k].procs[p].pc.claim;
      && HasRow(db, c.table, c.id)
      && var was := RowJob(db, c.table, c.id);
         if was.status == Approved && Leased(was, c) then OnlyRow(db, states[k + 1].db, c.table, c.id, was.(lease := None, lastError := "signer_error"))
         else states[k + 1].db == db
  {
    hide Initial, Inv, StoreInv, LedgerInv, ProtocolInv, TransactionUnused;
    Stepped(cfg, states, actions, k, p, FinishSigning);
    ClaimerRow(cfg, states, actions, k, p);
  }

  /** A worker's claim is about a row, in the phase of its position. */
  lemma ClaimerRow(cfg: Config, states: seq<State>, actions: seq<Action>, k: nat, p: string)
    requires Run(cfg, states, actions) && k < |states| && p in states[k].procs && HasClaim(states[k].procs[p].pc)
    ensures HasRow(states[k].db, states[k].procs[p].pc.claim.table, states[k].procs[p].pc.claim.id)
    ensures PhaseAgrees(states[k].procs[p].pc)
    ensures states[k].procs[p].pc.claim.phase != SigningPhase ==>
      var c := states[k].procs[p].pc.claim;
      c.transaction.Some? && RowJob(states[k].db, c.table, c.id).transaction == c.transaction
  {
    hide Next, Initial, Inv, StoreInv, LedgerInv, ProtocolInv;
    RunParts(cfg, states, actions, k);
    ClaimOf(cfg, states[k], p);
  }

  // ---------- broadcasting ----------

  /** Whatever the node said, confirmation begins at once, exactly while the claim's lease on the ready row is live. */
  lemma BeginStatement(cfg: Config, states: seq<State>, actions: seq<Action>, k: nat, p: string)
    requires At(cfg, states, actions, k, p, FinishBroadcast) && p in states[k].procs && states[k].procs[p].pc.BroadcastDone?
    ensures
      var db, c, result := states[k].db, states[k].procs[p].pc.claim, states[k].procs[p].pc.result;
      && HasRow(db, c.table, c.id)
      && var was := RowJob(db, c.table, c.id);
         if was.status == ReadyForBroadcast && Live(was, c, db.now)
         then OnlyRow(db, states[k + 1].db, c.table, c.id,
                      was.(status := Confirming, broadcastResult := Some(result), nextConfirmation := db.now, lease := None,
                           lastError := if result == Accepted then "" else "broadcast_error"))
         else states[k + 1].db == db
  {
    hide Initial, Inv, StoreInv, LedgerInv, ProtocolInv;
    Stepped(cfg, states, actions, k, p, FinishBroadcast);
    ClaimerRow(cfg, states, actions, k, p);
  }

  /** A submission records the claim's transaction unless the node refuses it, and is acknowledged only when delivered. */
  lemma SubmitStatement(cfg: Config, states: seq<State>, actions: seq<Action>, k: nat, p: string, delivery: Delivery)
    requires At(cfg, states, actions, k, p, WorkAction.Broadcast(delivery))
    requires p in states[k].procs && (states[k].procs[p].pc.BroadcastClaimed? || states[k].procs[p].pc.Rebroadcasting?)
    ensures states[k].procs[p].pc.claim.transaction.Some? && p in states[k + 1].procs && states[k + 1].db == states[k].db
    ensures
      var s, pc := states[k], states[k].procs[p].pc;
      var tx := pc.claim.transaction.value;
      var known := s.chain.broadcasted;
      var taken := delivery != RejectedByNode && tx.id != "" && tx.payload.bytes != "" && (tx.id in known ==> known[tx.id] == tx.payload);
      var acknowledged := taken && delivery == Delivered;
      && states[k + 1].chain == s.chain.(broadcasted := if taken then known[tx.id := tx.payload] else known)
      && states[k + 1].procs[p].pc ==
           (if pc.BroadcastClaimed? then BroadcastDone(pc.claim, if acknowledged then Accepted else Unknown)
            else Releasing(pc.claim, if acknowledged then "" else "rebroadcast_error"))
  {
    Stepped(cfg, states, actions, k, p, WorkAction.Broadcast(delivery));
  }

  // ---------- confirming ----------

  /** What the first read makes of the node's answer. */
  lemma ReadStatement(cfg: Config, states: seq<State>, actions: seq<Action>, k: nat, p: string, answer: Option<TransactionState>)
    requires At(cfg, states, actions, k, p, WorkAction.ReadTransaction(answer)) && p in states[k].procs && states[k].procs[p].pc.ConfirmClaimed?
    ensures p in states[k + 1].procs && states[k + 1].db == states[k].db && states[k + 1].chain == states[k].chain
    ensures
      var c, pc := states[k].procs[p].pc.claim, states[k + 1].procs[p].pc;
      && (answer == None ==> pc == Releasing(c, "node_error"))
      && (answer == Some(TransactionState(TransactionSucceeded, true)) ==> pc == SawSucceeded(c))
      && (answer == Some(TransactionState(TransactionFailed, true)) ==> pc == SawFailed(c))
      && (answer.Some? && answer.value.status == NotFound ==> pc == SawNotFound(c, states[k].chain.solidified))
      && (answer.Some? && answer.value.status == Pending ==> pc == Releasing(c, ""))
      && (answer.Some? && answer.value.status in {TransactionSucceeded, TransactionFailed} && !answer.value.solidified ==> pc == Releasing(c, ""))
  {
    Stepped(cfg, states, actions, k, p, WorkAction.ReadTransaction(answer));
  }

  /** What the second read makes of the solidified head: expired from its very timestamp on. */
  lemma HeadStatement(cfg: Config, states: seq<State>, actions: seq<Action>, k: nat, p: string, reachable: bool)
    requires At(cfg, states, actions, k, p, WorkAction.ReadHead(reachable)) && p in states[k].procs && states[k].procs[p].pc.SawNotFound?
    ensures states[k].procs[p].pc.claim.transaction.Some? && states[k].chain.solidified < |states[k].chain.blocks|
    ensures p in states[k + 1].procs && states[k + 1].db == states[k].db && states[k + 1].chain == states[k].chain
    ensures
      var c, chain, pc := states[k].procs[p].pc.claim, states[k].chain, states[k + 1].procs[p].pc;
      pc == if !reachable then Releasing(c, "node_error")
            else if c.transaction.value.payload.expiresAt <= chain.blocks[chain.solidified].header.timestamp then SawExpired(c)
            else Rebroadcasting(c)
  {
    Stepped(cfg, states, actions, k, p, WorkAction.ReadHead(reachable));
  }

  /** Without a verdict the row waits for delay, exactly while it carries the claim's lease. */
  lemma ReleaseStatement(cfg: Config, states: seq<State>, actions: seq<Action>, k: nat, p: string, journalId: string, delay: nat)
    requires At(cfg, states, actions, k, p, FinishConfirmation(journalId, delay)) && p in states[k].procs && states[k].procs[p].pc.Releasing?
    ensures
      var db, c, code := states[k].db, states[k].procs[p].pc.claim, states[k].procs[p].pc.code;
      && HasRow(db, c.table, c.id)
      && var was := RowJob(db, c.table, c.id);
         if was.status == Confirming && Leased(was, c)
         then OnlyRow(db, states[k + 1].db, c.table, c.id, was.(nextConfirmation := db.now + delay, lastError := code, lease := None))
         else states[k + 1].db == db
  {
    hide Initial, Inv, StoreInv, LedgerInv, ProtocolInv;
    Stepped(cfg, states, actions, k, p, FinishConfirmation(journalId, delay));
    ClaimerRow(cfg, states, actions, k, p);
  }

  /** The reason a verdict leaves on the row. */
  function ReasonOf(pc: Pc): string {
    if pc.SawFailed? then "execution_failed" else if pc.SawExpired? then "expired_not_found" else ""
  }

  predicate HasVerdict(pc: Pc) {
    pc.SawSucceeded? || pc.SawFailed? || pc.SawExpired?
  }

  /** A verdict on a sweep settles it exactly while the claim's lease on the confirming row is live. */
  lemma SweepVerdict(cfg: Config, states: seq<State>, actions: seq<Action>, k: nat, p: string, journalId: string, delay: nat)
    requires At(cfg, states, actions, k, p, FinishConfirmation(journalId, delay)) && p in states[k].procs && HasVerdict(states[k].procs[p].pc)
    requires states[k].procs[p].pc.claim.table == SweepTable
    ensures
      var db, pc, c := states[k].db, states[k].procs[p].pc, states[k].procs[p].pc.claim;
      && c.id in db.sweeps
      && var was := db.sweeps[c.id].job;
         if was.status == Confirming && Live(was, c, db.now)
         then OnlyRow(db, states[k + 1].db, SweepTable, c.id,
                      was.(status := if pc.SawSucceeded? then Succeeded else Failed, failureReason := ReasonOf(pc), lastError := "", lease := None))
         else states[k + 1].db == db
  {
    hide Initial, Inv, StoreInv, LedgerInv, ProtocolInv, Payouts.Finalize;
    Stepped(cfg, states, actions, k, p, FinishConfirmation(journalId, delay));
    ClaimerRow(cfg, states, actions, k, p);
  }

  predicate OpenAccount(db: Db, account: Account) {
    account in db.accounts && db.accounts[account] in {Active, Locked}
  }

  /** The payout row, journal and event that a verdict writes. */
  function Verdict(db: Db, pc: Pc, journalId: string): Db
    requires HasVerdict(pc) && pc.claim.id in db.payouts
  {
    var id, p := pc.claim.id, db.payouts[pc.claim.id];
    var success := pc.SawSucceeded?;
    var entries := [
      Entry(Frozen(p.merchant, p.asset), p.asset, DebitSide, p.amount),
      Entry(if success then Custody(p.asset) else Available(p.merchant, p.asset), p.asset, CreditSide, p.amount)];
    var journal :=
      if success then Journal(PayoutConfirmationSystem, SettlementKey(id), PayoutSettlement, id, entries)
      else Journal(PayoutConfirmationSystem, ReleaseKey(id), PayoutFailureRelease, id, entries);
    var job := p.job.(status := if success then Succeeded else Failed, failureReason := ReasonOf(pc), lastError := "", lease := None);
    db.(payouts := db.payouts[id := if success then p.(settlementId := Some(journalId), job := job) else p.(unfreezeId := Some(journalId), job := job)],
        journals := db.journals[journalId := journal],
        outbox := db.outbox + [OutboxEvent(if success then PayoutSucceeded else PayoutFailed, id, p.amount, journalId)])
  }

  /**
   * A verdict on a payout settles or fails it together with its journal and event, exactly while the
   * claim's lease on the confirming row is live and both accounts are open.
   */
  lemma PayoutVerdict(cfg: Config, states: seq<State>, actions: seq<Action>, k: nat, p: string, journalId: string, delay: nat)
    requires At(cfg, states, actions, k, p, FinishConfirmation(journalId, delay)) && p in states[k].procs && HasVerdict(states[k].procs[p].pc)
    requires states[k].procs[p].pc.claim.table == PayoutTable
    ensures states[k].procs[p].pc.claim.id in states[k].db.payouts
    ensures
      var db, pc, c := states[k].db, states[k].procs[p].pc, states[k].procs[p].pc.claim;
      var row := db.payouts[c.id];
      if row.job.status == Confirming && Live(row.job, c, db.now) && OpenAccount(db, Frozen(row.merchant, row.asset))
         && OpenAccount(db, if pc.SawSucceeded? then Custody(row.asset) else Available(row.merchant, row.asset))
      then journalId !in db.journals && states[k + 1].db == Verdict(db, pc, journalId)
      else states[k + 1].db == db
  {
    hide Initial, Inv, StoreInv, LedgerInv, ProtocolInv, Payouts.Finalize;
    Stepped(cfg, states, actions, k, p, FinishConfirmation(journalId, delay));
    ClaimerRow(cfg, states, actions, k, p);
    RunParts(cfg, states, actions, k);
    var db, pc := states[k].db, states[k].procs[p].pc;
    Finalizes(db, pc, journalId);
    assert states[k + 1].db == Payouts.Finalize(db, pc.claim, pc.SawSucceeded?, ReasonOf(pc), journalId).0;
  }

  lemma Finalizes(db: Db, pc: Pc, journalId: string)
    requires LedgerInv(db) && HasVerdict(pc) && journalId !in db.journals && PhaseAgrees(pc) && pc.claim.id in db.payouts
    ensures
      var row, c := db.payouts[pc.claim.id], pc.claim;
      Payouts.Finalize(db, c, pc.SawSucceeded?, ReasonOf(pc), journalId).0 ==
        if row.job.status == Confirming && Live(row.job, c, db.now) && OpenAccount(db, Frozen(row.merchant, row.asset))
           && OpenAccount(db, if pc.SawSucceeded? then Custody(row.asset) else Available(row.merchant, row.asset))
        then Verdict(db, pc, journalId) else db
  {
    hide LedgerInv, Balance, PostedId, PostedJournals;
    FinalizeKeeps(db, pc.claim, pc.SawSucceeded?, ReasonOf(pc), journalId);
  }

  /** A settlement pays the frozen amount out of custody, a failure gives it back to the merchant; no other balance moves. */
  lemma VerdictMoves(db: Db, pc: Pc, journalId: string, account: Account)
    requires HasVerdict(pc) && pc.claim.id in db.payouts && journalId !in db.journals
    ensures
      var p := db.payouts[pc.claim.id];
      Balance(Verdict(db, pc, journalId).journals, account) == Balance(db.journals, account)
        + (if account == Frozen(p.merchant, p.asset) then -p.amount
           else if pc.SawSucceeded? && account == Custody(p.asset) then -p.amount
           else if !pc.SawSucceeded? && account == Available(p.merchant, p.asset) then p.amount
           else 0)
  {
    var p := db.payouts[pc.claim.id];
    var credit := if pc.SawSucceeded? then Custody(p.asset) else Available(p.merchant, p.asset);
    PostingMoves(db.journals, journalId, Verdict(db, pc, journalId).journals[journalId], Frozen(p.merchant, p.asset), credit, p.asset, p.amount, account);
  }
}
