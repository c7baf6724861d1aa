// What a worker's pass amounts to in any run, whatever the others do between its calls: its answer
// decides the row, and a live lease keeps the row its own.
module Passes {
  import opened Prelude
  import opened Chain
  import opened Lease
  import opened Ledger
  import opened Tables
  import opened Gateway
  import opened LeaseColumns
  import opened Invariants
  import opened Statements

  // ---------- a worker stands still between its own calls ----------

  /** The worker a step belongs to, if it is a worker's. */
  predicate ActsAs(a: Action, p: string) {
    !a.Store? && !a.Network? && a.proc == p
  }

  lemma {:induction false} Waits(cfg: Config, states: seq<State>, actions: seq<Action>, j: nat, k: nat, p: string)
    requires Run(cfg, states, actions) && j <= k < |states| && p in states[j].procs
    requires forall i :: j <= i < k ==> !ActsAs(actions[i], p)
    ensures p in states[k].procs && states[k].procs[p] == states[j].procs[p]
    decreases k - j
  {
    hide Next, Initial;
    if j < k {
      Waits(cfg, states, actions, j, k - 1, p);
      assert Linked(cfg, states, actions, k - 1);
      OtherMoves(cfg, states[k - 1], actions[k - 1], states[k], p);
    }
  }

  lemma OtherMoves(cfg: Config, s: State, a: Action, t: State, p: string)
    requires Next(cfg, s, a, t) && p in s.procs && !ActsAs(a, p)
    ensures p in t.procs && t.procs[p] == s.procs[p]
  {
    hide StoreNext, ChainNext, WorkNext, ScanNext, CaptureNext;
    match a
    case Work(q, x) => WorkMoves(cfg, s, q, x, t);
    case _ =>
  }

  // ---------- one confirmation ----------

  /** The worker reads the transaction at step j and makes the last statement of that confirmation at step k, with nothing of its own between. */
  ghost predicate ReadThenFinish(cfg: Config, states: seq<State>, actions: seq<Action>, j: nat, k: nat, p: string, answer: Option<TransactionState>, journalId: string, delay: nat) {
    && Run(cfg, states, actions) && j < k < |actions|
    && actions[j] == Work(p, WorkAction.ReadTransaction(answer)) && actions[k] == Work(p, FinishConfirmation(journalId, delay))
    && forall i :: j < i < k ==> !ActsAs(actions[i], p)
  }

  /** The position from which the last statement is made, for an answer that decides alone. */
  lemma Decided(cfg: Config, states: seq<State>, actions: seq<Action>, j: nat, k: nat, p: string, answer: Option<TransactionState>, journalId: string, delay: nat)
    requires ReadThenFinish(cfg, states, actions, j, k, p, answer, journalId, delay)
    ensures p in states[j].procs && states[j].procs[p].pc.ConfirmClaimed? && p in states[k].procs
    ensures
      var c, pc := states[j].procs[p].pc.claim, states[k].procs[p].pc;
      && (answer == None ==> pc == Releasing(c, "node_error"))
      && (answer == Some(TransactionState(TransactionSucceeded, true)) ==> pc == SawSucceeded(c))
      && (answer == Some(TransactionState(TransactionFailed, true)) ==> pc == SawFailed(c))
      && (answer.Some? && (answer.value.status == Pending || (answer.value.status != NotFound && !answer.value.solidified)) ==> pc == Releasing(c, ""))
  {
    hide Initial, Linked;
    Stepped(cfg, states, actions, j, p, WorkAction.ReadTransaction(answer));
    Reader(cfg, states[j], p, answer, states[j + 1]);
    ReadStatement(cfg, states, actions, j, p, answer);
    Waits(cfg, states, actions, j + 1, k, p);
  }

  lemma Reader(cfg: Config, s: State, p: string, answer: Option<TransactionState>, t: State)
    requires WorkNext(cfg, s, p, WorkAction.ReadTransaction(answer), t)
    ensures p in s.procs && s.procs[p].pc.ConfirmClaimed? && p in t.procs
  {
  }

  /** The worker reads the transaction as missing at step j, the head at step m, and nothing of its own lies between. */
  ghost predicate MissingThenHead(cfg: Config, states: seq<State>, actions: seq<Action>, j: nat, m: nat, p: string) {
    && Run(cfg, states, actions) && j < m < |actions|
    && actions[j].Work? && actions[j].proc == p && actions[j].work.ReadTransaction? && actions[j].work.answer.Some?
    && actions[j].work.answer.value.status == NotFound && actions[m] == Work(p, WorkAction.ReadHead(true))
    && forall i :: j < i < m ==> !ActsAs(actions[i], p)
  }

  /** Missing, and the head has reached the expiration or not: the position from which the worker goes on. */
  lemma MissingDecided(cfg: Config, states: seq<State>, actions: seq<Action>, j: nat, m: nat, k: nat, p: string)
    requires MissingThenHead(cfg, states, actions, j, m, p) && m < k < |states| && forall i :: m < i < k ==> !ActsAs(actions[i], p)
    ensures p in states[j].procs && states[j].procs[p].pc.ConfirmClaimed? && states[j].procs[p].pc.claim.transaction.Some?
    ensures states[m].chain.solidified < |states[m].chain.blocks| && p in states[k].procs
    ensures
      var c, chain := states[j].procs[p].pc.claim, states[m].chain;
      states[k].procs[p].pc ==
        if c.transaction.value.payload.expiresAt <= chain.blocks[chain.solidified].header.timestamp then SawExpired(c) else Rebroadcasting(c)
  {
    hide Initial, Linked;
    var answer := actions[j].work.answer;
    Stepped(cfg, states, actions, j, p, WorkAction.ReadTransaction(answer));
    Reader(cfg, states[j], p, answer, states[j + 1]);
    ReadStatement(cfg, states, actions, j, p, answer);
    Waits(cfg, states, actions, j + 1, m, p);
    HeadStatement(cfg, states, actions, m, p, true);
    Waits(cfg, states, actions, m + 1, k, p);
  }

  // ---------- what becomes of a payout ----------

  /** Whether the claim may still settle the payout when the statement is made. */
  predicate MaySettle(db: Db, c: Claim, success: bool) {
    && c.table == PayoutTable && c.id in db.payouts && db.payouts[c.id].job.status == Confirming && Live(db.payouts[c.id].job, c, db.now)
    && OpenAccount(db, Frozen(db.payouts[c.id].merchant, db.payouts[c.id].asset))
    && OpenAccount(db, if success then Custody(db.payouts[c.id].asset) else Available(db.payouts[c.id].merchant, db.payouts[c.id].asset))
  }

  ghost predicate Moved(was: Db, db: Db, account: Account, amount: int) {
    Balance(db.journals, account) == Balance(was.journals, account) + amount
  }

  /** The payout failed for this reason, and what was frozen for it is available to its merchant. */
  ghost predicate Released(was: Db, db: Db, id: string, reason: string) {
    && id in was.payouts && id in db.payouts && db.payouts[id].job.status == Failed && db.payouts[id].job.failureReason == reason
    && var p := was.payouts[id];
       && Moved(was, db, Frozen(p.merchant, p.asset), -p.amount) && Moved(was, db, Available(p.merchant, p.asset), p.amount)
       && Moved(was, db, Custody(p.asset), 0)
  }

  /** The payout succeeded, and what was frozen for it has left custody. */
  ghost predicate Settled(was: Db, db: Db, id: string) {
    && id in was.payouts && id in db.payouts && db.payouts[id].job.status == Succeeded
    && var p := was.payouts[id];
       && Moved(was, db, Frozen(p.merchant, p.asset), -p.amount) && Moved(was, db, Available(p.merchant, p.asset), 0)
       && Moved(was, db, Custody(p.asset), -p.amount)
  }

  lemma VerdictLands(cfg: Config, states: seq<State>, actions: seq<Action>, k: nat, p: string, journalId: string, delay: nat)
    requires At(cfg, states, actions, k, p, FinishConfirmation(journalId, delay)) && p in states[k].procs && HasVerdict(states[k].procs[p].pc)
    requires MaySettle(states[k].db, states[k].procs[p].pc.claim, states[k].procs[p].pc.SawSucceeded?)
    ensures
      var pc, id := states[k].procs[p].pc, states[k].procs[p].pc.claim.id;
      if pc.SawSucceeded? then Settled(states[k].db, states[k + 1].db, id) else Released(states[k].db, states[k + 1].db, id, ReasonOf(pc))
  {
    hide Linked, Initial, Balance;
    PayoutVerdict(cfg, states, actions, k, p, journalId, delay);
    var db, pc := states[k].db, states[k].procs[p].pc;
    var row := db.payouts[pc.claim.id];
    VerdictMoves(db, pc, journalId, Frozen(row.merchant, row.asset));
    VerdictMoves(db, pc, journalId, Available(row.merchant, row.asset));
    VerdictMoves(db, pc, journalId, Custody(row.asset));
  }

  /** Seen succeeded on a solidified block, a payout is settled. */
  lemma SucceededIsSettled(cfg: Config, states: seq<State>, actions: seq<Action>, j: nat, k: nat, p: string, journalId: string, delay: nat)
    requires ReadThenFinish(cfg, states, actions, j, k, p, Some(TransactionState(TransactionSucceeded, true)), journalId, delay)
    requires p in states[j].procs && states[j].procs[p].pc.ConfirmClaimed? && MaySettle(states[k].db, states[j].procs[p].pc.claim, true)
    ensures Settled(states[k].db, states[k + 1].db, states[j].procs[p].pc.claim.id)
  {
    hide Initial, Linked, Settled;
    Decided(cfg, states, actions, j, k, p, Some(TransactionState(TransactionSucceeded, true)), journalId, delay);
    VerdictLands(cfg, states, actions, k, p, journalId, delay);
  }

  /** Seen failed on a solidified block, a payout is failed and its amount given back. */
  lemma FailedIsReleased(cfg: Config, states: seq<State>, actions: seq<Action>, j: nat, k: nat, p: string, journalId: string, delay: nat)
    requires ReadThenFinish(cfg, states, actions, j, k, p, Some(TransactionState(TransactionFailed, true)), journalId, delay)
    requires p in states[j].procs && states[j].procs[p].pc.ConfirmClaimed? && MaySettle(states[k].db, states[j].procs[p].pc.claim, false)
    ensures Released(states[k].db, states[k + 1].db, states[j].procs[p].pc.claim.id, "execution_failed")
  {
    hide Initial, Linked, Released;
    Decided(cfg, states, actions, j, k, p, Some(TransactionState(TransactionFailed, true)), journalId, delay);
    VerdictLands(cfg, states, actions, k, p, journalId, delay);
  }

  /** Missing, with the solidified head at or past its expiration, a payout is failed and its amount given back. */
  lemma ExpiredIsReleased(cfg: Config, states: seq<State>, actions: seq<Action>, j: nat, m: nat, k: nat, p: string, journalId: string, delay: nat)
    requires MissingThenHead(cfg, states, actions, j, m, p) && m < k < |actions| && forall i :: m < i < k ==> !ActsAs(actions[i], p)
    requires actions[k] == Work(p, FinishConfirmation(journalId, delay))
    requires p in states[j].procs && states[j].procs[p].pc.ConfirmClaimed? && states[j].procs[p].pc.claim.transaction.Some?
    requires states[m].chain.solidified < |states[m].chain.blocks|
    requires states[j].procs[p].pc.claim.transaction.value.payload.expiresAt <= states[m].chain.blocks[states[m].chain.solidified].header.timestamp
    requires MaySettle(states[k].db, states[j].procs[p].pc.claim, false)
    ensures Released(states[k].db, states[k + 1].db, states[j].procs[p].pc.claim.id, "expired_not_found")
  {
    hide Initial, Linked, Released;
    MissingDecided(cfg, states, actions, j, m, k, p);
    VerdictLands(cfg, states, actions, k, p, journalId, delay);
  }

  // ---------- what becomes of a row without a verdict, and of a sweep ----------

  /** The row stays confirming and is due again after delay. */
  ghost predicate DueAgain(was: Db, db: Db, c: Claim, delay: nat, code: string) {
    && HasRow(was, c.table, c.id)
    && OnlyRow(was, db, c.table, c.id, RowJob(was, c.table, c.id).(nextConfirmation := was.now + delay, lastError := code, lease := None))
  }

  predicate MayRelease(db: Db, c: Claim) {
    HasRow(db, c.table, c.id) && RowJob(db, c.table, c.id).status == Confirming && Leased(RowJob(db, c.table, c.id), c)
  }

  /** Pending, not solidified, or not answered: the row is due again after delay. */
  lemma UndecidedWaits(cfg: Config, states: seq<State>, actions: seq<Action>, j: nat, k: nat, p: string, answer: Option<TransactionState>, journalId: string, delay: nat)
    requires ReadThenFinish(cfg, states, actions, j, k, p, answer, journalId, delay)
    requires answer.None? || answer.value.status == Pending || (answer.value.status != NotFound && !answer.value.solidified)
    requires p in states[j].procs && states[j].procs[p].pc.ConfirmClaimed? && MayRelease(states[k].db, states[j].procs[p].pc.claim)
    ensures DueAgain(states[k].db, states[k + 1].db, states[j].procs[p].pc.claim, delay, if answer.None? then "node_error" else "")
  {
    hide Initial, Linked;
    Decided(cfg, states, actions, j, k, p, answer, journalId, delay);
    ReleaseStatement(cfg, states, actions, k, p, journalId, delay);
  }

  /** Missing but not expired: the worker submits the very transaction again, and then the row is due again after delay. */
  lemma MissingIsResent(cfg: Config, states: seq<State>, actions: seq<Action>, j: nat, m: nat, n: nat, k: nat, p: string, delivery: Delivery, journalId: string, delay: nat)
    requires MissingThenHead(cfg, states, actions, j, m, p) && m < n < k < |actions|
    requires (forall i :: m < i < n ==> !ActsAs(actions[i], p)) && (forall i :: n < i < k ==> !ActsAs(actions[i], p))
    requires actions[n] == Work(p, WorkAction.Broadcast(delivery)) && actions[k] == Work(p, FinishConfirmation(journalId, delay))
    requires p in states[j].procs && states[j].procs[p].pc.ConfirmClaimed? && MayRelease(states[k].db, states[j].procs[p].pc.claim)
    ensures states[j].procs[p].pc.claim.transaction.Some?
    ensures
      var c, known := states[j].procs[p].pc.claim, states[n].chain.broadcasted;
      var tx := c.transaction.value;
      var taken := delivery != RejectedByNode && tx.id != "" && tx.payload.bytes != "" && (tx.id in known ==> known[tx.id] == tx.payload);
      && states[n + 1].chain.broadcasted == (if taken then known[tx.id := tx.payload] else known)
      && DueAgain(states[k].db, states[k + 1].db, c, delay, if taken && delivery == Delivered then "" else "rebroadcast_error")
  {
    hide Initial, Linked;
    MissingDecided(cfg, states, actions, j, m, n, p);
    Stepped(cfg, states, actions, n, p, WorkAction.Broadcast(delivery));
    Submitter(cfg, states[n], p, delivery, states[n + 1]);
    SubmitStatement(cfg, states, actions, n, p, delivery);
    Waits(cfg, states, actions, n + 1, k, p);
    ReleaseStatement(cfg, states, actions, k, p, journalId, delay);
  }

  lemma Submitter(cfg: Config, s: State, p: string, delivery: Delivery, t: State)
    requires WorkNext(cfg, s, p, WorkAction.Broadcast(delivery), t)
    ensures p in s.procs && (s.procs[p].pc.BroadcastClaimed? || s.procs[p].pc.Rebroadcasting?)
  {
  }

  /** A sweep seen executed on a solidified block is settled accordingly. */
  lemma SweepIsSettled(cfg: Config, states: seq<State>, actions: seq<Action>, j: nat, k: nat, p: string, success: bool, journalId: string, delay: nat)
    requires ReadThenFinish(cfg, states, actions, j, k, p, Some(TransactionState(if success then TransactionSucceeded else TransactionFailed, true)), journalId, delay)
    requires p in states[j].procs && states[j].procs[p].pc.ConfirmClaimed? && states[j].procs[p].pc.claim.table == SweepTable
    requires states[j].procs[p].pc.claim.id in states[k].db.sweeps
    requires
      var job := states[k].db.sweeps[states[j].procs[p].pc.claim.id].job;
      job.status == Confirming && Live(job, states[j].procs[p].pc.claim, states[k].db.now)
    ensures
      var id := states[j].procs[p].pc.claim.id;
      OnlyRow(states[k].db, states[k + 1].db, SweepTable, id,
              states[k].db.sweeps[id].job.(status := if success then Succeeded else Failed,
                                           failureReason := if success then "" else "execution_failed", lastError := "", lease := None))
  {
    hide Initial, Linked;
    Decided(cfg, states, actions, j, k, p, Some(TransactionState(if success then TransactionSucceeded else TransactionFailed, true)), journalId, delay);
    SweepVerdict(cfg, states, actions, k, p, journalId, delay);
  }

  /** A missing and expired sweep is failed. */
  lemma SweepExpires(cfg: Config, states: seq<State>, actions: seq<Action>, j: nat, m: nat, k: nat, p: string, journalId: string, delay: nat)
    requires MissingThenHead(cfg, states, actions, j, m, p) && m < k < |actions| && forall i :: m < i < k ==> !ActsAs(actions[i], p)
    requires actions[k] == Work(p, FinishConfirmation(journalId, delay))
    requires p in states[j].procs && states[j].procs[p].pc.ConfirmClaimed? && states[j].procs[p].pc.claim.transaction.Some?
    requires states[j].procs[p].pc.claim.table == SweepTable && states[j].procs[p].pc.claim.id in states[k].db.sweeps
    requires states[m].chain.solidified < |states[m].chain.blocks|
    requires states[j].procs[p].pc.claim.transaction.value.payload.expiresAt <= states[m].chain.blocks[states[m].chain.solidified].header.timestamp
    requires
      var job := states[k].db.sweeps[states[j].procs[p].pc.claim.id].job;
      job.status == Confirming && Live(job, states[j].procs[p].pc.claim, states[k].db.now)
    ensures
      var id := states[j].procs[p].pc.claim.id;
      OnlyRow(states[k].db, states[k + 1].db, SweepTable, id,
              states[k].db.sweeps[id].job.(status := Failed, failureReason := "expired_not_found", lastError := "", lease := None))
  {
    hide Initial, Linked;
    MissingDecided(cfg, states, actions, j, m, k, p);
    SweepVerdict(cfg, states, actions, k, p, journalId, delay);
  }
}
