// A failed row is refunded. Exactly when was it paid as well: only, and always, when the expiry that
// settled it overlooked a successful execution between its two reads.
module Refunds {
  import opened Chain
  import opened Lease
  import opened Tables
  import opened Gateway
  import opened RowProofs
  import opened RowSteps
  import opened Protocol
  import opened StoreProofs
  import opened IndexProofs
  import opened SweepProofs
  import opened Invariants
  import opened Finality
  import opened Theorems
  import LedgerProofs

  /** Some canonical block holds the transaction's successful execution. */
  ghost predicate Pays(chain: Chain, id: string) {
    exists i :: 0 <= i < |chain.blocks| && Receipt(id, ExecutionSucceeded) in chain.blocks[i].receipts
  }

  /** The declared expiry overlooked a successful execution that solidified after the first read. */
  predicate Overlooks(s: State, a: Action)
    requires Expires(s, a)
  {
    var pc := s.procs[a.proc].pc;
    exists i :: pc.readAt < i <= s.chain.solidified && i < |s.chain.blocks|
                && Receipt(pc.claim.transaction.value.id, ExecutionSucceeded) in s.chain.blocks[i].receipts
  }

  /** At step m a worker fails the row, on the expiry it declared at step j overlooking a success. */
  ghost predicate FailedWrongly(states: seq<State>, actions: seq<Action>, table: Table, id: string, j: nat, m: nat)
    requires j < m < |actions| && |states| == |actions| + 1
  {
    Expires(states[j], actions[j]) && Overlooks(states[j], actions[j]) && Fails(states[m], actions[m], states[m + 1], table, id)
    && actions[j].proc == actions[m].proc && states[m].procs[actions[m].proc].pc == SawExpired(states[j].procs[actions[j].proc].pc.claim)
  }

  /** The step fails the row. */
  ghost predicate Fails(s: State, a: Action, t: State, table: Table, id: string) {
    && a.Work? && a.proc in s.procs && (s.procs[a.proc].pc.SawExpired? || s.procs[a.proc].pc.SawFailed?)
    && HasRow(s.db, table, id) && RowJob(s.db, table, id).status == Confirming
    && HasRow(t.db, table, id) && RowJob(t.db, table, id).status == Failed
    && s.procs[a.proc].pc.claim.table == table && s.procs[a.proc].pc.claim.id == id
  }

  // ---------- back to the step that failed the row ----------

  /** Whoever stands at a declared expiry declared it at an earlier step. */
  lemma {:induction false} Declared(cfg: Config, states: seq<State>, actions: seq<Action>, k: nat, p: string) returns (j: nat)
    requires Run(cfg, states, actions) && k < |states| && p in states[k].procs && states[k].procs[p].pc.SawExpired?
    ensures j < k && Expires(states[j], actions[j]) && actions[j].proc == p
    ensures states[j].procs[p].pc.claim == states[k].procs[p].pc.claim
  {
    hide Next, Expires;
    assert k > 0;
    assert Linked(cfg, states, actions, k - 1);
    OnlyExpires(cfg, states[k - 1], actions[k - 1], states[k], p);
    if states[k - 1].procs[p].pc == states[k].procs[p].pc {
      j := Declared(cfg, states, actions, k - 1, p);
    } else {
      j := k - 1;
    }
  }

  lemma FailingStep(cfg: Config, s: State, a: Action, t: State, table: Table, id: string)
    requires Inv(cfg, s) && Next(cfg, s, a, t)
    requires HasRow(t.db, table, id) && RowJob(t.db, table, id).status == Failed
    requires HasRow(s.db, table, id) ==> RowJob(s.db, table, id).status != Failed
    ensures Fails(s, a, t, table, id)
  {
    hide StoreInv, IndexInv, ScansSound, SweepInv, Next, RowsChanged, PhasesAgree, SignerSound, RowsSigned, ChainSound, IncludedBroadcast, BroadcastSound, ProcsSound, LogSound, LeasesLogged, SuccessSound;
    var change := StepRows(cfg, s, a, t);
    RowAfter(cfg, s.db, t.db, change, table, id);
  }

  /** A failed row was failed at some earlier step. */
  lemma {:induction false} FailedAt(cfg: Config, states: seq<State>, actions: seq<Action>, k: nat, table: Table, id: string) returns (m: nat)
    requires Run(cfg, states, actions) && k < |states|
    requires HasRow(states[k].db, table, id) && RowJob(states[k].db, table, id).status == Failed
    ensures m < k && Fails(states[m], actions[m], states[m + 1], table, id)
  {
    hide Next, Inv, Fails;
    assert k > 0;
    if HasRow(states[k - 1].db, table, id) && RowJob(states[k - 1].db, table, id).status == Failed {
      m := FailedAt(cfg, states, actions, k - 1, table, id);
    } else {
      m := k - 1;
      InvRun(cfg, states, actions, m);
      assert Linked(cfg, states, actions, m);
      FailingStep(cfg, states[m], actions[m], states[k], table, id);
    }
  }

  // ---------- what it means for the payment ----------

  /** A right expiry stays right along the run. */
  lemma {:induction false} ExpiredRun(cfg: Config, states: seq<State>, actions: seq<Action>, j: nat, k: nat, request: TransferRequest, tx: SignedTransaction)
    requires Run(cfg, states, actions) && j <= k < |states| && SignedFor(states[j].signer, request, tx) && Expired(states[j].chain, tx)
    ensures SignedFor(states[k].signer, request, tx) && Expired(states[k].chain, tx)
    decreases k - j
  {
    hide Next, Initial, Expired, RowsAdvance, ChainGrows, ProtocolInv;
    if j < k {
      ExpiredRun(cfg, states, actions, j, k - 1, request, tx);
      RunParts(cfg, states, actions, k - 1);
      RunProgress(cfg, states, actions, k - 1, k);
      assert Linked(cfg, states, actions, k - 1);
      ExpiredStays(cfg, states[k - 1], actions[k - 1], states[k], request, tx);
    }
  }

  /** An execution on a solidified block is the only one on every later chain. */
  lemma SolidReceipt(was: Chain, chain: Chain, i: nat, id: string, outcome: Outcome)
    requires ValidChain(chain) && ChainGrows(was, chain) && i <= was.solidified && i < |was.blocks| && Receipt(id, outcome) in was.blocks[i].receipts
    ensures i < |chain.blocks| && Receipt(id, outcome) in chain.blocks[i].receipts
    ensures Pays(chain, id) <==> outcome == ExecutionSucceeded
  {
    hide ValidBlocks;
    PrefixStays(was, chain, i + 1);
    assert chain.blocks[..i + 1][i] == was.blocks[..i + 1][i];
    if Pays(chain, id) {
      var k :| 0 <= k < |chain.blocks| && Receipt(id, ExecutionSucceeded) in chain.blocks[k].receipts;
      ReceiptUnique(chain.network, chain.blocks, i, k, Receipt(id, outcome), Receipt(id, ExecutionSucceeded));
    }
  }

  /** A declared expiry overlooks a successful execution exactly when the transaction pays, then and later. */
  lemma OverlooksExactly(cfg: Config, states: seq<State>, actions: seq<Action>, j: nat, k: nat)
    requires Run(cfg, states, actions) && j < k < |states| && Expires(states[j], actions[j])
    ensures Overlooks(states[j], actions[j]) <==> Pays(states[k].chain, states[j].procs[actions[j].proc].pc.claim.transaction.value.id)
  {
    hide Next, Initial, Inv, ProtocolInv, ValidBlocks, ChainGrows, RowsAdvance, StoreNext;
    var s, pc := states[j], states[j].procs[actions[j].proc].pc;
    var tx := pc.claim.transaction.value;
    RunParts(cfg, states, actions, k);
    ProtocolParts(cfg, states[k]);
    RunProgress(cfg, states, actions, j, k);
    InvRun(cfg, states, actions, j);
    ExpiryExact(cfg, s, actions[j]);
    ExpirerSigned(cfg, s, actions[j]);
    if NothingBetween(s.chain, tx.id, pc.readAt) {
      ExpiredRun(cfg, states, actions, j, k, pc.claim.request, tx);
      AbsentDoesNotPay(states[k].chain, tx);
      QuietDoesNotOverlook(s, actions[j]);
    } else {
      var i :| pc.readAt < i <= s.chain.solidified && i < |s.chain.blocks| && !NoReceipt(s.chain.blocks[i], tx.id);
      var r :| 0 <= r < |s.chain.blocks[i].receipts| && s.chain.blocks[i].receipts[r].transactionId == tx.id;
      var outcome := s.chain.blocks[i].receipts[r].outcome;
      assert s.chain.blocks[i].receipts[r] == Receipt(tx.id, outcome);
      SolidReceipt(s.chain, states[k].chain, i, tx.id, outcome);
      if Overlooks(s, actions[j]) {
        var o :| pc.readAt < o <= s.chain.solidified && o < |s.chain.blocks| && Receipt(tx.id, ExecutionSucceeded) in s.chain.blocks[o].receipts;
        SolidReceipt(s.chain, states[k].chain, o, tx.id, ExecutionSucceeded);
      }
    }
  }

  lemma AbsentDoesNotPay(chain: Chain, tx: SignedTransaction)
    requires Expired(chain, tx)
    ensures !Pays(chain, tx.id)
  {
  }

  lemma QuietDoesNotOverlook(s: State, a: Action)
    requires Expires(s, a) && NothingBetween(s.chain, s.procs[a.proc].pc.claim.transaction.value.id, s.procs[a.proc].pc.readAt)
    ensures !Overlooks(s, a)
  {
  }

  /** A failed row is paid if and only if it was failed on an expiry that overlooked a successful execution. */
  lemma PaidIffOverlooked(cfg: Config, states: seq<State>, actions: seq<Action>, k: nat, table: Table, id: string)
    requires Run(cfg, states, actions) && k < |states|
    requires HasRow(states[k].db, table, id) && RowJob(states[k].db, table, id).status == Failed
    ensures RowJob(states[k].db, table, id).transaction.Some?
    ensures Pays(states[k].chain, RowJob(states[k].db, table, id).transaction.value.id)
       <==> exists j: nat, m: nat :: j < m < k && FailedWrongly(states, actions, table, id, j, m)
  {
    hide Next, Linked, Initial, Inv, Pays, FailedWrongly;
    var m := Settlement(cfg, states, actions, k, table, id);
    var tx := RowJob(states[k].db, table, id).transaction.value;
    if Pays(states[k].chain, tx.id) {
      var j := PaidOverlooked(cfg, states, actions, k, m, table, id);
    }
    forall j: nat, n: nat | j < n < k && FailedWrongly(states, actions, table, id, j, n)
      ensures Pays(states[k].chain, tx.id)
    {
      OverlookedPaid(cfg, states, actions, k, table, id, j, n);
    }
  }

  /** The step that failed the row, by a worker whose claim carries the row's transaction. */
  lemma Settlement(cfg: Config, states: seq<State>, actions: seq<Action>, k: nat, table: Table, id: string) returns (m: nat)
    requires Run(cfg, states, actions) && k < |states|
    requires HasRow(states[k].db, table, id) && RowJob(states[k].db, table, id).status == Failed
    ensures m < k && Fails(states[m], actions[m], states[m + 1], table, id)
    ensures RowJob(states[k].db, table, id).transaction.Some?
    ensures states[m].procs[actions[m].proc].pc.claim.transaction == RowJob(states[k].db, table, id).transaction
    ensures states[m].procs[actions[m].proc].pc.SawFailed? ==>
      Executed(states[m].chain, RowJob(states[k].db, table, id).transaction.value.id, ExecutionFailed)
  {
    hide Next, Initial, Inv, StoreInv, LedgerProofs.LedgerInv;
    m := FailedAt(cfg, states, actions, k, table, id);
    FailerSound(cfg, states, actions, k, m, table, id);
  }

  lemma FailerSound(cfg: Config, states: seq<State>, actions: seq<Action>, k: nat, m: nat, table: Table, id: string)
    requires Run(cfg, states, actions) && m < k < |states| && Fails(states[m], actions[m], states[m + 1], table, id)
    requires HasRow(states[k].db, table, id)
    ensures RowJob(states[k].db, table, id).transaction.Some?
    ensures states[m].procs[actions[m].proc].pc.claim.transaction == RowJob(states[k].db, table, id).transaction
    ensures states[m].procs[actions[m].proc].pc.SawFailed? ==>
      Executed(states[m].chain, RowJob(states[k].db, table, id).transaction.value.id, ExecutionFailed)
  {
    hide Next, Initial, Inv, StoreInv, LedgerProofs.LedgerInv, Executed, ChainGrows, SignerSound, RowsSigned, ChainSound, IncludedBroadcast, BroadcastSound, LogSound, LeasesLogged, SuccessSound, Shaped;
    RunParts(cfg, states, actions, m);
    RunProgress(cfg, states, actions, m, k);
    var pc := states[m].procs[actions[m].proc].pc;
    assert PcSound(cfg, states[m], pc) && PhaseAgrees(pc);
    assert ClaimSound(cfg, states[m].db, states[m].log, pc.claim);
  }

  /** A paid row was not failed on a seen failure, but on an expiry that overlooked the payment. */
  lemma PaidOverlooked(cfg: Config, states: seq<State>, actions: seq<Action>, k: nat, m: nat, table: Table, id: string) returns (j: nat)
    requires Run(cfg, states, actions) && m < k < |states| && Fails(states[m], actions[m], states[m + 1], table, id)
    requires HasRow(states[k].db, table, id) && RowJob(states[k].db, table, id).transaction.Some?
    requires states[m].procs[actions[m].proc].pc.claim.transaction == RowJob(states[k].db, table, id).transaction
    requires states[m].procs[actions[m].proc].pc.SawFailed? ==>
      Executed(states[m].chain, RowJob(states[k].db, table, id).transaction.value.id, ExecutionFailed)
    requires Pays(states[k].chain, RowJob(states[k].db, table, id).transaction.value.id)
    ensures j < m && FailedWrongly(states, actions, table, id, j, m)
  {
    hide Next, Initial, Inv, Overlooks, Pays, ProtocolInv, StoreInv, LedgerProofs.LedgerInv, RowsAdvance, ChainGrows, ValidBlocks;
    var p, tx := actions[m].proc, RowJob(states[k].db, table, id).transaction.value;
    if states[m].procs[p].pc.SawFailed? {
      RunParts(cfg, states, actions, k);
      ProtocolParts(cfg, states[k]);
      RunProgress(cfg, states, actions, m, k);
      var i :| 0 <= i <= states[m].chain.solidified && i < |states[m].chain.blocks| && Receipt(tx.id, ExecutionFailed) in states[m].chain.blocks[i].receipts;
      SolidReceipt(states[m].chain, states[k].chain, i, tx.id, ExecutionFailed);
    }
    j := Declared(cfg, states, actions, m, p);
    OverlooksExactly(cfg, states, actions, j, k);
  }

  lemma OverlookedPaid(cfg: Config, states: seq<State>, actions: seq<Action>, k: nat, table: Table, id: string, j: nat, m: nat)
    requires Run(cfg, states, actions) && j < m < k < |states| && HasRow(states[k].db, table, id)
    requires FailedWrongly(states, actions, table, id, j, m)
    ensures RowJob(states[k].db, table, id).transaction.Some?
    ensures Pays(states[k].chain, RowJob(states[k].db, table, id).transaction.value.id)
  {
    hide Next, Initial, Inv, Overlooks, Pays;
    FailerSound(cfg, states, actions, k, m, table, id);
    OverlooksExactly(cfg, states, actions, j, k);
  }
}
