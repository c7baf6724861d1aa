// When a failed row is final. A row fails on a failed execution, or on a safe expiry: the worker
// saw the transaction missing and then saw the solidified time past its expiration. The second
// conclusion is right exactly when the transaction did not execute between those two reads.
module Finality {
  import opened Chain
  import opened Lease
  import opened Tables
  import opened Gateway
  import opened RowProofs
  import opened RowSteps
  import opened StoreProofs
  import opened Protocol
  import opened ProtocolSteps
  import opened IndexProofs
  import opened SweepProofs
  import opened Invariants

  // ---------- the hypothesis ----------

  /** No block solidified after the first read holds the transaction. */
  predicate NothingBetween(chain: Chain, id: string, readAt: nat) {
    forall i :: readAt < i <= chain.solidified && i < |chain.blocks| ==> NoReceipt(chain.blocks[i], id)
  }

  /** The worker is about to declare the transaction expired. */
  predicate Expires(s: State, a: Action) {
    && a.Work? && a.work == ReadHead(true) && a.proc in s.procs
    && s.procs[a.proc].pc.SawNotFound? && s.procs[a.proc].pc.claim.transaction.Some?
    && s.chain.solidified < |s.chain.blocks|
    && s.procs[a.proc].pc.claim.transaction.value.payload.expiresAt <= SolidifiedHead(s.chain).timestamp
  }

  /** Whenever a worker declares an expiry, the transaction did not execute between its two reads. */
  predicate QuietRead(s: State, a: Action) {
    Expires(s, a) ==> NothingBetween(s.chain, s.procs[a.proc].pc.claim.transaction.value.id, s.procs[a.proc].pc.readAt)
  }

  /** The plainer hypothesis: the solidified prefix does not move between the two reads. */
  predicate StableRead(s: State, a: Action) {
    Expires(s, a) ==> s.procs[a.proc].pc.readAt == s.chain.solidified
  }

  lemma StableIsQuiet(s: State, a: Action)
    requires StableRead(s, a)
    ensures QuietRead(s, a)
  {
  }

  // ---------- what expiry means ----------

  /** A node that knows a signed transaction knows its very content. */
  lemma PayloadKnown(cfg: Config, s: State, request: TransferRequest, tx: SignedTransaction)
    requires ProtocolInv(cfg, s) && SignedFor(s.signer, request, tx) && tx.id in s.chain.broadcasted
    ensures s.chain.broadcasted[tx.id] == tx.payload
  {
    hide ChainSound, ProcsSound, LogSound, LeasesLogged, SuccessSound, IncludedBroadcast, Shaped;
    var table, id :| SentBy(s.db, SignedTransaction(tx.id, s.chain.broadcasted[tx.id]), table, id);
    assert SignedFor(s.signer, RowRequest(cfg, s.db, table, id), SignedTransaction(tx.id, s.chain.broadcasted[tx.id]));
  }

  /** Once the solidified time has reached its expiration, a transaction missing from the solidified
      prefix is missing from the whole chain. */
  lemma MissingAboveHead(cfg: Config, s: State, request: TransferRequest, tx: SignedTransaction)
    requires ProtocolInv(cfg, s) && SignedFor(s.signer, request, tx)
    requires s.chain.solidified < |s.chain.blocks| && tx.payload.expiresAt <= SolidifiedHead(s.chain).timestamp
    requires Absent(s.chain.blocks[..s.chain.solidified + 1], tx.id)
    ensures Expired(s.chain, tx)
  {
    hide RowsSigned, BroadcastSound, ProcsSound, LogSound, LeasesLogged, SuccessSound, Shaped, ValidChain, CustodyPaid, CustodyOnce, SignerSound;
    var blocks := s.chain.blocks;
    if tx.id in s.chain.broadcasted {
      PayloadKnown(cfg, s, request, tx);
      forall i | 0 <= i < |blocks| ensures NoReceipt(blocks[i], tx.id) {
        if i <= s.chain.solidified {
          assert blocks[..s.chain.solidified + 1][i] == blocks[i];
        } else {
          assert SolidifiedHead(s.chain).timestamp <= blocks[i - 1].header.timestamp;
          forall j | 0 <= j < |blocks[i].receipts| ensures blocks[i].receipts[j].transactionId != tx.id {
            assert blocks[i].receipts[j] in blocks[i].receipts;
          }
        }
      }
    } else {
      assert Absent(blocks, s.signer[request.id].transaction.id);
    }
  }

  /** The expiry decision is right if and only if nothing happened between the two reads. */
  lemma ExpiryExact(cfg: Config, s: State, a: Action)
    requires Inv(cfg, s) && Expires(s, a)
    ensures
      var pc := s.procs[a.proc].pc;
      Expired(s.chain, pc.claim.transaction.value) <==> NothingBetween(s.chain, pc.claim.transaction.value.id, pc.readAt)
  {
    hide SweepInv, StoreInv, RowsSigned, BroadcastSound, LogSound, LeasesLogged, SuccessSound, Shaped, ChainSound, SignerSound, IncludedBroadcast, ProtocolInv;
    var pc := s.procs[a.proc].pc;
    var tx := pc.claim.transaction.value;
    PositionSound(cfg, s, a.proc);
    var blocks := s.chain.blocks;
    if NothingBetween(s.chain, tx.id, pc.readAt) {
      var solid := blocks[..s.chain.solidified + 1];
      forall i | 0 <= i < |solid| ensures NoReceipt(solid[i], tx.id) {
        if i <= pc.readAt {
          assert blocks[..pc.readAt + 1][i] == blocks[i];
        }
      }
      MissingAboveHead(cfg, s, pc.claim.request, tx);
    }
  }

  /** What a worker that saw the transaction missing may rely on. */
  lemma PositionSound(cfg: Config, s: State, p: string)
    requires Inv(cfg, s) && p in s.procs && s.procs[p].pc.SawNotFound?
    ensures
      var c := s.procs[p].pc.claim;
      && c.phase == ConfirmationPhase && ClaimSound(cfg, s.db, s.log, c) && c.transaction.Some?
      && UnseenBelow(s.chain, c.transaction.value.id, s.procs[p].pc.readAt)
      && SignedFor(s.signer, c.request, c.transaction.value) && ProtocolInv(cfg, s)
  {
    hide SweepInv, StoreInv, BroadcastSound, LogSound, LeasesLogged, SuccessSound, Shaped, ChainSound, SignerSound, IncludedBroadcast;
    assert PcSound(cfg, s, s.procs[p].pc) && PhaseAgrees(s.procs[p].pc);
    ClaimSigned(cfg, s, s.procs[p].pc.claim);
  }

  // ---------- an expired transaction never executes ----------

  lemma ExpiredUnderChain(cfg: Config, s: State, x: ChainAction, chain: Chain, request: TransferRequest, tx: SignedTransaction)
    requires ProtocolInv(cfg, s) && ChainNext(cfg, s, x, chain)
    requires SignedFor(s.signer, request, tx) && Expired(s.chain, tx)
    ensures Expired(chain, tx)
  {
    hide RowsSigned, BroadcastSound, ProcsSound, LogSound, LeasesLogged, SuccessSound, Shaped, CustodyPaid, CustodyOnce, SignerSound, BlockFits, ValidBlocks;
    if x.AppendBlock? {
      var last := s.chain.blocks[|s.chain.blocks| - 1];
      assert SolidifiedHead(s.chain).timestamp <= last.header.timestamp;
      if tx.id in s.chain.broadcasted {
        PayloadKnown(cfg, s, request, tx);
        forall j | 0 <= j < |x.block.receipts| ensures x.block.receipts[j].transactionId != tx.id {
          assert x.block.receipts[j] in x.block.receipts;
        }
      } else {
        assert NoReceipt(x.block, s.signer[request.id].transaction.id);
      }
      assert chain.blocks[s.chain.solidified] == s.chain.blocks[s.chain.solidified];
    }
  }

  lemma ExpiredSameChain(was: Chain, chain: Chain, tx: SignedTransaction)
    requires Expired(was, tx) && chain.blocks == was.blocks && chain.solidified == was.solidified
    ensures Expired(chain, tx)
  {
  }

  /** Work steps reach the chain only by submitting a transaction; no other group but the network does. */
  lemma WorkChain(cfg: Config, s: State, p: string, x: WorkAction, t: State)
    requires WorkNext(cfg, s, p, x, t)
    ensures t.chain.blocks == s.chain.blocks && t.chain.solidified == s.chain.solidified
  {
    hide ConfirmationFinished, BroadcastFinished, SigningFinished, FreshTransaction, HonestRead, WithJob, ClaimJob;
  }

  lemma ExpiredStays(cfg: Config, s: State, a: Action, t: State, request: TransferRequest, tx: SignedTransaction)
    requires ProtocolInv(cfg, s) && Next(cfg, s, a, t)
    requires SignedFor(s.signer, request, tx) && Expired(s.chain, tx)
    ensures Expired(t.chain, tx)
  {
    hide ProtocolInv, Expired, StoreNext, ChainNext, WorkNext, ScanNext, CaptureNext;
    match a
    case Network(x) => ExpiredUnderChain(cfg, s, x, t.chain, request, tx);
    case Work(p, x) =>
      WorkChain(cfg, s, p, x, t);
      ExpiredSameChain(s.chain, t.chain, tx);
    case _ => ExpiredSameChain(s.chain, t.chain, tx);
  }

  // ---------- failed rows ----------

  /** It executed and failed, or it can no longer execute. */
  ghost predicate NeverPays(chain: Chain, tx: SignedTransaction) {
    Executed(chain, tx.id, ExecutionFailed) || Expired(chain, tx)
  }

  ghost predicate FailureSound(db: Db, chain: Chain) {
    forall table, id :: HasRow(db, table, id) && RowJob(db, table, id).status == Failed ==>
      RowJob(db, table, id).transaction.Some? && NeverPays(chain, RowJob(db, table, id).transaction.value)
  }

  ghost predicate ExpiriesSound(chain: Chain, procs: map<string, Proc>) {
    forall p :: p in procs && procs[p].pc.SawExpired? ==>
      procs[p].pc.claim.transaction.Some? && Expired(chain, procs[p].pc.claim.transaction.value)
  }

  /** Held by every run whose expiry decisions are quiet. */
  ghost predicate FinalInv(s: State) {
    FailureSound(s.db, s.chain) && ExpiriesSound(s.chain, s.procs)
  }

  lemma NeverPaysStays(cfg: Config, s: State, a: Action, t: State, request: TransferRequest, tx: SignedTransaction)
    requires ProtocolInv(cfg, s) && Next(cfg, s, a, t) && ChainGrows(s.chain, t.chain)
    requires SignedFor(s.signer, request, tx) && NeverPays(s.chain, tx)
    ensures NeverPays(t.chain, tx)
  {
    hide ProtocolInv, Next, Executed, Expired, ChainGrows;
    if Executed(s.chain, tx.id, ExecutionFailed) {
      ExecutedStays(s.chain, t.chain, tx.id, ExecutionFailed);
    } else {
      ExpiredStays(cfg, s, a, t, request, tx);
    }
  }

  /** Rows after a step, from the row change alone. */
  lemma FailureAfterChange(cfg: Config, s: State, a: Action, t: State, change: RowChange)
    requires ProtocolInv(cfg, s) && Next(cfg, s, a, t) && ChainGrows(s.chain, t.chain) && FailureSound(s.db, s.chain)
    requires RowsChanged(s.db, t.db, change)
    requires change.Moving? && change.move.Finished? && !change.move.succeeded ==>
      HasRow(s.db, change.table, change.id)
      && RowJob(s.db, change.table, change.id).transaction.Some?
      && NeverPays(s.chain, RowJob(s.db, change.table, change.id).transaction.value)
    ensures FailureSound(t.db, t.chain)
  {
    hide Next, RowsChanged, NeverPays, ChainGrows, ChainSound, ProcsSound, LogSound, LeasesLogged, SuccessSound, SignerSound, IncludedBroadcast, BroadcastSound, Shaped, SignedFor, RowRequest;
    forall table, id | HasRow(t.db, table, id) && RowJob(t.db, table, id).status == Failed
      ensures RowJob(t.db, table, id).transaction.Some? && NeverPays(t.chain, RowJob(t.db, table, id).transaction.value)
    {
      RowAfter(cfg, s.db, t.db, change, table, id);
      var tx := RowJob(s.db, table, id).transaction.value;
      assert SignedFor(s.signer, RowRequest(cfg, s.db, table, id), tx);
      NeverPaysStays(cfg, s, a, t, RowRequest(cfg, s.db, table, id), tx);
    }
  }

  /** The worker that fails a row saw a failed execution or declared an expiry. */
  lemma FailureBacked(cfg: Config, s: State, p: string, change: RowChange)
    requires ProtocolInv(cfg, s) && PhasesAgree(s.procs) && FinalInv(s)
    requires change.Moving? && change.move.Finished? && !change.move.succeeded
    requires Justified(s, p, change.table, change.id, change.move)
    ensures HasRow(s.db, change.table, change.id) && RowJob(s.db, change.table, change.id).transaction.Some?
    ensures NeverPays(s.chain, RowJob(s.db, change.table, change.id).transaction.value)
  {
    hide RowsSigned, BroadcastSound, SuccessSound, LeasesLogged, LogSound, SignerSound, ChainSound, IncludedBroadcast, Executed, Expired, Shaped, FailureSound;
    var pc := s.procs[p].pc;
    assert PcSound(cfg, s, pc) && PhaseAgrees(pc);
    assert ClaimSound(cfg, s.db, s.log, pc.claim);
  }

  lemma FailureStep(cfg: Config, s: State, a: Action, t: State)
    requires Inv(cfg, s) && Next(cfg, s, a, t) && ChainGrows(s.chain, t.chain) && FinalInv(s)
    ensures FailureSound(t.db, t.chain)
  {
    hide SweepInv, StoreInv, ProtocolInv, ChainGrows, FailureSound, ExpiriesSound, Next, RowsChanged, PhasesAgree, ScansSound, IndexInv, NeverPays, Justified;
    var change := StepRows(cfg, s, a, t);
    if change.Moving? && change.move.Finished? && !change.move.succeeded {
      FailureBacked(cfg, s, a.proc, change);
    }
    FailureAfterChange(cfg, s, a, t, change);
  }

  // ---------- workers that declared an expiry ----------

  lemma WorkExpires(cfg: Config, s: State, p: string, x: WorkAction, t: State)
    requires WorkNext(cfg, s, p, x, t) && p in t.procs && t.procs[p].pc.SawExpired?
    ensures Expires(s, Work(p, x)) && s.procs[p].pc.claim == t.procs[p].pc.claim
  {
    hide ConfirmationFinished, BroadcastFinished, SigningFinished, FreshTransaction, HonestRead, WithJob, ClaimJob;
  }

  lemma OnlyExpires(cfg: Config, s: State, a: Action, t: State, p: string)
    requires Next(cfg, s, a, t) && p in t.procs && t.procs[p].pc.SawExpired?
    ensures p in s.procs
    ensures s.procs[p].pc == t.procs[p].pc || (Expires(s, a) && a.proc == p && s.procs[p].pc.claim == t.procs[p].pc.claim)
  {
    hide StoreNext, ChainNext, WorkNext, ScanNext, CaptureNext, Expires;
    match a
    case Work(q, x) =>
      WorkMoves(cfg, s, q, x, t);
      if p == q {
        WorkExpires(cfg, s, p, x, t);
      }
    case Scan(q, x) => ScanRowsStay(s.db, s.chain, s.procs[q], x, t.db, t.procs[q].pc);
    case Capture(q, x) => CaptureTables(cfg, s.db, s.chain, s.procs[q].pc, x, t.db, t.procs[q].pc);
    case _ =>
  }

  /** A worker that declared an expiry holds a signed transaction. */
  lemma ExpirySigned(cfg: Config, s: State, p: string)
    requires ProtocolInv(cfg, s) && PhasesAgree(s.procs) && p in s.procs && s.procs[p].pc.SawExpired?
    ensures s.procs[p].pc.claim.transaction.Some? && SignedFor(s.signer, s.procs[p].pc.claim.request, s.procs[p].pc.claim.transaction.value)
  {
    hide BroadcastSound, LogSound, LeasesLogged, SuccessSound, Shaped, ChainSound, SignerSound, IncludedBroadcast;
    assert PcSound(cfg, s, s.procs[p].pc) && PhaseAgrees(s.procs[p].pc);
    ClaimSigned(cfg, s, s.procs[p].pc.claim);
  }

  lemma ExpiriesStep(cfg: Config, s: State, a: Action, t: State)
    requires Inv(cfg, s) && Next(cfg, s, a, t) && QuietRead(s, a) && ExpiriesSound(s.chain, s.procs)
    ensures ExpiriesSound(t.chain, t.procs)
  {
    hide SweepInv, StoreInv, ProtocolInv, IndexInv, ScansSound, Next, Expired, PhasesAgree, Expires, NothingBetween;
    forall p | p in t.procs && t.procs[p].pc.SawExpired?
      ensures t.procs[p].pc.claim.transaction.Some? && Expired(t.chain, t.procs[p].pc.claim.transaction.value)
    {
      OnlyExpires(cfg, s, a, t, p);
      if s.procs[p].pc == t.procs[p].pc {
        ExpirySigned(cfg, s, p);
        ExpiredStays(cfg, s, a, t, s.procs[p].pc.claim.request, s.procs[p].pc.claim.transaction.value);
      } else {
        ExpiryExact(cfg, s, a);
        ExpirerSigned(cfg, s, a);
        ExpiredStays(cfg, s, a, t, t.procs[p].pc.claim.request, t.procs[p].pc.claim.transaction.value);
      }
    }
  }

  lemma ExpirerSigned(cfg: Config, s: State, a: Action)
    requires Inv(cfg, s) && Expires(s, a)
    ensures s.procs[a.proc].pc.claim.transaction.Some?
    ensures SignedFor(s.signer, s.procs[a.proc].pc.claim.request, s.procs[a.proc].pc.claim.transaction.value)
  {
    hide Inv;
    PositionSound(cfg, s, a.proc);
  }

  /** Failed rows stay final under every step whose expiry decision is quiet. */
  lemma FinalStep(cfg: Config, s: State, a: Action, t: State)
    requires Inv(cfg, s) && Next(cfg, s, a, t) && QuietRead(s, a) && FinalInv(s)
    ensures FinalInv(t)
  {
    hide Inv, Next, FailureSound, ExpiriesSound, QuietRead;
    InvStep(cfg, s, a, t);
    ProgressParts(cfg, s, t);
    FailureStep(cfg, s, a, t);
    ExpiriesStep(cfg, s, a, t);
  }

  lemma FinalInitial(cfg: Config, s: State)
    requires Initial(cfg, s)
    ensures FinalInv(s)
  {
  }

  predicate QuietRun(states: seq<State>, actions: seq<Action>)
    requires |states| == |actions| + 1
  {
    forall k :: 0 <= k < |actions| ==> QuietRead(states[k], actions[k])
  }

  lemma {:induction false} FinalRun(cfg: Config, states: seq<State>, actions: seq<Action>, k: nat)
    requires Run(cfg, states, actions) && QuietRun(states, actions) && k < |states|
    ensures FinalInv(states[k])
  {
    hide Next, Initial, FinalInv, QuietRead;
    if k == 0 {
      FinalInitial(cfg, states[0]);
    } else {
      FinalRun(cfg, states, actions, k - 1);
      InvRun(cfg, states, actions, k - 1);
      assert Linked(cfg, states, actions, k - 1);
      FinalStep(cfg, states[k - 1], actions[k - 1], states[k]);
    }
  }
}
