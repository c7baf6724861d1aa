// Every step of the gateway keeps the protocol invariant.
module ProtocolSteps {
  import opened Prelude
  import opened Chain
  import opened Lease
  import opened Tables
  import opened Signer
  import opened Gateway
  import opened LedgerProofs
  import opened RowProofs
  import opened RowSteps
  import opened Protocol
  import opened ProtocolRows

  // ---------- the chain moves ----------

  lemma AppendSound(cfg: Config, s: State, block: Block)
    requires ChainSound(cfg, s.chain) && IncludedBroadcast(s.signer, s.chain)
    requires s.chain.blocks != [] && BlockFits(s.chain.network, s.chain.blocks, block) && Permitted(cfg, s, block)
    ensures
      var chain := s.chain.(blocks := s.chain.blocks + [block]);
      ChainSound(cfg, chain) && IncludedBroadcast(s.signer, chain) && ChainGrows(s.chain, chain)
  {
    hide BlockFits, Permitted, PaidByRequest, FromCustody;
    var chain := s.chain.(blocks := s.chain.blocks + [block]);
    ValidAppend(s.chain.network, s.chain.blocks, block);
    AppendTimes(cfg, s, block);
    AppendCustody(cfg, s, block);
    AppendIncluded(cfg, s, block);
    assert chain.blocks[..s.chain.solidified + 1] == s.chain.blocks[..s.chain.solidified + 1];
  }

  lemma AppendTimes(cfg: Config, s: State, block: Block)
    requires s.chain.blocks != [] && Permitted(cfg, s, block)
    requires TimesRise(s.chain.blocks) && InTime(s.chain.blocks, s.chain.broadcasted)
    ensures TimesRise(s.chain.blocks + [block]) && InTime(s.chain.blocks + [block], s.chain.broadcasted)
  {
    var last := s.chain.blocks[|s.chain.blocks| - 1];
    assert forall i :: 0 <= i < |s.chain.blocks| ==> s.chain.blocks[i].header.timestamp <= last.header.timestamp;
  }

  lemma AppendCustody(cfg: Config, s: State, block: Block)
    requires s.chain.blocks != [] && Permitted(cfg, s, block)
    requires CustodyPaid(cfg, s.chain.blocks, s.chain.broadcasted) && CustodyOnce(cfg, s.chain.blocks)
    ensures CustodyPaid(cfg, s.chain.blocks + [block], s.chain.broadcasted) && CustodyOnce(cfg, s.chain.blocks + [block])
  {
    hide PaidByRequest, FromCustody;
  }

  lemma AppendIncluded(cfg: Config, s: State, block: Block)
    requires s.chain.blocks != [] && Permitted(cfg, s, block) && IncludedBroadcast(s.signer, s.chain)
    ensures IncludedBroadcast(s.signer, s.chain.(blocks := s.chain.blocks + [block]))
  {
    hide PaidByRequest, FromCustody, NoReceipt;
  }

  lemma DropSound(cfg: Config, s: State, height: nat)
    requires ChainSound(cfg, s.chain) && IncludedBroadcast(s.signer, s.chain)
    requires s.chain.solidified < height <= |s.chain.blocks|
    ensures
      var chain := s.chain.(blocks := s.chain.blocks[..height]);
      ChainSound(cfg, chain) && IncludedBroadcast(s.signer, chain) && ChainGrows(s.chain, chain)
  {
    hide BlockFits, PaidByRequest, FromCustody, NoReceipt;
    var chain := s.chain.(blocks := s.chain.blocks[..height]);
    ValidPrefix(s.chain.network, s.chain.blocks, height);
    assert chain.blocks[..s.chain.solidified + 1] == s.chain.blocks[..s.chain.solidified + 1];
    assert forall i :: 0 <= i < height ==> chain.blocks[i] == s.chain.blocks[i];
  }

  lemma SolidifySound(cfg: Config, s: State, height: nat)
    requires ChainSound(cfg, s.chain) && IncludedBroadcast(s.signer, s.chain)
    requires s.chain.solidified <= height < |s.chain.blocks|
    ensures
      var chain := s.chain.(solidified := height);
      ChainSound(cfg, chain) && IncludedBroadcast(s.signer, chain) && ChainGrows(s.chain, chain)
  {
    hide BlockFits, PaidByRequest, FromCustody, NoReceipt, IsGenesis;
  }

  lemma ChainStep(cfg: Config, s: State, x: ChainAction, chain: Chain)
    requires ChainSound(cfg, s.chain) && IncludedBroadcast(s.signer, s.chain) && ChainNext(cfg, s, x, chain)
    ensures ChainSound(cfg, chain) && IncludedBroadcast(s.signer, chain) && ChainGrows(s.chain, chain)
    ensures chain.broadcasted == s.chain.broadcasted
  {
    hide ChainSound, IncludedBroadcast, ChainGrows, BlockFits, Permitted;
    match x
    case AppendBlock(block) => AppendSound(cfg, s, block);
    case DropUnfinalized(height) => DropSound(cfg, s, height);
    case Solidify(height) => SolidifySound(cfg, s, height);
  }

  lemma SuccessStays(db: Db, was: Chain, chain: Chain)
    requires SuccessSound(db, was) && ChainGrows(was, chain)
    ensures SuccessSound(db, chain)
  {
    hide Executed, ChainGrows;
    forall table, id | HasRow(db, table, id) && RowJob(db, table, id).status == Succeeded
      ensures RowJob(db, table, id).transaction.Some? && Executed(chain, RowJob(db, table, id).transaction.value.id, ExecutionSucceeded)
    {
      ExecutedStays(was, chain, RowJob(db, table, id).transaction.value.id, ExecutionSucceeded);
    }
  }

  lemma ChainSame(chain: Chain)
    requires ValidChain(chain)
    ensures ChainGrows(chain, chain)
  {
  }

  // ---------- a transaction is submitted ----------

  /** A node is asked to take a row's signed transaction: nothing on the chain contradicts it. */
  lemma SubmitSound(cfg: Config, s: State, tx: SignedTransaction, request: TransferRequest, delivery: Delivery)
    requires ChainSound(cfg, s.chain) && IncludedBroadcast(s.signer, s.chain) && SignedFor(s.signer, request, tx)
    ensures
      var chain := Submit(s.chain, tx, delivery).0;
      && ChainSound(cfg, chain) && IncludedBroadcast(s.signer, chain) && ChainGrows(s.chain, chain)
      && (forall x :: x in chain.broadcasted && x !in s.chain.broadcasted ==> x == tx.id && chain.broadcasted[x] == tx.payload)
  {
    hide BlockFits, PaidByRequest, FromCustody, ValidBlocks;
    var chain := Submit(s.chain, tx, delivery).0;
    if tx.id !in s.chain.broadcasted {
      assert Absent(s.chain.blocks, s.signer[request.id].transaction.id);
      SubmitTimes(s.chain.blocks, s.chain.broadcasted, tx);
    }
    SubmitCustody(cfg, s.chain, tx, delivery);
  }

  lemma SubmitTimes(blocks: seq<Block>, broadcasted: map<string, Payload>, tx: SignedTransaction)
    requires InTime(blocks, broadcasted) && Absent(blocks, tx.id)
    ensures InTime(blocks, broadcasted[tx.id := tx.payload])
  {
    forall i, r | 1 <= i < |blocks| && r in blocks[i].receipts ensures r.transactionId != tx.id {
      assert NoReceipt(blocks[i], tx.id);
    }
  }

  lemma SubmitCustody(cfg: Config, chain: Chain, tx: SignedTransaction, delivery: Delivery)
    requires CustodyPaid(cfg, chain.blocks, chain.broadcasted)
    ensures CustodyPaid(cfg, chain.blocks, Submit(chain, tx, delivery).0.broadcasted)
  {
    var broadcasted := Submit(chain, tx, delivery).0.broadcasted;
    forall t | PaidByRequest(chain.broadcasted, t) ensures PaidByRequest(broadcasted, t) {
    }
  }

  lemma SubmitSent(db: Db, broadcasted: map<string, Payload>, next: map<string, Payload>, tx: SignedTransaction, table: Table, id: string)
    requires BroadcastSound(db, broadcasted) && SentBy(db, tx, table, id)
    requires forall x :: x in broadcasted ==> x in next && next[x] == broadcasted[x]
    requires forall x :: x in next && x !in broadcasted ==> x == tx.id && next[x] == tx.payload
    ensures BroadcastSound(db, next)
  {
    hide SentBy;
    forall x | x in next ensures exists t, i :: SentBy(db, SignedTransaction(x, next[x]), t, i) {
      if x in broadcasted {
        var t, i :| SentBy(db, SignedTransaction(x, broadcasted[x]), t, i);
        assert SentBy(db, SignedTransaction(x, next[x]), t, i);
      } else {
        assert SignedTransaction(x, next[x]) == tx;
      }
    }
  }

  // ---------- the signer signs ----------

  lemma SignSound(cfg: Config, s: State, request: TransferRequest, built: Option<SignedTransaction>)
    requires SignerSound(s.signer) && IncludedBroadcast(s.signer, s.chain) && FreshTransaction(s.chain, built)
    ensures
      var (records, result) := Sign(cfg, s.signer, request, built);
      && SignerSound(records) && IncludedBroadcast(records, s.chain) && SignerGrows(s.signer, records)
      && (result.Ok? ==> SignedFor(records, request, result.value))
  {
    hide Absent;
  }

  lemma SignedStays(cfg: Config, db: Db, was: Records, signer: Records)
    requires RowsSigned(cfg, db, was) && SignerGrows(was, signer)
    ensures RowsSigned(cfg, db, signer)
  {
  }

  // ---------- a worker's position ----------

  /** One worker moves to a position that is sound in the new state; the others are undisturbed. */
  lemma ProcsAfter(cfg: Config, s: State, t: State, p: string, pc: Pc)
    requires ProcsSound(cfg, s) && Progress(cfg, s, t) && p in s.procs
    requires t.procs == s.procs[p := s.procs[p].(pc := pc)] && PcSound(cfg, t, pc)
    ensures ProcsSound(cfg, t)
  {
    hide Progress, PcSound;
    forall q | q in t.procs ensures PcSound(cfg, t, t.procs[q].pc) {
      if q != p {
        PcStays(cfg, s, t, s.procs[q].pc);
      }
    }
  }

  lemma ProcsUndisturbed(cfg: Config, s: State, t: State)
    requires ProcsSound(cfg, s) && Progress(cfg, s, t) && t.procs == s.procs
    ensures ProcsSound(cfg, t)
  {
    hide Progress, PcSound;
    forall q | q in t.procs ensures PcSound(cfg, t, t.procs[q].pc) {
      PcStays(cfg, s, t, s.procs[q].pc);
    }
  }

  // ---------- assembling ----------

  /** Everything but the workers, after a change of one row that takes no lease. */
  lemma RowStep(cfg: Config, s: State, t: State, change: RowChange)
    requires ProtocolInv(cfg, s) && RowsChanged(s.db, t.db, change)
    requires t.signer == s.signer && t.chain == s.chain && t.log == s.log
    requires MoveBacked(cfg, s.db, s.signer, s.chain, change) && (change.Moving? ==> !change.move.Claimed?)
    ensures ProcsSound(cfg, t) ==> ProtocolInv(cfg, t)
    ensures Progress(cfg, s, t)
  {
    hide RowsChanged, MoveBacked, RowsAdvance, RowsSigned, BroadcastSound, SuccessSound, LeasesLogged, LogSound, ProcsSound, Shaped, SignerSound, ChainGrows, IncludedBroadcast;
    ChangeAdvances(cfg, s.db, t.db, change);
    SignedAfter(cfg, s.db, t.db, s.signer, s.chain, change);
    SuccessAfter(cfg, s.db, t.db, s.signer, s.chain, change);
    BroadcastAfter(cfg, s.db, t.db, s.chain.broadcasted);
    LogAfter(cfg, s.db, t.db, s.log);
    LeasesAfter(cfg, s.db, t.db, s.log, change);
    ChainSame(s.chain);
    assert SignerGrows(s.signer, t.signer);
  }

  lemma StoreProtocol(cfg: Config, s: State, t: State, change: RowChange)
    requires ProtocolInv(cfg, s) && RowsChanged(s.db, t.db, change) && !change.Moving? && t == s.(db := t.db)
    ensures ProtocolInv(cfg, t) && Progress(cfg, s, t)
  {
    hide ProtocolInv, Progress, RowsChanged;
    RowStep(cfg, s, t, change);
    Workers(cfg, s);
    ProcsUndisturbed(cfg, s, t);
  }

  lemma Workers(cfg: Config, s: State)
    requires ProtocolInv(cfg, s)
    ensures ProcsSound(cfg, s)
  {
  }

  /** A worker that finished its statement goes idle. */
  lemma FinishProtocol(cfg: Config, s: State, t: State, p: string, change: RowChange)
    requires ProtocolInv(cfg, s) && PhasesAgree(s.procs) && RowsChanged(s.db, t.db, change)
    requires p in s.procs && t == Goto(s, p, Idle).(db := t.db)
    requires change == NoRow || (change.Moving? && !change.move.Claimed? && Justified(s, p, change.table, change.id, change.move))
    ensures ProtocolInv(cfg, t) && Progress(cfg, s, t)
  {
    hide ProtocolInv, Progress, RowsChanged, MoveBacked, PcSound;
    if change.Moving? {
      Backed(cfg, s, p, change);
    } else {
      NoRowBacked(cfg, s, change);
    }
    RowStep(cfg, s, t, change);
    Workers(cfg, s);
    IdleSound(cfg, t);
    ProcsAfter(cfg, s, t, p, Idle);
  }

  lemma NoRowBacked(cfg: Config, s: State, change: RowChange)
    requires !change.Moving?
    ensures MoveBacked(cfg, s.db, s.signer, s.chain, change)
  {
  }

  lemma IdleSound(cfg: Config, t: State)
    ensures PcSound(cfg, t, Idle)
  {
  }

  /** The worker's position backs the move of its row. */
  lemma Backed(cfg: Config, s: State, p: string, change: RowChange)
    requires ProtocolInv(cfg, s) && PhasesAgree(s.procs)
    requires change.Moving? && !change.move.Claimed? && Justified(s, p, change.table, change.id, change.move)
    ensures MoveBacked(cfg, s.db, s.signer, s.chain, change)
  {
    hide RowsSigned, BroadcastSound, SuccessSound, LeasesLogged, LogSound, SignerSound, ChainSound, IncludedBroadcast, Executed, Shaped;
    var pc := s.procs[p].pc;
    assert PcSound(cfg, s, pc) && PhaseAgrees(pc);
    assert ClaimSound(cfg, s.db, s.log, pc.claim);
  }

  lemma ClaimProtocol(cfg: Config, s: State, p: string, x: WorkAction, t: State)
    requires ProtocolInv(cfg, s) && WorkNext(cfg, s, p, x, t) && x.ClaimRow?
    ensures ProtocolInv(cfg, t) && Progress(cfg, s, t)
  {
    hide ProtocolInv, Progress, PcSound;
    var m := ClaimRows(cfg, s, p, x, t);
    var c := NewClaim(cfg, s.db, x.table, x.id, x.phase, s.procs[p].worker);
    ClaimRest(cfg, s, t, c, m);
    Parts(cfg, s);
    NewClaimSound(cfg, s.db, t.db, s.log, c, m);
    ClaimedPcSound(cfg, t, c);
    ProcsAfter(cfg, s, t, p, ClaimedPc(c));
  }

  lemma Parts(cfg: Config, s: State)
    requires ProtocolInv(cfg, s)
    ensures Shaped(s.db) && ProcsSound(cfg, s)
  {
  }

  lemma ClaimedPcSound(cfg: Config, t: State, c: Claim)
    requires ClaimSound(cfg, t.db, t.log, c)
    ensures PcSound(cfg, t, ClaimedPc(c))
  {
    hide ClaimSound;
  }

  lemma ClaimRest(cfg: Config, s: State, t: State, c: Claim, m: Move)
    requires ProtocolInv(cfg, s) && HasRow(s.db, c.table, c.id) && m.Claimed? && m.phase == c.phase && m.worker == c.worker
    requires RowsChanged(s.db, t.db, Moving(c.table, c.id, m))
    requires c.epoch == RowJob(s.db, c.table, c.id).epoch + 1
    requires t.signer == s.signer && t.chain == s.chain && t.log == s.log + [c]
    ensures ProcsSound(cfg, t) ==> ProtocolInv(cfg, t)
    ensures Progress(cfg, s, t)
  {
    hide RowsChanged, RowsAdvance, RowsSigned, BroadcastSound, SuccessSound, LeasesLogged, LogSound, ProcsSound, Shaped, SignerSound, ChainGrows, IncludedBroadcast;
    var change := Moving(c.table, c.id, m);
    ChangeAdvances(cfg, s.db, t.db, change);
    SignedAfter(cfg, s.db, t.db, s.signer, s.chain, change);
    SuccessAfter(cfg, s.db, t.db, s.signer, s.chain, change);
    BroadcastAfter(cfg, s.db, t.db, s.chain.broadcasted);
    LogClaim(cfg, s.db, t.db, s.log, c, m);
    LeasesClaim(cfg, s.db, t.db, s.log, c, m);
    ChainSame(s.chain);
    assert SignerGrows(s.signer, t.signer);
  }

  /** A fresh claim knows its row: the request, and from broadcast on the signed transaction. */
  lemma NewClaimSound(cfg: Config, was: Db, db: Db, log: seq<Claim>, c: Claim, m: Move)
    requires Shaped(was) && HasRow(was, c.table, c.id) && RowsChanged(was, db, Moving(c.table, c.id, m))
    requires m.Claimed? && m.phase == c.phase && c == NewClaim(cfg, was, c.table, c.id, c.phase, c.worker)
    ensures ClaimSound(cfg, db, log + [c], c)
  {
    hide RowsChanged, RowRequest;
    RowHere(was, db, c, m);
    RowAfter(cfg, was, db, Moving(c.table, c.id, m), c.table, c.id);
    RowShaped(was, c.table, c.id);
  }

  lemma RowHere(was: Db, db: Db, c: Claim, m: Move)
    requires HasRow(was, c.table, c.id) && RowsChanged(was, db, Moving(c.table, c.id, m))
    ensures HasRow(db, c.table, c.id)
  {
  }

  // ---------- calls outside the database ----------

  lemma SignerProtocol(cfg: Config, s: State, p: string, x: WorkAction, t: State)
    requires ProtocolInv(cfg, s) && WorkNext(cfg, s, p, x, t) && x.CallSigner?
    ensures ProtocolInv(cfg, t) && Progress(cfg, s, t)
  {
    hide Sign, RowsSigned, BroadcastSound, SuccessSound, LeasesLogged, LogSound, SignerSound, IncludedBroadcast, Shaped, ChainGrows, ClaimSound, FreshTransaction;
    var claim := s.procs[p].pc.claim;
    var (records, result) := Sign(cfg, s.signer, claim.request, x.built);
    SignSound(cfg, s, claim.request, x.built);
    assert t.signer == records;
    assert t.db == s.db && t.log == s.log && t.procs[p].pc == if x.lost || result.Err? then SignerErred(claim) else SignerReturned(claim, result.value);
    SignedStays(cfg, s.db, s.signer, t.signer);
    ChainSame(s.chain);
    assert PcSound(cfg, s, s.procs[p].pc);
    SameRows(cfg, s.db);
    ProcsAfter(cfg, s, t, p, t.procs[p].pc);
  }

  lemma SameRows(cfg: Config, db: Db)
    ensures RowsAdvance(cfg, db, db)
  {
  }

  lemma BroadcastProtocol(cfg: Config, s: State, p: string, x: WorkAction, t: State)
    requires ProtocolInv(cfg, s) && PhasesAgree(s.procs) && WorkNext(cfg, s, p, x, t) && x.Broadcast?
    ensures ProtocolInv(cfg, t) && Progress(cfg, s, t)
  {
    hide RowsSigned, BroadcastSound, SuccessSound, LeasesLogged, LogSound, SignerSound, IncludedBroadcast, Shaped, ChainGrows, ChainSound, Submit;
    var claim := s.procs[p].pc.claim;
    assert PcSound(cfg, s, s.procs[p].pc) && PhaseAgrees(s.procs[p].pc);
    ClaimSigned(cfg, s, claim);
    SubmitSound(cfg, s, claim.transaction.value, claim.request, x.delivery);
    Remembered(s.chain, t.chain);
    SubmitSent(s.db, s.chain.broadcasted, t.chain.broadcasted, claim.transaction.value, claim.table, claim.id);
    SuccessStays(s.db, s.chain, t.chain);
    SameRows(cfg, s.db);
    assert PcSound(cfg, t, t.procs[p].pc);
    ProcsAfter(cfg, s, t, p, t.procs[p].pc);
  }

  lemma Remembered(was: Chain, chain: Chain)
    requires ChainGrows(was, chain)
    ensures forall x :: x in was.broadcasted ==> x in chain.broadcasted && chain.broadcasted[x] == was.broadcasted[x]
  {
  }

  /** The transaction of a broadcast or confirmation claim is the signer's for its request. */
  lemma ClaimSigned(cfg: Config, s: State, c: Claim)
    requires RowsSigned(cfg, s.db, s.signer) && ClaimSound(cfg, s.db, s.log, c) && c.phase != SigningPhase
    ensures SignedFor(s.signer, c.request, c.transaction.value)
    ensures SentBy(s.db, c.transaction.value, c.table, c.id)
  {
  }

  lemma ReadProtocol(cfg: Config, s: State, p: string, x: WorkAction, t: State)
    requires ProtocolInv(cfg, s) && WorkNext(cfg, s, p, x, t) && (x.ReadTransaction? || x.ReadHead?)
    ensures ProtocolInv(cfg, t) && Progress(cfg, s, t)
  {
    hide RowsSigned, BroadcastSound, SuccessSound, LeasesLogged, LogSound, SignerSound, IncludedBroadcast, Shaped, ChainGrows, ClaimSound, RowsAdvance, Absent, Executed;
    ChainSame(s.chain);
    SameRows(cfg, s.db);
    assert PcSound(cfg, s, s.procs[p].pc);
    ProcsAfter(cfg, s, t, p, t.procs[p].pc);
  }

  lemma WorkProtocol(cfg: Config, s: State, p: string, x: WorkAction, t: State)
    requires ProtocolInv(cfg, s) && PhasesAgree(s.procs) && LedgerInv(s.db) && WorkNext(cfg, s, p, x, t)
    ensures ProtocolInv(cfg, t) && Progress(cfg, s, t)
  {
    hide ProtocolInv, Progress, LedgerInv;
    match x
    case ClaimRow(_, _, _, _) => ClaimProtocol(cfg, s, p, x, t);
    case CallSigner(_, _) => SignerProtocol(cfg, s, p, x, t);
    case Broadcast(_) => BroadcastProtocol(cfg, s, p, x, t);
    case ReadTransaction(_) => ReadProtocol(cfg, s, p, x, t);
    case ReadHead(_) => ReadProtocol(cfg, s, p, x, t);
    case FinishSigning =>
      var change := SigningRows(cfg, s, p, x, t);
      FinishProtocol(cfg, s, t, p, change);
    case FinishBroadcast =>
      var change := BroadcastRows(cfg, s, p, x, t);
      FinishProtocol(cfg, s, t, p, change);
    case FinishConfirmation(_, _) =>
      var change := ConfirmationRows(cfg, s, p, x, t);
      FinishProtocol(cfg, s, t, p, change);
  }

  lemma NetworkProtocol(cfg: Config, s: State, x: ChainAction, t: State)
    requires ProtocolInv(cfg, s) && ChainNext(cfg, s, x, t.chain) && t == s.(chain := t.chain)
    ensures ProtocolInv(cfg, t) && Progress(cfg, s, t)
  {
    hide RowsSigned, BroadcastSound, SuccessSound, LeasesLogged, LogSound, SignerSound, IncludedBroadcast, Shaped, ChainGrows, ChainSound, ChainNext, PcSound;
    ChainStep(cfg, s, x, t.chain);
    SuccessStays(s.db, s.chain, t.chain);
    SameRows(cfg, s.db);
    ProcsUndisturbed(cfg, s, t);
  }

  /** Scanners and captures touch nothing the protocol is about. */
  lemma OutsideProtocol(cfg: Config, s: State, p: string, t: State)
    requires ProtocolInv(cfg, s) && p in s.procs && p in t.procs && t == Goto(s, p, t.procs[p].pc).(db := t.db)
    requires t.db.payouts == s.db.payouts && t.db.sweeps == s.db.sweeps && !HasClaim(t.procs[p].pc)
    ensures ProtocolInv(cfg, t) && Progress(cfg, s, t)
  {
    hide ProtocolInv, Progress, MoveBacked;
    NoRowBacked(cfg, s, NoRow);
    RowStep(cfg, s, t, NoRow);
    Workers(cfg, s);
    ProcsAfter(cfg, s, t, p, t.procs[p].pc);
  }
}
