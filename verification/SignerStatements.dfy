// What the signer answers in any run, and the limit its policy puts on every transfer out of custody.
module SignerStatements {
  import opened Prelude
  import opened Chain
  import opened Lease
  import opened Tables
  import opened Signer
  import opened Gateway
  import opened StoreProofs
  import opened Protocol
  import opened Invariants
  import opened CustodyFlow
  import opened Theorems
  import opened Statements
  import LedgerProofs

  /** No other request is answered with this transaction. */
  predicate NewTransaction(records: Records, tx: SignedTransaction) {
    forall id :: id in records ==> records[id].transaction.id != tx.id
  }

  /**
   * An incomplete request is invalid, a foreign contract or an amount above the limit is denied, a known
   * id gets its stored transaction back or is a conflict, and a new one is stored before it is answered.
   */
  lemma SignExact(cfg: Config, records: Records, request: TransferRequest, built: Option<SignedTransaction>)
    ensures Sign(cfg, records, request, built) ==
      if request.id == "" || request.amount <= 0 || TWO_256 <= request.amount then (records, Err(InvalidSignRequest))
      else if request.contract !in cfg.wallets || cfg.maxAmount < request.amount then (records, Err(PolicyDenied))
      else if request.id in records && records[request.id].request == request then (records, Ok(records[request.id].transaction))
      else if request.id in records then (records, Err(RequestConflict))
      else if built == None then (records, Err(SigningFailed))
      else if built.value.id == "" || built.value.payload.request != request then (records, Err(InvalidTransaction))
      else if !NewTransaction(records, built.value) then (records, Err(StoreFailed))
      else (records[request.id := SignerRecord(request, built.value)], Ok(built.value))
  {
  }

  /** A signer call moves only the signer's records and the caller, who learns the transaction unless the answer is lost. */
  lemma SignStatement(cfg: Config, states: seq<State>, actions: seq<Action>, k: nat, p: string, built: Option<SignedTransaction>, lost: bool)
    requires At(cfg, states, actions, k, p, CallSigner(built, lost))
    ensures p in states[k].procs && states[k].procs[p].pc.SigningClaimed?
    ensures
      var s, t, c := states[k], states[k + 1], states[k].procs[p].pc.claim;
      var (records, result) := Sign(cfg, s.signer, c.request, built);
      && t == s.(signer := records,
                 procs := s.procs[p := s.procs[p].(pc := if !lost && result.Ok? then SignerReturned(c, result.value) else SignerErred(c))])
      && (cfg.maxAmount < c.request.amount || c.request.contract !in cfg.wallets ==> t.signer == s.signer && t.procs[p].pc == SignerErred(c))
  {
    Stepped(cfg, states, actions, k, p, CallSigner(built, lost));
  }

  // ---------- the limit ----------

  predicate WithinPolicy(cfg: Config, records: Records) {
    forall id :: id in records ==>
      records[id].request.contract in cfg.wallets && 0 < records[id].request.amount <= cfg.maxAmount
  }

  lemma SignerOnly(cfg: Config, s: State, a: Action, t: State)
    requires Next(cfg, s, a, t)
    ensures t.signer == s.signer || (a.Work? && a.work.CallSigner?)
  {
    hide StoreNext, ChainNext, ScanNext, CaptureNext, ConfirmationFinished, SigningFinished, BroadcastFinished, FreshTransaction, HonestRead;
  }

  lemma {:induction false} PolicyRun(cfg: Config, states: seq<State>, actions: seq<Action>, k: nat)
    requires Run(cfg, states, actions) && k < |states|
    ensures WithinPolicy(cfg, states[k].signer)
  {
    hide Next, Sign;
    if k > 0 {
      PolicyRun(cfg, states, actions, k - 1);
      assert Linked(cfg, states, actions, k - 1);
      SignerOnly(cfg, states[k - 1], actions[k - 1], states[k]);
      if states[k].signer != states[k - 1].signer {
        var x := actions[k - 1];
        SignStatement(cfg, states, actions, k - 1, x.proc, x.work.built, x.work.lost);
        SignExact(cfg, states[k - 1].signer, states[k - 1].procs[x.proc].pc.claim.request, x.work.built);
      }
    }
  }

  /** The signer never holds a transaction above the limit or of a foreign contract. */
  lemma SignedWithinLimit(cfg: Config, states: seq<State>, actions: seq<Action>, k: nat, id: string)
    requires Run(cfg, states, actions) && k < |states| && id in states[k].signer
    ensures
      var record := states[k].signer[id];
      && record.request.id == id && record.transaction.payload.request == record.request && record.transaction.id != ""
      && record.request.contract in cfg.wallets && 0 < record.request.amount <= cfg.maxAmount
  {
    hide Run, Inv, StoreInv, LedgerProofs.LedgerInv;
    PolicyRun(cfg, states, actions, k);
    RunParts(cfg, states, actions, k);
    assert RecordSound(id, states[k].signer[id]);
  }

  /** No transfer out of custody, on any branch of the chain, ever exceeds the limit. */
  lemma CustodyWithinLimit(cfg: Config, states: seq<State>, actions: seq<Action>, k: nat, t: Transfer)
    requires Run(cfg, states, actions) && k < |states| && t in Flat(states[k].chain.blocks) && FromCustody(cfg, t)
    ensures 0 < t.amount <= cfg.maxAmount
  {
    hide Run, Inv, StoreInv, LedgerProofs.LedgerInv, ProtocolInv, SentBy;
    PolicyRun(cfg, states, actions, k);
    RunParts(cfg, states, actions, k);
    var table, id := CustodyPayer(cfg, states[k], t);
  }

  /** A payout or sweep carries a transaction only within the limit and for an asset of the deployment. */
  lemma SentWithinLimit(cfg: Config, states: seq<State>, actions: seq<Action>, k: nat, table: Table, id: string)
    requires Run(cfg, states, actions) && k < |states| && HasRow(states[k].db, table, id)
    ensures
      var request := RowRequest(cfg, states[k].db, table, id);
      RowJob(states[k].db, table, id).transaction.Some? ==> request.contract in cfg.wallets && request.amount <= cfg.maxAmount
  {
    hide Run, Inv, StoreInv, LedgerProofs.LedgerInv;
    PolicyRun(cfg, states, actions, k);
    RunParts(cfg, states, actions, k);
    assert RowsSigned(cfg, states[k].db, states[k].signer);
  }
}
