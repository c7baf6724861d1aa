// The isolated signer: one stored transaction per request id, across retries and instances.
module Signer {
  import opened Prelude
  import opened Chain
  import opened Tables

  datatype SignerRecord = SignerRecord(request: TransferRequest, transaction: SignedTransaction)

  type Records = map<string, SignerRecord>

  datatype SignError = InvalidSignRequest | PolicyDenied | RequestConflict | SigningFailed | InvalidTransaction | StoreFailed

  /** ValidateSignedTransferTransaction, for the fields the payload models. */
  predicate Executes(tx: SignedTransaction, request: TransferRequest) {
    tx.id != "" && tx.payload.request == request
  }

  /** UNIQUE (transaction_id) of signer_requests. */
  predicate UnusedId(records: Records, id: string) {
    forall r :: r in records ==> records[r].transaction.id != id
  }

  predicate ValidSignRequest(request: TransferRequest) {
    request.id != "" && 0 < request.amount < TWO_256
  }

  predicate Allowed(cfg: Config, request: TransferRequest) {
    request.contract in cfg.wallets && request.amount <= cfg.maxAmount
  }

  /** PostgresStore.Resolve: the stored transaction of a repeat, or the first one, stored before it is returned. */
  function Resolve(records: Records, request: TransferRequest, built: Option<SignedTransaction>): (Records, Result<SignedTransaction, SignError>) {
    if request.id in records then
      if records[request.id].request == request then (records, Ok(records[request.id].transaction))
      else (records, Err(RequestConflict))
    else if built.None? then (records, Err(SigningFailed))
    else if !Executes(built.value, request) then (records, Err(InvalidTransaction))
    else if !UnusedId(records, built.value.id) then (records, Err(StoreFailed))
    else (records[request.id := SignerRecord(request, built.value)], Ok(built.value))
  }

  /** SignTransfer; built is what building and signing would yield now. */
  function Sign(cfg: Config, records: Records, request: TransferRequest, built: Option<SignedTransaction>)
    : (Records, Result<SignedTransaction, SignError>)
  {
    if !ValidSignRequest(request) then (records, Err(InvalidSignRequest))
    else if !Allowed(cfg, request) then (records, Err(PolicyDenied))
    else Resolve(records, request, built)
  }

  /** Signing again, at any time and however the node answers now, yields the first transaction or nothing. */
  lemma SignedAgain(cfg: Config, records: Records, request: TransferRequest, first: Option<SignedTransaction>, later: Records, second: Option<SignedTransaction>)
    requires Sign(cfg, records, request, first).1.Ok?
    requires forall id :: id in Sign(cfg, records, request, first).0 ==> id in later && later[id] == Sign(cfg, records, request, first).0[id]
    ensures Sign(cfg, later, request, second) == (later, Ok(Sign(cfg, records, request, first).1.value))
  {
  }
}
