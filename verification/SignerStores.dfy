// The signer's two idempotency stores and the service in front of them.
module SignerStores {
  import opened Prelude
  import opened Chain
  import opened Tables
  import opened Signer
  import Text

  /** validRequestHash: 64 lower-case hexadecimal characters. */
  method ValidRequestHash(value: string) returns (valid: bool)
    ensures valid <==> |value| == 64 && forall i :: 0 <= i < |value| ==> Text.LowerHexDigit(value[i])
  {
    if |value| != 64 {
      return false;
    }
    for i := 0 to |value|
      invariant forall j :: 0 <= j < i ==> Text.LowerHexDigit(value[j])
    {
      var character := value[i];
      if character < '0' || character > '9' {
        if character < 'a' || character > 'f' {
          return false;
        }
      }
    }
    return true;
  }

  class PostgresStore {
    var records: Records

    constructor ()
      ensures records == map[]
    {
      records := map[];
    }

    /** Under the lock of the request id: load, or create, check and insert. */
    method Resolve(request: TransferRequest, built: Option<SignedTransaction>) returns (result: Result<SignedTransaction, SignError>)
      modifies this
      ensures (records, result) == Signer.Resolve(old(records), request, built)
      ensures result.Ok? ==> request.id in records && records[request.id] == SignerRecord(request, result.value)
    {
      var stored := Load(request);
      if stored.Err? {
        return Err(stored.error);
      }
      if stored.value.Some? {
        return Ok(stored.value.value);
      }
      if built.None? {
        return Err(SigningFailed);
      }
      if !Executes(built.value, request) {
        return Err(InvalidTransaction);
      }
      if !UnusedId(records, built.value.id) {
        return Err(StoreFailed);
      }
      records := records[request.id := SignerRecord(request, built.value)];
      result := Ok(built.value);
    }

    /** loadPostgresRecord: nothing, the stored transaction, or a conflict with another fingerprint. */
    method Load(request: TransferRequest) returns (stored: Result<Option<SignedTransaction>, SignError>)
      ensures stored == (if request.id !in records then Ok(None)
                         else if records[request.id].request == request then Ok(Some(records[request.id].transaction))
                         else Err(RequestConflict))
    {
      if request.id !in records {
        return Ok(None);
      }
      if records[request.id].request != request {
        return Err(RequestConflict);
      }
      return Ok(Some(records[request.id].transaction));
    }
  }

  class Service {
    const cfg: Config
    const store: PostgresStore

    constructor (cfg: Config, store: PostgresStore)
      ensures this.cfg == cfg && this.store == store
    {
      this.cfg, this.store := cfg, store;
    }

    method SignTransfer(request: TransferRequest, built: Option<SignedTransaction>) returns (result: Result<SignedTransaction, SignError>)
      modifies store
      ensures (store.records, result) == Sign(cfg, old(store.records), request, built)
    {
      if !ValidSignRequest(request) {
        return Err(InvalidSignRequest);
      }
      if !Allowed(cfg, request) {
        return Err(PolicyDenied);
      }
      result := store.Resolve(request, built);
    }

    /** A sweep is signed only by the key that owns its source address. */
    method SignSweep(owner: string, request: TransferRequest, built: Option<SignedTransaction>) returns (result: Result<SignedTransaction, SignError>)
      modifies store
      ensures request.owner != owner ==> result == Err(PolicyDenied) && store.records == old(store.records)
      ensures request.owner == owner ==> (store.records, result) == Sign(cfg, old(store.records), request, built)
    {
      if request.owner != owner {
        return Err(PolicyDenied);
      }
      result := SignTransfer(request, built);
    }
  }

  // ---------- the file store ----------

  /** A directory shared by signer instances: records by request id, and temporary files being written. */
  class Directory {
    var files: Records
    var temporary: map<string, SignerRecord>

    constructor ()
      ensures files == map[] && temporary == map[]
    {
      files, temporary := map[], map[];
    }

    /** Other instances link records of their own; links never replace a file. */
    method Others(rivals: Records)
      modifies this`files
      ensures files == rivals + old(files)
    {
      files := rivals + files;
    }

    /** os.Link: fails when the name exists. */
    method Link(name: string, id: string) returns (linked: bool)
      requires name in temporary
      modifies this`files
      ensures linked <==> id !in old(files)
      ensures files == if linked then old(files)[id := temporary[name]] else old(files)
    {
      linked := id !in files;
      if linked {
        files := files[id := temporary[name]];
      }
    }
  }

  class FileStore {
    const directory: Directory

    constructor (directory: Directory)
      ensures this.directory == directory
    {
      this.directory := directory;
    }

    method Load(request: TransferRequest) returns (stored: Result<Option<SignedTransaction>, SignError>)
      ensures stored == (if request.id !in directory.files then Ok(None)
                         else if directory.files[request.id].request == request then Ok(Some(directory.files[request.id].transaction))
                         else Err(RequestConflict))
    {
      if request.id !in directory.files {
        return Ok(None);
      }
      if directory.files[request.id].request != request {
        return Err(RequestConflict);
      }
      return Ok(Some(directory.files[request.id].transaction));
    }

    /**
     * Resolve while other instances run between the load and the link. Whoever links first wins:
     * the returned transaction is the one on disk, no record on disk is ever replaced, and no
     * temporary file is left behind.
     */
    method Resolve(request: TransferRequest, built: Option<SignedTransaction>, name: string, rivals: Records) returns (result: Result<SignedTransaction, SignError>)
      requires name !in directory.temporary
      modifies directory
      ensures directory.temporary == old(directory.temporary)
      ensures forall id :: id in old(directory.files) ==> id in directory.files && directory.files[id] == old(directory.files)[id]
      ensures result.Ok? ==> request.id in directory.files && directory.files[request.id] == SignerRecord(request, result.value)
      ensures request.id in directory.files && directory.files[request.id].request != request ==> result.Err?
      ensures request.id in old(directory.files) && old(directory.files)[request.id].request == request ==> result == Ok(old(directory.files)[request.id].transaction)
      ensures directory.files ==
                if request.id in old(directory.files) then old(directory.files)
                else if built.Some? && Executes(built.value, request) && request.id !in rivals
                then (rivals + old(directory.files))[request.id := SignerRecord(request, built.value)]
                else rivals + old(directory.files)
    {
      var stored := Load(request);
      if stored.Err? {
        return Err(stored.error);
      }
      if stored.value.Some? {
        return Ok(stored.value.value);
      }
      directory.Others(rivals);
      if built.None? {
        return Err(SigningFailed);
      }
      if !Executes(built.value, request) {
        return Err(InvalidTransaction);
      }
      directory.temporary := directory.temporary[name := SignerRecord(request, built.value)];
      var linked := directory.Link(name, request.id);
      directory.temporary := directory.temporary - {name};
      assert directory.temporary == old(directory.temporary);
      if linked {
        return Ok(built.value);
      }
      stored := Load(request);
      if stored.Err? {
        return Err(stored.error);
      }
      return Ok(stored.value.value);
    }
  }
}
