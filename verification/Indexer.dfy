// The fenced, hash-linked cursor over solidified blocks and the events it persists.
module Indexer {
  import opened Prelude
  import opened Chain
  import opened Lease
  import opened Tables

  /** A scan lease: the fencing token and the cursor position it was taken at. */
  datatype ScanClaim = ScanClaim(worker: string, epoch: nat, next: nat, previous: string)

  /** BindContract, first statement. */
  function Bind(cursor: Cursor, contract: string): Cursor {
    if cursor.tracked.None? && cursor.next == cursor.start then cursor.(tracked := Some(contract)) else cursor
  }

  predicate CursorFree(cursor: Cursor, now: nat) {
    cursor.lease.None? || cursor.lease.value.until <= now
  }

  function ClaimCursor(cursor: Cursor, worker: string, now: nat, duration: nat): Cursor {
    cursor.(lease := Some(Holder(worker, now + duration)), epoch := cursor.epoch + 1)
  }

  predicate CursorHeld(cursor: Cursor, claim: ScanClaim) {
    cursor.lease.Some? && cursor.lease.value.owner == claim.worker && cursor.epoch == claim.epoch
  }

  /** The checks Step makes on the block it was given. */
  predicate BlockContinues(claim: ScanClaim, head: Header, block: Block) {
    && block.header.height == claim.next && block.header.hash != "" && block.header.timestamp != 0
    && block.header.hash != claim.previous && block.header.parentHash == claim.previous
    && (block.header.height == head.height ==> block.header.hash == head.hash)
  }

  /** The checks validTransfers makes before it keeps the target contract's transfers. */
  predicate EventsValid(network: string, contract: string, block: Block) {
    && (forall j :: 0 <= j < |block.receipts| ==>
          block.receipts[j].transactionId != "" && block.receipts[j].outcome != NoOutcome)
    && (forall i, j :: 0 <= i < j < |block.receipts| ==> block.receipts[i].transactionId != block.receipts[j].transactionId)
    && (forall j :: 0 <= j < |block.transfers| && block.transfers[j].id.contract == contract ==>
          TransferFits(network, block.receipts, block.transfers[j]))
    && (forall i, j :: 0 <= i < j < |block.transfers| && block.transfers[i].id.contract == contract ==>
          block.transfers[i].id != block.transfers[j].id)
  }

  function RowOf(header: Header, t: Transfer): EventRow {
    EventRow(header.height, header.hash, header.timestamp, t.sender, t.recipient, t.amount)
  }

  /** The rows a block contributes. */
  function BlockEvents(contract: string, block: Block): map<EventId, EventRow> {
    EventsOf(contract, block.header, block.transfers)
  }

  function EventsOf(contract: string, header: Header, transfers: seq<Transfer>): map<EventId, EventRow> {
    if transfers == [] then map[]
    else
      var t := transfers[|transfers| - 1];
      var rest := EventsOf(contract, header, transfers[..|transfers| - 1]);
      if t.id.contract == contract then rest[t.id := RowOf(header, t)] else rest
  }

  /** insertEvent over the block: existing rows must agree with the new ones. */
  predicate NoConflict(events: map<EventId, EventRow>, added: map<EventId, EventRow>) {
    forall key :: key in added && key in events ==> events[key] == added[key]
  }

  /** AdvanceTx. */
  predicate Advances(cursor: Cursor, claim: ScanClaim, now: nat) {
    && CursorHeld(cursor, claim) && now < cursor.lease.value.until
    && cursor.next == claim.next && cursor.previous == claim.previous
  }

  function Advance(cursor: Cursor, block: Block): Cursor {
    cursor.(next := cursor.next + 1, previous := block.header.hash, lease := None)
  }

  /** The transaction at the end of Step: insert the block's events and advance, or change nothing. */
  function Commit(db: Db, claim: ScanClaim, contract: string, block: Block): Db {
    if NoConflict(db.events, BlockEvents(contract, block)) && Advances(db.cursor, claim, db.now)
    then db.(events := db.events + BlockEvents(contract, block), cursor := Advance(db.cursor, block))
    else db
  }

  function Release(db: Db, claim: ScanClaim): Db {
    if CursorHeld(db.cursor, claim) then db.(cursor := db.cursor.(lease := None)) else db
  }
}
