// The indexed events are exactly the tracked contract's transfers of the solidified blocks from
// the start height up to the cursor, whatever scanners do, crash or get overtaken.
module IndexProofs {
  import opened Prelude
  import opened Chain
  import opened Tables
  import opened Indexer
  import opened Gateway
  import opened Protocol

  // ---------- one block ----------

  predicate Target(t: Transfer, contract: string) {
    t.id.contract == contract
  }

  predicate TargetsDistinct(contract: string, transfers: seq<Transfer>) {
    forall i, j :: 0 <= i < j < |transfers| && Target(transfers[i], contract) ==> transfers[i].id != transfers[j].id
  }

  predicate HasTarget(transfers: seq<Transfer>, contract: string, key: EventId) {
    exists j :: 0 <= j < |transfers| && Target(transfers[j], contract) && transfers[j].id == key
  }

  /** The rows built for a block are those of the contract's transfers, no fewer and no more. */
  lemma {:induction false} EventsOfExact(contract: string, header: Header, transfers: seq<Transfer>)
    requires TargetsDistinct(contract, transfers)
    ensures
      var events := EventsOf(contract, header, transfers);
      && (forall j :: 0 <= j < |transfers| && Target(transfers[j], contract) ==>
            transfers[j].id in events && events[transfers[j].id] == RowOf(header, transfers[j]))
      && (forall key :: key in events ==> HasTarget(transfers, contract, key))
  {
    if transfers != [] {
      var n := |transfers| - 1;
      var init := transfers[..n];
      assert forall i, j :: 0 <= i < j < n && Target(init[i], contract) ==> init[i].id != init[j].id;
      EventsOfExact(contract, header, init);
      var events, rest := EventsOf(contract, header, transfers), EventsOf(contract, header, init);
      forall j | 0 <= j < |transfers| && Target(transfers[j], contract)
        ensures transfers[j].id in events && events[transfers[j].id] == RowOf(header, transfers[j])
      {
        if j < n {
          assert init[j] == transfers[j];
        }
      }
      forall key | key in events ensures HasTarget(transfers, contract, key) {
        if key in rest {
          assert HasTarget(init, contract, key);
          var j :| 0 <= j < n && Target(init[j], contract) && init[j].id == key;
          assert Target(transfers[j], contract);
        } else {
          assert Target(transfers[n], contract);
        }
      }
    }
  }

  // ---------- a range of blocks ----------

  /** The event row is a transfer of one of these blocks. */
  ghost predicate Indexed(blocks: seq<Block>, contract: string, start: nat, key: EventId, row: EventRow) {
    exists i, j :: start <= i < |blocks| && 0 <= j < |blocks[i].transfers| && IsRow(blocks[i], j, contract, key, row)
  }

  predicate IsRow(block: Block, j: nat, contract: string, key: EventId, row: EventRow) {
    j < |block.transfers| && Target(block.transfers[j], contract) && block.transfers[j].id == key && row == RowOf(block.header, block.transfers[j])
  }

  /** No gap and no duplicate: the rows are exactly the contract's transfers from the start height on. */
  ghost predicate Exact(events: map<EventId, EventRow>, blocks: seq<Block>, contract: string, start: nat) {
    && (forall key :: key in events ==> Indexed(blocks, contract, start, key, events[key]))
    && (forall i, j :: start <= i < |blocks| && 0 <= j < |blocks[i].transfers| && Target(blocks[i].transfers[j], contract) ==>
          blocks[i].transfers[j].id in events && events[blocks[i].transfers[j].id] == RowOf(blocks[i].header, blocks[i].transfers[j]))
  }

  lemma IndexedGrows(blocks: seq<Block>, block: Block, contract: string, start: nat, key: EventId, row: EventRow)
    requires Indexed(blocks, contract, start, key, row)
    ensures Indexed(blocks + [block], contract, start, key, row)
  {
    var i, j :| start <= i < |blocks| && 0 <= j < |blocks[i].transfers| && IsRow(blocks[i], j, contract, key, row);
    assert (blocks + [block])[i] == blocks[i];
  }

  /** Committing the next block extends the range by that block. */
  lemma ExactExtends(events: map<EventId, EventRow>, blocks: seq<Block>, block: Block, contract: string, start: nat)
    requires Exact(events, blocks, contract, start) && start <= |blocks|
    requires TargetsDistinct(contract, block.transfers) && NoConflict(events, BlockEvents(contract, block))
    ensures Exact(events + BlockEvents(contract, block), blocks + [block], contract, start)
  {
    var added, next := BlockEvents(contract, block), blocks + [block];
    EventsOfExact(contract, block.header, block.transfers);
    forall key | key in events + added ensures Indexed(next, contract, start, key, (events + added)[key]) {
      if key in added {
        assert HasTarget(block.transfers, contract, key);
        var j :| 0 <= j < |block.transfers| && Target(block.transfers[j], contract) && block.transfers[j].id == key;
        assert next[|blocks|] == block && IsRow(next[|blocks|], j, contract, key, added[key]);
      } else {
        IndexedGrows(blocks, block, contract, start, key, events[key]);
      }
    }
    forall i, j | start <= i < |next| && 0 <= j < |next[i].transfers| && Target(next[i].transfers[j], contract)
      ensures next[i].transfers[j].id in events + added
      ensures (events + added)[next[i].transfers[j].id] == RowOf(next[i].header, next[i].transfers[j])
    {
      if i < |blocks| {
        assert next[i] == blocks[i];
      }
    }
  }

  /** Event identities never clash on a valid chain, so inserting a new block meets no conflicting row. */
  lemma NeverConflicts(network: string, blocks: seq<Block>, n: nat, events: map<EventId, EventRow>, contract: string, start: nat)
    requires ValidBlocks(network, blocks) && n < |blocks| && Exact(events, blocks[..n], contract, start)
    requires TargetsDistinct(contract, blocks[n].transfers)
    ensures forall key :: key in BlockEvents(contract, blocks[n]) ==> key !in events
  {
    var added := BlockEvents(contract, blocks[n]);
    EventsOfExact(contract, blocks[n].header, blocks[n].transfers);
    forall key | key in added ensures key !in events {
      assert HasTarget(blocks[n].transfers, contract, key);
      var q :| 0 <= q < |blocks[n].transfers| && Target(blocks[n].transfers[q], contract) && blocks[n].transfers[q].id == key;
      if key in events {
        assert Indexed(blocks[..n], contract, start, key, events[key]);
        var i, j :| start <= i < n && 0 <= j < |blocks[..n][i].transfers| && IsRow(blocks[..n][i], j, contract, key, events[key]);
        assert blocks[..n][i] == blocks[i];
        EventIdsUnique(network, blocks, i, j, n, q);
        assert false;
      }
    }
  }

  // ---------- the cursor ----------

  ghost predicate IndexInv(db: Db, chain: Chain) {
    var c := db.cursor;
    && 0 < c.start <= c.next
    && (c.next == c.start ==> db.events == map[] && c.previous == c.anchor)
    && (c.next > c.start ==>
          && c.tracked.Some? && c.next <= chain.solidified + 1 && c.next <= |chain.blocks|
          && c.previous == chain.blocks[c.next - 1].header.hash
          && chain.blocks[c.start].header.parentHash == c.anchor
          && Exact(db.events, chain.blocks[..c.next], c.tracked.value, c.start))
  }

  ghost predicate ScanSound(db: Db, chain: Chain, pc: Pc) {
    && (pc.ScanBound? ==> db.cursor.tracked == Some(pc.contract))
    && (pc.ScanClaimed? || pc.ScanHeaded? || pc.ScanFetched? ==>
          db.cursor.tracked == Some(pc.contract) && pc.scan.epoch <= db.cursor.epoch && pc.scan.next <= db.cursor.next)
    && (pc.ScanFetched? ==>
          && pc.scan.next <= chain.solidified && pc.scan.next < |chain.blocks| && pc.block == chain.blocks[pc.scan.next]
          && pc.block.header.parentHash == pc.scan.previous
          && EventsValid(chain.network, pc.contract, pc.block))
  }

  ghost predicate ScansSound(db: Db, chain: Chain, procs: map<string, Proc>) {
    forall p :: p in procs ==> ScanSound(db, chain, procs[p].pc)
  }

  /** The cursor moves forward, keeps its contract, and its epoch never falls. */
  predicate CursorAdvances(was: Cursor, c: Cursor) {
    && c.start == was.start && c.anchor == was.anchor && was.next <= c.next && was.epoch <= c.epoch
    && (was.tracked.Some? ==> c.tracked == was.tracked)
  }

  lemma ScanStays(was: Db, db: Db, before: Chain, chain: Chain, pc: Pc)
    requires ScanSound(was, before, pc) && CursorAdvances(was.cursor, db.cursor) && ChainGrows(before, chain)
    ensures ScanSound(db, chain, pc)
  {
    if pc.ScanFetched? {
      PrefixStays(before, chain, pc.scan.next + 1);
      assert chain.blocks[..pc.scan.next + 1][pc.scan.next] == before.blocks[..pc.scan.next + 1][pc.scan.next];
    }
  }

  lemma IndexStays(was: Db, db: Db, before: Chain, chain: Chain)
    requires IndexInv(was, before) && ChainGrows(before, chain)
    requires db.events == was.events
    requires CursorAdvances(was.cursor, db.cursor) && db.cursor.next == was.cursor.next && db.cursor.previous == was.cursor.previous
    ensures IndexInv(db, chain)
  {
    var c := db.cursor;
    if c.next > c.start {
      PrefixStays(before, chain, c.next);
      assert chain.blocks[..c.next][c.start] == before.blocks[..c.next][c.start];
      assert chain.blocks[..c.next][c.next - 1] == before.blocks[..c.next][c.next - 1];
    }
  }

  lemma ScansStay(was: Db, db: Db, before: Chain, chain: Chain, procs: map<string, Proc>)
    requires ScansSound(was, before, procs) && CursorAdvances(was.cursor, db.cursor) && ChainGrows(before, chain)
    ensures ScansSound(db, chain, procs)
  {
    hide ScanSound, CursorAdvances, ChainGrows;
    forall p | p in procs ensures ScanSound(db, chain, procs[p].pc) {
      ScanStays(was, db, before, chain, procs[p].pc);
    }
  }

  // ---------- steps ----------

  lemma CommitExact(db: Db, chain: Chain, pc: Pc)
    requires IndexInv(db, chain) && ValidChain(chain) && pc.ScanFetched? && ScanSound(db, chain, pc)
    ensures IndexInv(Commit(db, pc.scan, pc.contract, pc.block), chain)
    ensures CursorAdvances(db.cursor, Commit(db, pc.scan, pc.contract, pc.block).cursor)
  {
    hide Exact, ValidBlocks, EventsValid, NoConflict, BlockEvents;
    var c := db.cursor;
    var next := Commit(db, pc.scan, pc.contract, pc.block);
    if next != db {
      var n := c.next;
      assert chain.blocks[..n] + [chain.blocks[n]] == chain.blocks[..n + 1];
      StartExact(db, chain, pc.contract);
      ValidTargets(chain.network, pc.contract, pc.block);
      ExactExtends(db.events, chain.blocks[..n], pc.block, pc.contract, c.start);
    }
  }

  lemma ValidTargets(network: string, contract: string, block: Block)
    requires EventsValid(network, contract, block)
    ensures TargetsDistinct(contract, block.transfers)
  {
  }

  /** Before the first commit the empty table is exact. */
  lemma StartExact(db: Db, chain: Chain, contract: string)
    requires IndexInv(db, chain) && db.cursor.tracked == Some(contract) && db.cursor.next <= |chain.blocks|
    ensures Exact(db.events, chain.blocks[..db.cursor.next], contract, db.cursor.start)
  {
  }

  lemma SelfGrows(chain: Chain)
    requires ValidChain(chain)
    ensures ChainGrows(chain, chain)
  {
  }

  lemma CursorOnly(db: Db, chain: Chain, proc: Proc, x: ScanAction, next: Db, reached: Pc)
    requires IndexInv(db, chain) && ValidChain(chain) && ScanSound(db, chain, proc.pc) && ScanNext(db, chain, proc, x, next, reached)
    requires x.ScanBind? || x.ScanClaimCursor? || x.ScanRelease?
    ensures IndexInv(next, chain) && CursorAdvances(db.cursor, next.cursor) && ScanSound(next, chain, reached)
  {
    hide IndexInv, ValidChain, ChainGrows, EventsValid, BlockContinues;
    CursorBounds(db, chain);
    SelfGrows(chain);
    assert next == db.(cursor := next.cursor);
    assert CursorAdvances(db.cursor, next.cursor) && next.cursor.next == db.cursor.next && next.cursor.previous == db.cursor.previous;
    IndexStays(db, next, chain, chain);
  }

  lemma CursorBounds(db: Db, chain: Chain)
    requires IndexInv(db, chain)
    ensures 0 < db.cursor.start <= db.cursor.next && (db.cursor.next > db.cursor.start ==> db.cursor.tracked.Some?)
  {
  }

  lemma ReadOnly(db: Db, chain: Chain, proc: Proc, x: ScanAction, next: Db, reached: Pc)
    requires ScanSound(db, chain, proc.pc) && ScanNext(db, chain, proc, x, next, reached)
    requires x.ScanReadHead? || x.ScanReadBlock?
    ensures next == db && ScanSound(next, chain, reached)
  {
    hide EventsValid;
  }

  lemma ScanStepKeeps(db: Db, chain: Chain, proc: Proc, x: ScanAction, next: Db, reached: Pc)
    requires IndexInv(db, chain) && ValidChain(chain) && ScanSound(db, chain, proc.pc)
    requires ScanNext(db, chain, proc, x, next, reached)
    ensures IndexInv(next, chain) && CursorAdvances(db.cursor, next.cursor) && ScanSound(next, chain, reached)
  {
    hide IndexInv, ValidChain, EventsValid, BlockContinues;
    match x
    case ScanCommit => CommitExact(db, chain, proc.pc);
    case ScanReadHead(_) => ReadOnly(db, chain, proc, x, next, reached);
    case ScanReadBlock(_) => ReadOnly(db, chain, proc, x, next, reached);
    case _ => CursorOnly(db, chain, proc, x, next, reached);
  }

  lemma ScanRowsStay(db: Db, chain: Chain, proc: Proc, x: ScanAction, next: Db, reached: Pc)
    requires ScanNext(db, chain, proc, x, next, reached)
    ensures next == db.(cursor := next.cursor, events := next.events) && !HasClaim(reached)
  {
    hide BlockContinues, EventsValid, NoConflict, Advances;
  }
}
