// The block scanner: cursor statements, the transfer filter, event insertion, and one whole step
// with the rest of the system running between its calls.
module Scanners {
  import opened Prelude
  import opened Chain
  import opened Lease
  import opened Tables
  import opened Indexer
  import opened Gateway
  import opened Storage
  import IndexProofs
  import Simulator
  import Workers

  // ---------- the filter ----------

  /** The transfers of the tracked contract, in block order. */
  function Targets(contract: string, transfers: seq<Transfer>): seq<Transfer> {
    if transfers == [] then []
    else
      var last := transfers[|transfers| - 1];
      Targets(contract, transfers[..|transfers| - 1]) + (if last.id.contract == contract then [last] else [])
  }

  /** Filtering first does not change the rows a block contributes. */
  lemma {:induction false} TargetsSameEvents(contract: string, header: Header, transfers: seq<Transfer>)
    ensures EventsOf(contract, header, Targets(contract, transfers)) == EventsOf(contract, header, transfers)
  {
    if transfers != [] {
      var init, last := transfers[..|transfers| - 1], transfers[|transfers| - 1];
      TargetsSameEvents(contract, header, init);
      if last.id.contract == contract {
        assert (Targets(contract, init) + [last])[..|Targets(contract, init)|] == Targets(contract, init);
      } else {
        assert Targets(contract, transfers) == Targets(contract, init);
      }
    }
  }

  lemma {:induction false} TargetsOnly(contract: string, transfers: seq<Transfer>, t: Transfer)
    ensures t in Targets(contract, transfers) <==> t in transfers && t.id.contract == contract
  {
    if transfers != [] {
      var init := transfers[..|transfers| - 1];
      TargetsOnly(contract, init, t);
      assert transfers == init + [transfers[|transfers| - 1]];
    }
  }

  /** Distinct ids among the contract's transfers stay distinct after filtering. */
  lemma {:induction false} TargetsStayDistinct(contract: string, transfers: seq<Transfer>)
    requires IndexProofs.TargetsDistinct(contract, transfers)
    ensures IndexProofs.TargetsDistinct(contract, Targets(contract, transfers))
  {
    if transfers != [] {
      var init, last := transfers[..|transfers| - 1], transfers[|transfers| - 1];
      assert forall i, j :: 0 <= i < j < |init| && IndexProofs.Target(init[i], contract) ==> init[i].id != init[j].id;
      TargetsStayDistinct(contract, init);
      forall t | t in Targets(contract, init) ensures last.id.contract == contract ==> t.id != last.id {
        TargetsOnly(contract, init, t);
        var i :| 0 <= i < |init| && init[i] == t;
        assert transfers[i] == t && IndexProofs.Target(transfers[i], contract);
      }
    }
  }

  predicate ReceiptsValid(receipts: seq<Receipt>) {
    && (forall j :: 0 <= j < |receipts| ==> receipts[j].transactionId != "" && receipts[j].outcome != NoOutcome)
    && (forall i, j :: 0 <= i < j < |receipts| ==> receipts[i].transactionId != receipts[j].transactionId)
  }

  lemma ReceiptsValidStep(receipts: seq<Receipt>, k: nat)
    requires k < |receipts| && ReceiptsValid(receipts[..k])
    ensures
      var fits := receipts[k].transactionId != "" && receipts[k].outcome != NoOutcome
                  && forall j :: 0 <= j < k ==> receipts[j].transactionId != receipts[k].transactionId;
      (fits ==> ReceiptsValid(receipts[..k + 1])) && (!fits ==> !ReceiptsValid(receipts))
  {
    assert forall j :: 0 <= j < k ==> receipts[..k][j] == receipts[j];
  }

  method ReadReceipts(receipts: seq<Receipt>) returns (valid: bool, known: map<string, Outcome>)
    ensures valid <==> ReceiptsValid(receipts)
    ensures valid ==> Simulator.ReceiptMap(known, receipts)
  {
    hide ReceiptsValid;
    known := map[];
    NoReceipts(receipts);
    for k := 0 to |receipts|
      invariant ReceiptsValid(receipts[..k]) && Simulator.ReceiptMap(known, receipts[..k])
    {
      var receipt := receipts[k];
      ReceiptsValidStep(receipts, k);
      if receipt.transactionId == "" || (receipt.outcome != ExecutionSucceeded && receipt.outcome != ExecutionFailed) {
        return false, known;
      }
      if receipt.transactionId in known {
        assert Receipt(receipt.transactionId, known[receipt.transactionId]) in receipts[..k];
        return false, known;
      }
      Simulator.ReceiptMapStep(known, receipts, k);
      known := known[receipt.transactionId := receipt.outcome];
    }
    assert receipts[..|receipts|] == receipts;
    valid := true;
  }

  lemma NoReceipts(receipts: seq<Receipt>)
    ensures ReceiptsValid(receipts[..0])
  {
  }

  predicate TargetsValid(network: string, contract: string, receipts: seq<Receipt>, transfers: seq<Transfer>) {
    && (forall j :: 0 <= j < |transfers| && IndexProofs.Target(transfers[j], contract) ==> TransferFits(network, receipts, transfers[j]))
    && IndexProofs.TargetsDistinct(contract, transfers)
  }

  predicate NewTarget(network: string, contract: string, receipts: seq<Receipt>, earlier: seq<Transfer>, t: Transfer) {
    TransferFits(network, receipts, t) && forall j :: 0 <= j < |earlier| && IndexProofs.Target(earlier[j], contract) ==> earlier[j].id != t.id
  }

  lemma TargetsValidStep(network: string, contract: string, receipts: seq<Receipt>, transfers: seq<Transfer>, k: nat)
    requires k < |transfers| && TargetsValid(network, contract, receipts, transfers[..k])
    ensures !IndexProofs.Target(transfers[k], contract) ==> TargetsValid(network, contract, receipts, transfers[..k + 1])
    ensures IndexProofs.Target(transfers[k], contract) ==>
      if NewTarget(network, contract, receipts, transfers[..k], transfers[k]) then TargetsValid(network, contract, receipts, transfers[..k + 1])
      else !TargetsValid(network, contract, receipts, transfers)
  {
    hide TransferFits;
    assert forall j :: 0 <= j < k ==> transfers[..k][j] == transfers[j];
  }

  lemma ValidParts(network: string, contract: string, block: Block)
    ensures EventsValid(network, contract, block) <==>
            ReceiptsValid(block.receipts) && TargetsValid(network, contract, block.receipts, block.transfers)
    ensures TargetsValid(network, contract, block.receipts, [])
  {
    hide TransferFits;
    forall i, j | 0 <= i < j < |block.transfers| && IndexProofs.Target(block.transfers[i], contract)
      ensures EventsValid(network, contract, block) ==> block.transfers[i].id != block.transfers[j].id
    {
    }
  }

  /** The ids of the contract's transfers seen so far. */
  ghost predicate Positions(positions: set<EventId>, contract: string, transfers: seq<Transfer>) {
    && (forall j :: 0 <= j < |transfers| && IndexProofs.Target(transfers[j], contract) ==> transfers[j].id in positions)
    && (forall p :: p in positions ==> IndexProofs.HasTarget(transfers, contract, p))
  }

  lemma PositionsStep(positions: set<EventId>, contract: string, transfers: seq<Transfer>, k: nat)
    requires k < |transfers| && Positions(positions, contract, transfers[..k])
    ensures Positions(if IndexProofs.Target(transfers[k], contract) then positions + {transfers[k].id} else positions, contract, transfers[..k + 1])
  {
    var more := transfers[..k + 1];
    assert forall j :: 0 <= j < k ==> transfers[..k][j] == more[j];
    assert more[k] == transfers[k];
    forall p | p in positions ensures IndexProofs.HasTarget(more, contract, p) {
      assert IndexProofs.HasTarget(transfers[..k], contract, p);
      var j :| 0 <= j < k && IndexProofs.Target(transfers[..k][j], contract) && transfers[..k][j].id == p;
      assert IndexProofs.Target(more[j], contract);
    }
  }

  /** validTransfers: the contract's transfers, or nothing when the block's evidence is malformed. */
  method ValidTransfers(network: string, contract: string, block: Block) returns (transfers: Option<seq<Transfer>>)
    requires contract != ""
    ensures transfers.Some? <==> EventsValid(network, contract, block)
    ensures transfers.Some? ==> transfers.value == Targets(contract, block.transfers)
  {
    hide EventsValid, TargetsValid, Positions;
    ValidParts(network, contract, block);
    var valid, known := ReadReceipts(block.receipts);
    if !valid {
      return None;
    }
    var kept: seq<Transfer> := [];
    var positions: set<EventId> := {};
    var all := block.transfers;
    NoPositions(contract);
    for k := 0 to |all|
      invariant kept == Targets(contract, all[..k])
      invariant TargetsValid(network, contract, block.receipts, all[..k]) && Positions(positions, contract, all[..k])
    {
      var t := all[k];
      assert all[..k + 1][..k] == all[..k];
      TargetsValidStep(network, contract, block.receipts, all, k);
      PositionsStep(positions, contract, all, k);
      if t.id.contract == contract {
        SeenBefore(positions, contract, all, k);
        if t.id.network != network || t.id.transactionId == "" || t.sender == "" || t.recipient == ""
           || t.id.transactionId !in known || known[t.id.transactionId] != ExecutionSucceeded || !ValidAmount(t.amount)
        {
          return None;
        }
        if t.id in positions {
          return None;
        }
        positions := positions + {t.id};
        kept := kept + [t];
      }
    }
    assert all[..|all|] == all;
    transfers := Some(kept);
  }

  lemma NoPositions(contract: string)
    ensures Positions({}, contract, [])
  {
  }

  lemma SeenBefore(positions: set<EventId>, contract: string, transfers: seq<Transfer>, k: nat)
    requires k < |transfers| && Positions(positions, contract, transfers[..k])
    ensures transfers[k].id in positions <==>
            exists j :: 0 <= j < k && IndexProofs.Target(transfers[..k][j], contract) && transfers[..k][j].id == transfers[k].id
  {
    if transfers[k].id in positions {
      assert IndexProofs.HasTarget(transfers[..k], contract, transfers[k].id);
    }
  }

  // ---------- the cursor and the events ----------

  /** insertEvent over the block's targets, then AdvanceTx, in one transaction. */
  method CommitBlock(db: Database, scan: ScanClaim, contract: string, block: Block) returns (done: bool)
    requires contract != "" && IndexProofs.TargetsDistinct(contract, block.transfers)
    modifies db`events, db`cursor
    ensures db.View() == Commit(old(db.View()), scan, contract, block)
    ensures done ==> db.cursor.next == old(db.cursor.next) + 1
    ensures !done ==> db.View() == old(db.View())
  {
    var transfers := Targets(contract, block.transfers);
    TargetsSameEvents(contract, block.header, block.transfers);
    TargetsStayDistinct(contract, block.transfers);
    forall t | t in transfers ensures t.id.contract == contract {
      TargetsOnly(contract, block.transfers, t);
    }
    var events := InsertEvents(db.events, contract, block.header, transfers);
    if events.None? {
      return false;
    }
    if !Advances(db.cursor, scan, db.now) {
      return false;
    }
    db.events := events.value;
    db.cursor := Advance(db.cursor, block);
    done := true;
  }

  /** The event rows after inserting every transfer, or nothing when one clashes with a stored row. */
  method InsertEvents(stored: map<EventId, EventRow>, contract: string, header: Header, transfers: seq<Transfer>) returns (events: Option<map<EventId, EventRow>>)
    requires forall t :: t in transfers ==> t.id.contract == contract
    requires IndexProofs.TargetsDistinct(contract, transfers)
    ensures events.Some? <==> NoConflict(stored, EventsOf(contract, header, transfers))
    ensures events.Some? ==> events.value == stored + EventsOf(contract, header, transfers)
  {
    hide EventsOf, NoConflict;
    var rows := stored;
    NothingInserted(stored, contract, header, transfers);
    for k := 0 to |transfers|
      invariant NoConflict(stored, EventsOf(contract, header, transfers[..k]))
      invariant rows == stored + EventsOf(contract, header, transfers[..k])
    {
      var t := transfers[k];
      InsertStep(contract, header, transfers, k);
      InsertDecides(stored, contract, header, transfers, k);
      if t.id !in rows {
        rows := rows[t.id := RowOf(header, t)];
      } else if rows[t.id] != RowOf(header, t) {
        return None;
      }
    }
    assert transfers[..|transfers|] == transfers;
    events := Some(rows);
  }

  lemma NothingInserted(stored: map<EventId, EventRow>, contract: string, header: Header, transfers: seq<Transfer>)
    ensures EventsOf(contract, header, transfers[..0]) == map[] && NoConflict(stored, EventsOf(contract, header, transfers[..0]))
  {
  }

  lemma InsertStep(contract: string, header: Header, transfers: seq<Transfer>, k: nat)
    requires k < |transfers| && (forall t :: t in transfers ==> t.id.contract == contract)
    requires IndexProofs.TargetsDistinct(contract, transfers)
    ensures EventsOf(contract, header, transfers[..k + 1]) == EventsOf(contract, header, transfers[..k])[transfers[k].id := RowOf(header, transfers[k])]
    ensures transfers[k].id !in EventsOf(contract, header, transfers[..k])
  {
    var t, init := transfers[k], transfers[..k];
    assert transfers[..k + 1][..k] == init;
    assert t in transfers;
    assert forall j :: 0 <= j < k ==> init[j] == transfers[j];
    IndexProofs.EventsOfExact(contract, header, init);
    assert t.id in EventsOf(contract, header, init) ==> IndexProofs.HasTarget(init, contract, t.id);
  }

  /** A clash with a stored row of another content shows in the whole block's rows. */
  lemma InsertDecides(stored: map<EventId, EventRow>, contract: string, header: Header, transfers: seq<Transfer>, k: nat)
    requires k < |transfers| && (forall t :: t in transfers ==> t.id.contract == contract)
    requires IndexProofs.TargetsDistinct(contract, transfers)
    requires NoConflict(stored, EventsOf(contract, header, transfers[..k]))
    requires EventsOf(contract, header, transfers[..k + 1]) == EventsOf(contract, header, transfers[..k])[transfers[k].id := RowOf(header, transfers[k])]
    ensures transfers[k].id in stored && stored[transfers[k].id] != RowOf(header, transfers[k]) ==> !NoConflict(stored, EventsOf(contract, header, transfers))
    ensures !(transfers[k].id in stored && stored[transfers[k].id] != RowOf(header, transfers[k])) ==> NoConflict(stored, EventsOf(contract, header, transfers[..k + 1]))
  {
    assert transfers[k] in transfers && IndexProofs.Target(transfers[k], contract);
    IndexProofs.EventsOfExact(contract, header, transfers);
    hide EventsOf;
  }

  /** The calls of one pass: it ends at binding or claiming when that fails, and otherwise with its lease. */
  predicate Pass(calls: seq<ScanAction>, contract: string, duration: nat, processed: bool) {
    || (!processed && calls == [ScanBind(contract)])
    || (!processed && calls == [ScanBind(contract), ScanClaimCursor(duration)])
    || (|calls| > 2 && calls[..2] == [ScanBind(contract), ScanClaimCursor(duration)] && LeasedCalls(calls[2..], processed))
  }

  /** The calls under a lease: head, maybe a block, maybe a commit; without a commit that took, the release. */
  predicate LeasedCalls(calls: seq<ScanAction>, processed: bool) {
    && 2 <= |calls| <= 4 && calls[0].ScanReadHead?
    && (|calls| > 2 ==> calls[1].ScanReadBlock?)
    && (if processed then |calls| == 3 && calls[2] == ScanCommit
        else calls[|calls| - 1] == ScanRelease && (|calls| == 4 ==> calls[2] == ScanCommit))
  }

  /** The head, and the next block if the head has reached it. */
  predicate ReadCalls(calls: seq<ScanAction>) {
    1 <= |calls| <= 2 && calls[0].ScanReadHead? && (|calls| == 2 ==> calls[1].ScanReadBlock?)
  }

  /** At some state from the given one on, the cursor stood right below its position now. */
  ghost predicate Advanced(states: seq<State>, start: int, next: nat) {
    exists k :: start <= k && 0 <= k < |states| && states[k].db.cursor.next + 1 == next
  }

  lemma AdvancedEarlier(states: seq<State>, start: int, later: int, next: nat)
    requires start <= later && Advanced(states, later, next)
    ensures Advanced(states, start, next)
  {
  }

  class Scanner {
    const world: Workers.World
    const name: string
    const workerId: string
    const contract: string
    const leaseDuration: nat

    constructor (world: Workers.World, name: string, workerId: string, contract: string, leaseDuration: nat)
      requires contract != "" && leaseDuration > 0
      ensures this.world == world && this.name == name && this.workerId == workerId && this.contract == contract && this.leaseDuration == leaseDuration
    {
      this.world, this.name, this.workerId, this.contract, this.leaseDuration := world, name, workerId, contract, leaseDuration;
    }

    ghost predicate Ready()
      reads this, world, world.db, world.signer, world.node
    {
      world.Valid() && name in world.procs && world.procs[name].worker == workerId && contract != "" && leaseDuration > 0
      && world.node.network == world.cfg.network
    }

    ghost function Calls(): seq<ScanAction>
      reads this, world
    {
      Workers.Own(world.actions, name, Workers.ScanOf)
    }

    method Pause(ghost pc: Pc)
      requires Ready() && world.Stands(name, pc)
      modifies world.Objects()
      ensures Ready() && world.Stands(name, pc) && Calls() == old(Calls()) && old(world.states) <= world.states
    {
      ghost var before := world.actions;
      world.Others(name);
      Workers.OwnOthers(before, world.actions, name, Workers.ScanOf);
    }

    /** The scanner's own step, recorded. */
    ghost method Made(x: ScanAction, next: Pc)
      requires world.payouts.db == world.db && world.payouts.cfg == world.cfg && world.service.store == world.signer && world.service.cfg == world.cfg
      requires world.db.Valid() && world.node.Valid() && Run(world.cfg, world.states, world.actions) && name in world.procs
      requires
        var last := world.states[|world.actions|];
        && last == State(last.db, world.signer.records, world.node.View(), world.procs, world.log)
        && ScanNext(last.db, last.chain, world.procs[name], x, world.db.View(), next)
      modifies world`procs, world`states, world`actions
      ensures world.Valid() && world.Stands(name, next) && world.procs.Keys == old(world.procs.Keys)
      ensures world.procs[name].worker == old(world.procs)[name].worker
      ensures Calls() == old(Calls()) + [x] && old(world.states) <= world.states
    {
      Workers.OwnStep(world.actions, name, Workers.ScanOf, Scan(name, x));
      world.ScanStep(name, x, next);
    }

    /** BindContract, both statements. */
    method Bind() returns (bound: bool)
      requires Ready() && world.Stands(name, Idle)
      modifies world.Objects()
      ensures Ready() && world.Stands(name, if bound then ScanBound(contract) else Idle)
      ensures Calls() == old(Calls()) + [ScanBind(contract)]
      ensures old(world.states) <= world.states
    {
      hide Run, ValidChain, JournalsUnique;
      if world.db.cursor.tracked.None? && world.db.cursor.next == world.db.cursor.start {
        world.db.cursor := world.db.cursor.(tracked := Some(contract));
      }
      bound := world.db.cursor.tracked == Some(contract);
      Made(ScanBind(contract), if bound then ScanBound(contract) else Idle);
    }

    method Claim() returns (scan: Option<ScanClaim>)
      requires Ready() && world.Stands(name, ScanBound(contract))
      modifies world.Objects()
      ensures Ready() && world.Stands(name, if scan.Some? then ScanClaimed(scan.value, contract) else Idle)
      ensures Calls() == old(Calls()) + [ScanClaimCursor(leaseDuration)]
      ensures old(world.states) <= world.states
    {
      hide Run, ValidChain, JournalsUnique;
      var cursor := world.db.cursor;
      if !CursorFree(cursor, world.db.now) {
        Made(ScanClaimCursor(leaseDuration), Idle);
        return None;
      }
      world.db.cursor := cursor.(lease := Some(Holder(workerId, world.db.now + leaseDuration)), epoch := cursor.epoch + 1);
      scan := Some(ScanClaim(workerId, cursor.epoch + 1, cursor.next, cursor.previous));
      Made(ScanClaimCursor(leaseDuration), ScanClaimed(scan.value, contract));
    }

    method ReadHead(scan: ScanClaim) returns (head: Option<Header>)
      requires Ready() && world.Stands(name, ScanClaimed(scan, contract))
      modifies world.Objects()
      ensures Ready() && world.Stands(name, if head.Some? then ScanHeaded(scan, contract, head.value) else ScanReleasing(scan))
      ensures exists up :: Calls() == old(Calls()) + [ScanReadHead(up)]
      ensures old(world.states) <= world.states
    {
      hide Run, JournalsUnique;
      var reply := world.node.SolidifiedHead();
      head := if reply.Ok? && reply.value.height >= scan.next then Some(reply.value) else None;
      Made(ScanReadHead(reply.Ok?), if head.Some? then ScanHeaded(scan, contract, head.value) else ScanReleasing(scan));
    }

    /** Read the block, check that it continues the claim, and filter its transfers. */
    method ReadBlock(scan: ScanClaim, head: Header) returns (block: Option<Block>)
      requires Ready() && world.Stands(name, ScanHeaded(scan, contract, head))
      modifies world.Objects()
      ensures Ready() && world.Stands(name, if block.Some? then ScanFetched(scan, contract, block.value) else ScanReleasing(scan))
      ensures block.Some? ==> IndexProofs.TargetsDistinct(contract, block.value.transfers)
      ensures exists up :: Calls() == old(Calls()) + [ScanReadBlock(up)]
      ensures old(world.states) <= world.states
    {
      hide Run, JournalsUnique, EventsValid;
      var reply := world.node.SolidifiedBlockByHeight(scan.next);
      if reply.Err? || !BlockContinues(scan, head, reply.value) {
        block := None;
      } else {
        var transfers := ValidTransfers(world.cfg.network, contract, reply.value);
        block := if transfers.Some? then Some(reply.value) else None;
        if transfers.Some? {
          IndexProofs.ValidTargets(world.cfg.network, contract, reply.value);
        }
      }
      Made(ScanReadBlock(reply.Ok?), if block.Some? then ScanFetched(scan, contract, block.value) else ScanReleasing(scan));
    }

    /** Both reads; without a block the pass goes on to release its lease. */
    method Fetch(scan: ScanClaim) returns (block: Option<Block>)
      requires Ready() && world.Stands(name, ScanClaimed(scan, contract))
      modifies world.Objects()
      ensures Ready() && world.Stands(name, if block.Some? then ScanFetched(scan, contract, block.value) else ScanReleasing(scan))
      ensures block.Some? ==> IndexProofs.TargetsDistinct(contract, block.value.transfers)
      ensures exists calls :: ReadCalls(calls) && (block.Some? ==> |calls| == 2) && Calls() == old(Calls()) + calls
      ensures old(world.states) <= world.states
    {
      hide Ready, Calls, Workers.World.Stands;
      ghost var start := Calls();
      block := None;
      var head := ReadHead(scan);
      if head.Some? {
        Pause(ScanHeaded(scan, contract, head.value));
        block := ReadBlock(scan, head.value);
      }
      assert ReadCalls(Calls()[|start|..]) && Calls() == start + Calls()[|start|..];
    }

    method Commit(scan: ScanClaim, block: Block) returns (done: bool)
      requires Ready() && world.Stands(name, ScanFetched(scan, contract, block)) && IndexProofs.TargetsDistinct(contract, block.transfers)
      modifies world.Objects()
      ensures Ready() && world.Stands(name, if done then Idle else ScanReleasing(scan))
      ensures Calls() == old(Calls()) + [ScanCommit]
      ensures done ==> Advanced(world.states, |old(world.states)| - 1, world.db.cursor.next)
      ensures !done ==> world.db.View() == old(world.db.View())
    {
      hide Run, ValidChain, JournalsUnique, Indexer.Commit;
      world.Current();
      done := CommitBlock(world.db, scan, contract, block);
      Made(ScanCommit, if done then Idle else ScanReleasing(scan));
    }

    method Release(scan: ScanClaim)
      requires Ready() && world.Stands(name, ScanReleasing(scan))
      modifies world.Objects()
      ensures Ready() && world.Stands(name, Idle)
      ensures Calls() == old(Calls()) + [ScanRelease] && !CursorHeld(world.db.cursor, scan)
    {
      hide Run, ValidChain, JournalsUnique;
      if CursorHeld(world.db.cursor, scan) {
        world.db.cursor := world.db.cursor.(lease := None);
      }
      Made(ScanRelease, Idle);
    }

    /** The deferred release. */
    method GiveBack(scan: ScanClaim)
      requires Ready() && world.Stands(name, ScanReleasing(scan))
      modifies world.Objects()
      ensures Ready() && world.Stands(name, Idle)
      ensures Calls() == old(Calls()) + [ScanRelease] && !CursorHeld(world.db.cursor, scan)
    {
      hide Ready, Calls, Workers.World.Stands;
      Pause(ScanReleasing(scan));
      Release(scan);
    }

    /** Under a lease: read the head, then the next block, then commit it; or release the lease. */
    method ScanNextBlock(scan: ScanClaim) returns (processed: bool)
      requires Ready() && world.Stands(name, ScanClaimed(scan, contract))
      modifies world.Objects()
      ensures Ready() && world.Stands(name, Idle)
      ensures exists calls :: LeasedCalls(calls, processed) && Calls() == old(Calls()) + calls
      ensures processed ==> Advanced(world.states, |old(world.states)| - 1, world.db.cursor.next)
    {
      hide Ready, Calls, Workers.World.Stands, Advanced;
      ghost var start, begun := Calls(), |world.states| - 1;
      processed := false;
      var block := Fetch(scan);
      if block.Some? {
        Pause(ScanFetched(scan, contract, block.value));
        ghost var later := |world.states| - 1;
        processed := Commit(scan, block.value);
        if processed {
          AdvancedEarlier(world.states, begun, later, world.db.cursor.next);
        }
      }
      if !processed {
        GiveBack(scan);
      }
      assert LeasedCalls(Calls()[|start|..], processed) && Calls() == start + Calls()[|start|..];
    }

    /** Step: one block at most; whatever goes wrong after the claim, the lease is released. */
    method Step() returns (processed: bool)
      requires Ready() && world.Stands(name, Idle)
      modifies world.Objects()
      ensures Ready() && world.Stands(name, Idle)
      ensures exists calls :: Pass(calls, contract, leaseDuration, processed) && Calls() == old(Calls()) + calls
      ensures processed ==> Advanced(world.states, |old(world.states)| - 1, world.db.cursor.next)
    {
      hide Ready, Calls, Workers.World.Stands;
      ghost var start := Calls();
      var bound := Bind();
      if !bound {
        assert Pass([ScanBind(contract)], contract, leaseDuration, false);
        return false;
      }
      Pause(ScanBound(contract));
      var scan := Claim();
      ghost var taken := [ScanBind(contract), ScanClaimCursor(leaseDuration)];
      assert Calls() == start + taken;
      if scan.None? {
        assert Pass(taken, contract, leaseDuration, false);
        return false;
      }
      Pause(ScanClaimed(scan.value, contract));
      processed := ScanNextBlock(scan.value);
      ghost var calls :| LeasedCalls(calls, processed) && Calls() == start + taken + calls;
      assert (taken + calls)[..2] == taken && (taken + calls)[2..] == calls;
      assert Pass(taken + calls, contract, leaseDuration, processed) && Calls() == start + (taken + calls);
    }
  }
}
