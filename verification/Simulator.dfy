// The deterministic chain simulator: a canonical chain whose unfinalized suffix may be replaced, a
// solidified height that only advances, accepted broadcasts, and queues of injected failures.
module Simulator {
  import opened Prelude
  import opened Chain
  import opened Gateway
  import opened Protocol

  datatype FailurePoint =
    | FailHead | FailSolidifiedHead | FailBlockByHeight | FailTransaction
    | FailBroadcastBeforeAccept | FailBroadcastAfterAccept | FailSolidifiedBlockByHeight

  datatype ChainError = InvalidBlock | FinalizedBlock | InvalidFinality | InvalidTransaction | TransactionConflict | BlockNotFound | Injected(failure: string)

  /** The state of a transaction, with the block it executed in. */
  datatype Answer = Answer(state: TransactionState, block: Option<Header>)

  // ---------- what a query answers ----------

  function OutcomeIn(receipts: seq<Receipt>, id: string): Option<Outcome> {
    if receipts == [] then None
    else if receipts[0].transactionId == id then Some(receipts[0].outcome)
    else OutcomeIn(receipts[1..], id)
  }

  /** The latest block with a receipt of the transaction decides. */
  function Located(blocks: seq<Block>, id: string): Option<(nat, Outcome)> {
    if blocks == [] then None
    else
      var last := |blocks| - 1;
      var outcome := OutcomeIn(blocks[last].receipts, id);
      if outcome.Some? then Some((last, outcome.value)) else Located(blocks[..last], id)
  }

  function StatusOf(outcome: Outcome): TransactionStatus {
    if outcome == ExecutionSucceeded then TransactionSucceeded else TransactionFailed
  }

  function AnswerOf(chain: Chain, id: string): Answer {
    var found := Located(chain.blocks, id);
    if found.Some? && found.value.0 < |chain.blocks| then
      var header := chain.blocks[found.value.0].header;
      Answer(TransactionState(StatusOf(found.value.1), header.height <= chain.solidified), Some(header))
    else if id in chain.broadcasted then Answer(TransactionState(Pending, false), None)
    else Answer(TransactionState(NotFound, false), None)
  }

  lemma {:induction false} OutcomeInSpec(receipts: seq<Receipt>, id: string)
    ensures OutcomeIn(receipts, id).Some? ==> Receipt(id, OutcomeIn(receipts, id).value) in receipts
    ensures OutcomeIn(receipts, id).None? ==> forall j :: 0 <= j < |receipts| ==> receipts[j].transactionId != id
  {
    if receipts != [] && receipts[0].transactionId != id {
      OutcomeInSpec(receipts[1..], id);
      if OutcomeIn(receipts, id).None? {
        forall j | 0 <= j < |receipts| ensures receipts[j].transactionId != id {
          if j > 0 {
            assert receipts[1..][j - 1] == receipts[j];
          }
        }
      }
    }
  }

  lemma {:induction false} LocatedSpec(blocks: seq<Block>, id: string)
    ensures Located(blocks, id).Some? ==>
              Located(blocks, id).value.0 < |blocks| && Receipt(id, Located(blocks, id).value.1) in blocks[Located(blocks, id).value.0].receipts
    ensures Located(blocks, id).None? ==> Absent(blocks, id)
  {
    if blocks != [] {
      var last := |blocks| - 1;
      OutcomeInSpec(blocks[last].receipts, id);
      LocatedSpec(blocks[..last], id);
      if Located(blocks, id).None? {
        forall i | 0 <= i < |blocks| ensures NoReceipt(blocks[i], id) {
          if i < last {
            assert blocks[..last][i] == blocks[i];
          }
        }
      }
    }
  }

  /** On a valid chain any receipt of the transaction is the one located. */
  lemma LocatedUnique(network: string, blocks: seq<Block>, id: string, i: nat, outcome: Outcome)
    requires ValidBlocks(network, blocks) && i < |blocks| && Receipt(id, outcome) in blocks[i].receipts
    ensures Located(blocks, id) == Some((i, outcome))
  {
    LocatedSpec(blocks, id);
    var j :| 0 <= j < |blocks[i].receipts| && blocks[i].receipts[j] == Receipt(id, outcome);
    assert !NoReceipt(blocks[i], id);
    var found := Located(blocks, id).value;
    ReceiptUnique(network, blocks, i, found.0, Receipt(id, outcome), Receipt(id, found.1));
  }

  /** A transaction with a receipt is answered by it, solidified exactly from its block's solidification on. */
  lemma AnswerExact(chain: Chain, id: string, i: nat, outcome: Outcome)
    requires ValidChain(chain) && i < |chain.blocks| && Receipt(id, outcome) in chain.blocks[i].receipts
    ensures AnswerOf(chain, id) == Answer(
              TransactionState(if outcome == ExecutionSucceeded then TransactionSucceeded else TransactionFailed, i <= chain.solidified),
              Some(chain.blocks[i].header))
  {
    hide ValidBlocks;
    LocatedUnique(chain.network, chain.blocks, id, i, outcome);
    HeightIsIndex(chain.network, chain.blocks, i);
  }

  /** One without a receipt is pending once a node has accepted it, and missing before. */
  lemma AnswerAbsent(chain: Chain, id: string)
    requires Absent(chain.blocks, id)
    ensures AnswerOf(chain, id) == Answer(TransactionState(if id in chain.broadcasted then Pending else NotFound, false), None)
  {
    LocatedSpec(chain.blocks, id);
    assert forall i :: 0 <= i < |chain.blocks| ==> NoReceipt(chain.blocks[i], id);
  }

  /** Every answer of the simulator is one an honest node may give. */
  lemma AnswersHonestly(chain: Chain, id: string)
    requires ValidChain(chain)
    ensures HonestRead(chain, id, AnswerOf(chain, id).state)
  {
    LocatedSpec(chain.blocks, id);
    var found := Located(chain.blocks, id);
    if found.Some? {
      HeightIsIndex(chain.network, chain.blocks, found.value.0);
      var r := Receipt(id, found.value.1);
      if found.value.0 > 0 {
        assert BlockFits(chain.network, chain.blocks[..found.value.0], chain.blocks[found.value.0]);
      }
    } else {
      assert forall i :: 0 <= i <= chain.solidified ==> chain.blocks[..chain.solidified + 1][i] == chain.blocks[i];
    }
  }

  /** Simulated finality: a solidified answer never changes, whatever happens to the chain afterwards. */
  lemma SolidifiedAnswerIsFinal(was: Chain, chain: Chain, id: string)
    requires ValidChain(was) && ValidChain(chain) && ChainGrows(was, chain) && AnswerOf(was, id).state.solidified
    ensures AnswerOf(chain, id) == AnswerOf(was, id)
  {
    hide ValidBlocks;
    LocatedSpec(was.blocks, id);
    var i, outcome := Located(was.blocks, id).value.0, Located(was.blocks, id).value.1;
    HeightIsIndex(was.network, was.blocks, i);
    PrefixStays(was, chain, i + 1);
    assert chain.blocks[..i + 1][i] == was.blocks[..i + 1][i];
    LocatedUnique(chain.network, chain.blocks, id, i, outcome);
  }

  // ---------- block validation ----------

  /** The block's receipts so far, as the map the source builds. */
  ghost predicate ReceiptMap(known: map<string, Outcome>, receipts: seq<Receipt>) {
    && (forall j :: 0 <= j < |receipts| ==> receipts[j].transactionId in known && known[receipts[j].transactionId] == receipts[j].outcome)
    && (forall id :: id in known ==> Receipt(id, known[id]) in receipts)
  }

  lemma ReceiptMapStep(known: map<string, Outcome>, receipts: seq<Receipt>, k: nat)
    requires k < |receipts| && ReceiptMap(known, receipts[..k]) && receipts[k].transactionId !in known
    ensures ReceiptMap(known[receipts[k].transactionId := receipts[k].outcome], receipts[..k + 1])
  {
    var more := receipts[..k + 1];
    assert more == receipts[..k] + [receipts[k]];
  }

  method OnChain(chain: seq<Block>, id: string) returns (found: bool)
    ensures found <==> !Absent(chain, id)
  {
    for i := 0 to |chain|
      invariant Absent(chain[..i], id)
    {
      for j := 0 to |chain[i].receipts|
        invariant forall l :: 0 <= l < j ==> chain[i].receipts[l].transactionId != id
      {
        if chain[i].receipts[j].transactionId == id {
          assert !NoReceipt(chain[i], id);
          return true;
        }
      }
      assert chain[..i + 1] == chain[..i] + [chain[i]];
    }
    assert chain[..|chain|] == chain;
    return false;
  }

  /** One more receipt fits when it is well formed, new to the block and new to the chain. */
  predicate ReceiptFits(chain: seq<Block>, earlier: seq<Receipt>, r: Receipt) {
    && r.transactionId != "" && r.outcome != NoOutcome && Absent(chain, r.transactionId)
    && forall j :: 0 <= j < |earlier| ==> earlier[j].transactionId != r.transactionId
  }

  lemma ReceiptsFitStep(chain: seq<Block>, receipts: seq<Receipt>, k: nat)
    requires k < |receipts| && ReceiptsFit(chain, receipts[..k])
    ensures ReceiptFits(chain, receipts[..k], receipts[k]) ==> ReceiptsFit(chain, receipts[..k + 1])
    ensures !ReceiptFits(chain, receipts[..k], receipts[k]) ==> !ReceiptsFit(chain, receipts)
  {
    hide Absent;
    assert forall j :: 0 <= j < k ==> receipts[..k][j] == receipts[j];
  }

  method ValidateReceipts(chain: seq<Block>, receipts: seq<Receipt>) returns (valid: bool, known: map<string, Outcome>)
    ensures valid <==> ReceiptsFit(chain, receipts)
    ensures valid ==> ReceiptMap(known, receipts)
  {
    hide ReceiptsFit, Absent;
    known := map[];
    NoReceipts(chain, receipts);
    for k := 0 to |receipts|
      invariant ReceiptsFit(chain, receipts[..k])
      invariant ReceiptMap(known, receipts[..k])
    {
      var receipt := receipts[k];
      ReceiptsFitStep(chain, receipts, k);
      if receipt.transactionId == "" || (receipt.outcome != ExecutionSucceeded && receipt.outcome != ExecutionFailed) {
        return false, known;
      }
      if receipt.transactionId in known {
        assert Receipt(receipt.transactionId, known[receipt.transactionId]) in receipts[..k];
        return false, known;
      }
      var found := OnChain(chain, receipt.transactionId);
      if found {
        return false, known;
      }
      ReceiptMapStep(known, receipts, k);
      known := known[receipt.transactionId := receipt.outcome];
    }
    assert receipts[..|receipts|] == receipts;
    valid := true;
  }

  lemma NoReceipts(chain: seq<Block>, receipts: seq<Receipt>)
    ensures ReceiptsFit(chain, receipts[..0])
  {
  }

  method ValidateTransfers(network: string, block: Block, known: map<string, Outcome>) returns (valid: bool)
    requires ReceiptMap(known, block.receipts)
    ensures valid <==> TransfersFit(network, block)
  {
    var positions: set<(string, nat)> := {};
    for k := 0 to |block.transfers|
      invariant forall j :: 0 <= j < k ==> TransferFits(network, block.receipts, block.transfers[j]) && Position(block.transfers[j]) in positions
      invariant forall p :: p in positions ==> exists j :: 0 <= j < k && Position(block.transfers[j]) == p
      invariant forall i, j :: 0 <= i < j < k ==> Position(block.transfers[i]) != Position(block.transfers[j])
    {
      var t := block.transfers[k];
      if t.id.network != network || t.id.contract == "" || t.id.transactionId == "" || t.sender == "" || t.recipient == ""
         || t.id.transactionId !in known || known[t.id.transactionId] != ExecutionSucceeded || !ValidAmount(t.amount)
      {
        assert !TransferFits(network, block.receipts, block.transfers[k]);
        return false;
      }
      if Position(t) in positions {
        var j :| 0 <= j < k && Position(block.transfers[j]) == Position(t);
        return false;
      }
      positions := positions + {Position(t)};
    }
    valid := true;
  }

  /** validateBlock: accepts exactly the blocks that continue the chain. */
  method ValidateBlock(network: string, chain: seq<Block>, block: Block) returns (valid: bool)
    requires chain != []
    ensures valid <==> BlockFits(network, chain, block)
  {
    var previous := chain[|chain| - 1].header;
    if block.header.height != previous.height + 1 || block.header.hash == "" || block.header.timestamp == 0 || block.header.parentHash != previous.hash {
      return false;
    }
    for i := 0 to |chain|
      invariant forall j :: 0 <= j < i ==> chain[j].header.hash != block.header.hash
    {
      if chain[i].header.hash == block.header.hash {
        return false;
      }
    }
    var known: map<string, Outcome>;
    valid, known := ValidateReceipts(chain, block.receipts);
    if valid {
      valid := ValidateTransfers(network, block, known);
    }
  }

  /** The replacement continues the kept prefix block by block. */
  ghost predicate Continues(network: string, kept: seq<Block>, replacement: seq<Block>)
    requires kept != []
  {
    forall k :: 0 <= k < |replacement| ==> BlockFits(network, kept + replacement[..k], replacement[k])
  }

  /** From the latest block down, the first receipt of the transaction. */
  method Search(chain: seq<Block>, id: string) returns (found: Option<(nat, Outcome)>)
    ensures found == Located(chain, id)
    ensures found.Some? ==> found.value.0 < |chain|
  {
    var index := |chain|;
    assert chain[..index] == chain;
    while index > 0
      invariant index <= |chain|
      invariant Located(chain, id) == Located(chain[..index], id)
    {
      index := index - 1;
      var receipts := chain[index].receipts;
      assert chain[..index + 1][..index] == chain[..index];
      for j := 0 to |receipts|
        invariant OutcomeIn(receipts, id) == OutcomeIn(receipts[j..], id)
      {
        assert receipts[j..][1..] == receipts[j + 1..];
        if receipts[j].transactionId == id {
          return Some((index, receipts[j].outcome));
        }
      }
    }
    return None;
  }

  /** Checks the replacement block by block against the growing candidate. */
  method Extend(network: string, kept: seq<Block>, replacement: seq<Block>) returns (candidate: Option<seq<Block>>)
    requires ValidBlocks(network, kept)
    ensures candidate.Some? <==> Continues(network, kept, replacement)
    ensures candidate.Some? ==> candidate.value == kept + replacement && ValidBlocks(network, candidate.value)
  {
    hide BlockFits;
    var blocks := kept;
    for k := 0 to |replacement|
      invariant blocks == kept + replacement[..k] && ValidBlocks(network, blocks)
      invariant forall j :: 0 <= j < k ==> BlockFits(network, kept + replacement[..j], replacement[j])
    {
      var valid := ValidateBlock(network, blocks, replacement[k]);
      if !valid {
        return None;
      }
      ValidAppend(network, blocks, replacement[k]);
      assert replacement[..k + 1] == replacement[..k] + [replacement[k]];
      blocks := blocks + [replacement[k]];
    }
    assert replacement[..|replacement|] == replacement;
    candidate := Some(blocks);
  }

  class Simulator {
    const network: string
    var blocks: seq<Block>
    var solidified: nat
    var broadcasted: map<string, Payload>
    var failures: map<FailurePoint, seq<string>>

    function View(): Chain
      reads this
    {
      Chain(network, blocks, solidified, broadcasted)
    }

    ghost predicate Valid()
      reads this
    {
      ValidChain(View())
    }

    constructor (network: string, genesisHash: string)
      requires network != "" && genesisHash != ""
      ensures Valid() && this.network == network && blocks == [Block(Header(0, genesisHash, "", 0), [], [])] && solidified == 0
      ensures broadcasted == map[] && failures == map[]
    {
      this.network := network;
      blocks, solidified, broadcasted, failures := [Block(Header(0, genesisHash, "", 0), [], [])], 0, map[], map[];
    }

    method AppendBlock(block: Block) returns (error: Option<ChainError>)
      requires Valid()
      modifies this`blocks
      ensures Valid() && ChainGrows(old(View()), View())
      ensures error == if BlockFits(network, old(blocks), block) then None else Some(InvalidBlock)
      ensures blocks == if error.None? then old(blocks) + [block] else old(blocks)
    {
      var valid := ValidateBlock(network, blocks, block);
      if !valid {
        return Some(InvalidBlock);
      }
      ValidAppend(network, blocks, block);
      ghost var was := View();
      blocks := blocks + [block];
      assert blocks[..solidified + 1] == was.blocks[..solidified + 1];
      error := None;
    }

    /** Replaces the whole suffix or nothing; the solidified prefix is out of reach. */
    method ReplaceUnfinalized(fromHeight: nat, replacement: seq<Block>) returns (error: Option<ChainError>)
      requires Valid()
      modifies this`blocks
      ensures Valid() && ChainGrows(old(View()), View())
      ensures error == if fromHeight <= solidified then Some(FinalizedBlock)
                       else if fromHeight > |old(blocks)| || !Continues(network, old(blocks)[..fromHeight], replacement) then Some(InvalidBlock)
                       else None
      ensures blocks == if error.None? then old(blocks)[..fromHeight] + replacement else old(blocks)
    {
      if fromHeight <= solidified {
        return Some(FinalizedBlock);
      }
      if fromHeight == 0 || fromHeight > |blocks| {
        return Some(InvalidBlock);
      }
      ValidPrefix(network, blocks, fromHeight);
      var candidate := Extend(network, blocks[..fromHeight], replacement);
      if candidate.None? {
        return Some(InvalidBlock);
      }
      ghost var was := View();
      blocks := candidate.value;
      assert blocks[..solidified + 1] == was.blocks[..solidified + 1];
      error := None;
    }

    method Solidify(height: nat) returns (error: Option<ChainError>)
      requires Valid()
      modifies this`solidified
      ensures Valid() && ChainGrows(old(View()), View())
      ensures error == if old(solidified) <= height < |blocks| then None else Some(InvalidFinality)
      ensures solidified == if error.None? then height else old(solidified)
    {
      if height < solidified || height >= |blocks| {
        return Some(InvalidFinality);
      }
      solidified := height;
      error := None;
    }

    // ---------- failures ----------

    function Queue(point: FailurePoint): seq<string>
      reads this
    {
      if point in failures then failures[point] else []
    }

    method FailNext(point: FailurePoint, failure: string)
      modifies this`failures
      ensures Queue(point) == old(Queue(point)) + [failure]
      ensures forall other :: other != point ==> Queue(other) == old(Queue(other))
    {
      failures := failures[point := Queue(point) + [failure]];
    }

    /** readError: the next queued failure of the point is consumed, in the order added. */
    method ReadError(point: FailurePoint) returns (failure: Option<string>)
      modifies this`failures
      ensures failure == if old(Queue(point)) == [] then None else Some(old(Queue(point))[0])
      ensures Queue(point) == if failure.None? then [] else old(Queue(point))[1..]
      ensures forall other :: other != point ==> Queue(other) == old(Queue(other))
    {
      var queue := Queue(point);
      if queue == [] {
        return None;
      }
      failures := failures[point := queue[1..]];
      failure := Some(queue[0]);
    }

    // ---------- reads ----------

    method SolidifiedHead() returns (head: Result<Header, ChainError>)
      requires Valid()
      modifies this`failures
      ensures head == if old(Queue(FailSolidifiedHead)) != [] then Err(Injected(old(Queue(FailSolidifiedHead))[0])) else Ok(Gateway.SolidifiedHead(View()))
    {
      var failure := ReadError(FailSolidifiedHead);
      if failure.Some? {
        return Err(Injected(failure.value));
      }
      head := Ok(blocks[solidified].header);
    }

    method SolidifiedBlockByHeight(height: nat) returns (block: Result<Block, ChainError>)
      requires Valid()
      modifies this`failures
      ensures block == if old(Queue(FailSolidifiedBlockByHeight)) != [] then Err(Injected(old(Queue(FailSolidifiedBlockByHeight))[0]))
                       else if height > solidified then Err(BlockNotFound) else Ok(blocks[height])
    {
      var failure := ReadError(FailSolidifiedBlockByHeight);
      if failure.Some? {
        return Err(Injected(failure.value));
      }
      if height > solidified {
        return Err(BlockNotFound);
      }
      block := Ok(blocks[height]);
    }

    /** Scans from the latest block down; a missing transaction is pending when a node accepted it. */
    method Transaction(id: string) returns (answer: Result<Answer, ChainError>)
      requires Valid()
      modifies this`failures
      ensures answer == if old(Queue(FailTransaction)) != [] then Err(Injected(old(Queue(FailTransaction))[0]))
                        else if id == "" then Err(InvalidTransaction) else Ok(AnswerOf(View(), id))
      ensures answer.Ok? ==> HonestRead(View(), id, answer.value.state)
    {
      var failure := ReadError(FailTransaction);
      if failure.Some? {
        return Err(Injected(failure.value));
      }
      if id == "" {
        return Err(InvalidTransaction);
      }
      AnswersHonestly(View(), id);
      var found := Search(blocks, id);
      if found.Some? {
        var block := blocks[found.value.0];
        var status := TransactionFailed;
        if found.value.1 == ExecutionSucceeded {
          status := TransactionSucceeded;
        }
        return Ok(Answer(TransactionState(status, block.header.height <= solidified), Some(block.header)));
      }
      if id in broadcasted {
        return Ok(Answer(TransactionState(Pending, false), None));
      }
      answer := Ok(Answer(TransactionState(NotFound, false), None));
    }

    /** How the injected failures make this submission come out. */
    function NextDelivery(): Delivery
      reads this
    {
      if Queue(FailBroadcastBeforeAccept) != [] then RejectedByNode
      else if Queue(FailBroadcastAfterAccept) != [] then Lost
      else Delivered
    }

    /** A failure after acceptance leaves the transaction recorded and the caller without an answer. */
    method Broadcast(tx: SignedTransaction) returns (error: Option<ChainError>)
      requires Valid()
      modifies this`broadcasted, this`failures
      ensures Valid() && (View(), error.None?) == Submit(old(View()), tx, old(NextDelivery()))
      ensures error == Some(TransactionConflict) <==>
                old(NextDelivery()) != RejectedByNode && tx.id != "" && tx.payload.bytes != ""
                && tx.id in old(broadcasted) && old(broadcasted)[tx.id] != tx.payload
    {
      var failure := ReadError(FailBroadcastBeforeAccept);
      if failure.Some? {
        return Some(Injected(failure.value));
      }
      if tx.id == "" || tx.payload.bytes == "" {
        return Some(InvalidTransaction);
      }
      if tx.id in broadcasted {
        if broadcasted[tx.id] != tx.payload {
          return Some(TransactionConflict);
        }
      } else {
        broadcasted := broadcasted[tx.id := tx.payload];
      }
      assert broadcasted == old(broadcasted)[tx.id := tx.payload];
      failure := ReadError(FailBroadcastAfterAccept);
      if failure.Some? {
        return Some(Injected(failure.value));
      }
      error := None;
    }
  }
}
