// The TRON chain as the gateway sees it: blocks with receipts and TRC20 logs, a solidified
// prefix, and the set of transactions some node has accepted.
module Chain {
  import opened Prelude
  import opened Sums

  datatype Header = Header(height: nat, hash: string, parentHash: string, timestamp: nat)

  // The zero value of the source's outcome type stays representable, because blocks are checked for it.
  datatype Outcome = NoOutcome | ExecutionSucceeded | ExecutionFailed

  datatype Receipt = Receipt(transactionId: string, outcome: Outcome)

  datatype EventId = EventId(network: string, contract: string, transactionId: string, logIndex: nat)

  datatype Transfer = Transfer(id: EventId, sender: string, recipient: string, amount: int)

  datatype Block = Block(header: Header, receipts: seq<Receipt>, transfers: seq<Transfer>)

  /** What a caller asks the signer to pay; id is the global idempotency key. */
  datatype TransferRequest = TransferRequest(id: string, contract: string, owner: string, destination: string, amount: int)

  /** The signed content: the request it executes, its expiration, and the remaining bytes. */
  datatype Payload = Payload(request: TransferRequest, expiresAt: nat, bytes: string)

  datatype SignedTransaction = SignedTransaction(id: string, payload: Payload)

  datatype TransactionStatus = NotFound | Pending | TransactionSucceeded | TransactionFailed

  datatype TransactionState = TransactionState(status: TransactionStatus, solidified: bool)

  datatype Chain = Chain(network: string, blocks: seq<Block>, solidified: nat, broadcasted: map<string, Payload>)

  // ---------- which blocks continue a chain ----------

  predicate HashFresh(blocks: seq<Block>, hash: string) {
    forall i :: 0 <= i < |blocks| ==> blocks[i].header.hash != hash
  }

  predicate NoReceipt(block: Block, id: string) {
    forall j :: 0 <= j < |block.receipts| ==> block.receipts[j].transactionId != id
  }

  /** No block holds a receipt of the transaction. */
  predicate Absent(blocks: seq<Block>, id: string) {
    forall i :: 0 <= i < |blocks| ==> NoReceipt(blocks[i], id)
  }

  predicate ReceiptsFit(blocks: seq<Block>, receipts: seq<Receipt>) {
    && (forall j :: 0 <= j < |receipts| ==>
          receipts[j].transactionId != "" && receipts[j].outcome != NoOutcome && Absent(blocks, receipts[j].transactionId))
    && (forall i, j :: 0 <= i < j < |receipts| ==> receipts[i].transactionId != receipts[j].transactionId)
  }

  predicate ValidAmount(amount: int) {
    0 < amount < TWO_256
  }

  predicate TransferFits(network: string, receipts: seq<Receipt>, t: Transfer) {
    && t.id.network == network && t.id.contract != "" && t.id.transactionId != ""
    && t.sender != "" && t.recipient != "" && ValidAmount(t.amount)
    && Receipt(t.id.transactionId, ExecutionSucceeded) in receipts
  }

  function Position(t: Transfer): (string, nat) {
    (t.id.transactionId, t.id.logIndex)
  }

  predicate TransfersFit(network: string, block: Block) {
    && (forall j :: 0 <= j < |block.transfers| ==> TransferFits(network, block.receipts, block.transfers[j]))
    && (forall i, j :: 0 <= i < j < |block.transfers| ==> Position(block.transfers[i]) != Position(block.transfers[j]))
  }

  predicate HeaderFits(previous: Header, header: Header) {
    && header.height == previous.height + 1
    && header.hash != "" && header.timestamp != 0
    && header.parentHash == previous.hash
  }

  predicate BlockFits(network: string, blocks: seq<Block>, block: Block)
    requires blocks != []
  {
    && HeaderFits(blocks[|blocks| - 1].header, block.header)
    && HashFresh(blocks, block.header.hash)
    && ReceiptsFit(blocks, block.receipts)
    && TransfersFit(network, block)
  }

  predicate IsGenesis(block: Block) {
    block.header.height == 0 && block.header.hash != "" && block.receipts == [] && block.transfers == []
  }

  ghost predicate ValidBlocks(network: string, blocks: seq<Block>) {
    && blocks != [] && IsGenesis(blocks[0])
    && (forall i :: 1 <= i < |blocks| ==> BlockFits(network, blocks[..i], blocks[i]))
  }

  ghost predicate ValidChain(c: Chain) {
    ValidBlocks(c.network, c.blocks) && c.solidified < |c.blocks|
  }

  lemma ValidAppend(network: string, blocks: seq<Block>, block: Block)
    requires ValidBlocks(network, blocks) && BlockFits(network, blocks, block)
    ensures ValidBlocks(network, blocks + [block])
  {
    var next := blocks + [block];
    forall i | 1 <= i < |next| ensures BlockFits(network, next[..i], next[i]) {
      if i < |blocks| {
        assert next[..i] == blocks[..i];
      } else {
        assert next[..i] == blocks;
      }
    }
  }

  lemma ValidPrefix(network: string, blocks: seq<Block>, n: nat)
    requires ValidBlocks(network, blocks) && 0 < n <= |blocks|
    ensures ValidBlocks(network, blocks[..n])
  {
    forall i | 1 <= i < n ensures BlockFits(network, blocks[..n][..i], blocks[..n][i]) {
      assert blocks[..n][..i] == blocks[..i];
    }
  }

  lemma {:induction false} HeightIsIndex(network: string, blocks: seq<Block>, i: nat)
    requires ValidBlocks(network, blocks) && i < |blocks|
    ensures blocks[i].header.height == i
  {
    if i > 0 {
      HeightIsIndex(network, blocks, i - 1);
      assert BlockFits(network, blocks[..i], blocks[i]);
    }
  }

  lemma LinkedToParent(network: string, blocks: seq<Block>, i: nat)
    requires ValidBlocks(network, blocks) && 1 <= i < |blocks|
    ensures blocks[i].header.parentHash == blocks[i - 1].header.hash
    ensures blocks[i].header.hash != blocks[i].header.parentHash && blocks[i].header.hash != ""
    ensures blocks[i].header.timestamp != 0
  {
    assert BlockFits(network, blocks[..i], blocks[i]);
    assert blocks[..i][i - 1] == blocks[i - 1];
  }

  lemma EarlierHashDiffers(network: string, blocks: seq<Block>, i: nat, j: nat)
    requires ValidBlocks(network, blocks) && i < j < |blocks|
    ensures blocks[i].header.hash != blocks[j].header.hash
  {
    assert BlockFits(network, blocks[..j], blocks[j]);
    assert blocks[..j][i] == blocks[i];
  }

  lemma HashesUnique(network: string, blocks: seq<Block>, i: nat, j: nat)
    requires ValidBlocks(network, blocks) && i < |blocks| && j < |blocks|
    ensures blocks[i].header.hash == blocks[j].header.hash <==> i == j
  {
    if i < j {
      EarlierHashDiffers(network, blocks, i, j);
    } else if j < i {
      EarlierHashDiffers(network, blocks, j, i);
    }
  }

  lemma EarlierLacksReceipt(network: string, blocks: seq<Block>, i: nat, j: nat, r: Receipt)
    requires ValidBlocks(network, blocks) && i < j < |blocks| && r in blocks[j].receipts
    ensures NoReceipt(blocks[i], r.transactionId)
  {
    assert BlockFits(network, blocks[..j], blocks[j]);
    assert blocks[..j][i] == blocks[i];
    assert NoReceipt(blocks[..j][i], r.transactionId);
  }

  lemma SameBlockReceipt(network: string, blocks: seq<Block>, i: nat, a: Receipt, b: Receipt)
    requires ValidBlocks(network, blocks) && i < |blocks|
    requires a in blocks[i].receipts && b in blocks[i].receipts && a.transactionId == b.transactionId
    ensures a == b
  {
    if i > 0 {
      assert BlockFits(network, blocks[..i], blocks[i]);
    }
  }

  /** A transaction id executes at most once on a canonical chain. */
  lemma ReceiptUnique(network: string, blocks: seq<Block>, i: nat, j: nat, a: Receipt, b: Receipt)
    requires ValidBlocks(network, blocks) && i < |blocks| && j < |blocks|
    requires a in blocks[i].receipts && b in blocks[j].receipts
    ensures a.transactionId == b.transactionId ==> i == j && a == b
  {
    if i < j {
      EarlierLacksReceipt(network, blocks, i, j, b);
    } else if j < i {
      EarlierLacksReceipt(network, blocks, j, i, a);
    } else if a.transactionId == b.transactionId {
      SameBlockReceipt(network, blocks, i, a, b);
    }
  }

  lemma TransferHasReceipt(network: string, blocks: seq<Block>, i: nat, t: Transfer)
    requires ValidBlocks(network, blocks) && i < |blocks| && t in blocks[i].transfers
    ensures TransferFits(network, blocks[i].receipts, t)
  {
    var j :| 0 <= j < |blocks[i].transfers| && blocks[i].transfers[j] == t;
    assert i > 0;
    assert BlockFits(network, blocks[..i], blocks[i]);
  }

  /** Receipts name a result, and transfers are complete, positive and of a transaction that succeeded in their block. */
  lemma ContentSound(network: string, blocks: seq<Block>, i: nat)
    requires ValidBlocks(network, blocks) && i < |blocks|
    ensures forall r :: r in blocks[i].receipts ==> r.transactionId != "" && r.outcome in {ExecutionSucceeded, ExecutionFailed}
    ensures forall t :: t in blocks[i].transfers ==>
              && t.id.network == network && t.id.contract != "" && t.id.transactionId != "" && t.sender != "" && t.recipient != ""
              && 0 < t.amount < TWO_256 && Receipt(t.id.transactionId, ExecutionSucceeded) in blocks[i].receipts
  {
    if i > 0 {
      assert BlockFits(network, blocks[..i], blocks[i]);
    }
  }

  /** Of two transfers anywhere on the chain, the log positions within their transactions differ. */
  lemma EventIdsUnique(network: string, blocks: seq<Block>, i: nat, p: nat, j: nat, q: nat)
    requires ValidBlocks(network, blocks) && i < |blocks| && j < |blocks|
    requires p < |blocks[i].transfers| && q < |blocks[j].transfers|
    requires blocks[i].transfers[p].id.transactionId == blocks[j].transfers[q].id.transactionId
    requires blocks[i].transfers[p].id.logIndex == blocks[j].transfers[q].id.logIndex
    ensures i == j && p == q
  {
    var t, u := blocks[i].transfers[p], blocks[j].transfers[q];
    TransferHasReceipt(network, blocks, i, t);
    TransferHasReceipt(network, blocks, j, u);
    ReceiptUnique(network, blocks, i, j, Receipt(t.id.transactionId, ExecutionSucceeded),
                  Receipt(u.id.transactionId, ExecutionSucceeded));
    assert BlockFits(network, blocks[..i], blocks[i]);
    assert Position(t) == Position(u);
  }

  // ---------- reads ----------

  /** The solidified prefix holds this execution result. */
  ghost predicate Executed(c: Chain, id: string, outcome: Outcome) {
    exists i :: 0 <= i <= c.solidified && i < |c.blocks| && Receipt(id, outcome) in c.blocks[i].receipts
  }

  /**
   * Any answer a node may give to a transaction query. A solidified result is true of the
   * solidified prefix, and a transaction executed there is never reported missing.
   */
  ghost predicate HonestRead(c: Chain, id: string, state: TransactionState) {
    && (state.solidified && state.status == TransactionSucceeded ==> Executed(c, id, ExecutionSucceeded))
    && (state.solidified && state.status == TransactionFailed ==> Executed(c, id, ExecutionFailed))
    && (state.status == NotFound ==> c.solidified < |c.blocks| && Absent(c.blocks[..c.solidified + 1], id))
  }

  /** The transaction is on no canonical block and the solidified time has reached its expiration. */
  ghost predicate Expired(c: Chain, tx: SignedTransaction) {
    && c.solidified < |c.blocks|
    && Absent(c.blocks, tx.id)
    && tx.payload.expiresAt <= c.blocks[c.solidified].header.timestamp
  }

  // ---------- token flow ----------

  /** All TRC20 transfers of a list of blocks, in order. */
  function Flat(blocks: seq<Block>): seq<Transfer> {
    if blocks == [] then [] else Flat(blocks[..|blocks| - 1]) + blocks[|blocks| - 1].transfers
  }

  lemma {:induction false} FlatPrefix(blocks: seq<Block>, m: nat, n: nat)
    requires m <= n <= |blocks|
    ensures Flat(blocks[..m]) <= Flat(blocks[..n])
  {
    if m < n {
      FlatPrefix(blocks, m, n - 1);
      assert blocks[..n][..n - 1] == blocks[..n - 1];
    }
  }

  lemma {:induction false} FlatMember(blocks: seq<Block>, t: Transfer)
    requires t in Flat(blocks)
    ensures exists i :: 0 <= i < |blocks| && t in blocks[i].transfers
  {
    var init := blocks[..|blocks| - 1];
    if t in Flat(init) {
      FlatMember(init, t);
      var i :| 0 <= i < |init| && t in init[i].transfers;
      assert t in blocks[i].transfers;
    } else {
      assert t in blocks[|blocks| - 1].transfers;
    }
  }

  lemma {:induction false} FlatContains(blocks: seq<Block>, i: nat, t: Transfer)
    requires i < |blocks| && t in blocks[i].transfers
    ensures t in Flat(blocks)
  {
    if i < |blocks| - 1 {
      FlatContains(blocks[..|blocks| - 1], i, t);
    }
  }

  /** Where the k-th transfer of a chain sits. */
  lemma {:induction false} FlatLocate(blocks: seq<Block>, k: nat) returns (i: nat, p: nat)
    requires k < |Flat(blocks)|
    ensures i < |blocks| && p < |blocks[i].transfers| && Flat(blocks)[k] == blocks[i].transfers[p]
    ensures |Flat(blocks[..i])| + p == k
  {
    var n := |blocks| - 1;
    var init := blocks[..n];
    if k < |Flat(init)| {
      i, p := FlatLocate(init, k);
      assert init[..i] == blocks[..i];
    } else {
      i, p := n, k - |Flat(init)|;
    }
  }

  /** Distinct positions of the flattened chain hold distinct events. */
  lemma FlatEventIdsUnique(network: string, blocks: seq<Block>, k: nat, l: nat)
    requires ValidBlocks(network, blocks)
    requires k < |Flat(blocks)| && l < |Flat(blocks)| && Flat(blocks)[k].id == Flat(blocks)[l].id
    ensures k == l
  {
    var i, p := FlatLocate(blocks, k);
    var j, q := FlatLocate(blocks, l);
    EventIdsUnique(network, blocks, i, p, j, q);
  }

  function Credit(asset: string, holder: string): Transfer -> int {
    (t: Transfer) => if t.id.contract == asset && t.recipient == holder then t.amount else 0
  }

  function Debit(asset: string, holder: string): Transfer -> int {
    (t: Transfer) => if t.id.contract == asset && t.sender == holder then t.amount else 0
  }

  /** balanceOf(holder) after the given blocks. */
  function TokenBalance(blocks: seq<Block>, asset: string, holder: string): int {
    SeqSum(Flat(blocks), Credit(asset, holder)) - SeqSum(Flat(blocks), Debit(asset, holder))
  }
}
