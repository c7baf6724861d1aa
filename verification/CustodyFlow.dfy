// Token flow on the chain against the rows of the database: what left custody was paid by rows,
// each at most once, and what came in is what the indexer saw.
module CustodyFlow {
  import opened Sums
  import opened Chain
  import opened Lease
  import opened Tables
  import opened Gateway
  import opened Protocol
  import opened Finality
  import Wallets

  // ---------- wallets as one holder ----------

  function Inflow(asset: string, wallets: seq<string>): Transfer -> int {
    (t: Transfer) => if t.id.contract == asset && t.recipient in wallets then t.amount else 0
  }

  function Outflow(asset: string, wallets: seq<string>): Transfer -> int {
    (t: Transfer) => if t.id.contract == asset && t.sender in wallets then t.amount else 0
  }

  /** The balances a snapshot reads at one height. */
  function BalancesAt(blocks: seq<Block>, asset: string, wallets: seq<string>): seq<int> {
    if wallets == [] then []
    else BalancesAt(blocks, asset, wallets[..|wallets| - 1]) + [TokenBalance(blocks, asset, wallets[|wallets| - 1])]
  }

  /** The wallets together hold what came in to any of them minus what left any of them. */
  lemma {:induction false} WalletsTotal(blocks: seq<Block>, asset: string, wallets: seq<string>)
    requires Distinct(wallets)
    ensures Wallets.Total(BalancesAt(blocks, asset, wallets))
         == SeqSum(Flat(blocks), Inflow(asset, wallets)) - SeqSum(Flat(blocks), Outflow(asset, wallets))
  {
    var s := Flat(blocks);
    if wallets == [] {
      SeqSumPlus(s, Inflow(asset, wallets), Inflow(asset, wallets), Inflow(asset, wallets));
      SeqSumPlus(s, Outflow(asset, wallets), Outflow(asset, wallets), Outflow(asset, wallets));
    } else {
      var init, last := wallets[..|wallets| - 1], wallets[|wallets| - 1];
      WalletsTotal(blocks, asset, init);
      assert wallets == init + [last] && last !in init;
      SeqSumPlus(s, Inflow(asset, init), Credit(asset, last), Inflow(asset, wallets));
      SeqSumPlus(s, Outflow(asset, init), Debit(asset, last), Outflow(asset, wallets));
    }
  }

  // ---------- transfers of a valid chain ----------

  lemma {:induction false} SeqSumNonneg<T>(s: seq<T>, f: T -> int)
    requires forall x :: x in s ==> 0 <= f(x)
    ensures 0 <= SeqSum(s, f)
  {
    if s != [] {
      SeqSumNonneg(s[..|s| - 1], f);
    }
  }

  /** A non-negative sum over the transfers of a chain grows with the chain. */
  lemma FlowGrows(blocks: seq<Block>, m: nat, n: nat, f: Transfer -> int)
    requires m <= n <= |blocks|
    requires forall t :: t in Flat(blocks) ==> 0 <= f(t)
    ensures SeqSum(Flat(blocks[..m]), f) <= SeqSum(Flat(blocks[..n]), f)
  {
    hide Flat, SeqSum;
    FlatPrefix(blocks, m, n);
    FlatPrefix(blocks, n, |blocks|);
    assert blocks[..|blocks|] == blocks;
    PrefixSum(Flat(blocks[..m]), Flat(blocks[..n]), f);
  }

  lemma PrefixSum<T>(a: seq<T>, b: seq<T>, f: T -> int)
    requires a <= b && forall x :: x in b ==> 0 <= f(x)
    ensures SeqSum(a, f) <= SeqSum(b, f)
  {
    hide SeqSum;
    assert b == a + b[|a|..];
    SeqSumAppend(a, b[|a|..], f);
    SeqSumNonneg(b[|a|..], f);
  }

  lemma FlatPositive(network: string, blocks: seq<Block>, t: Transfer)
    requires ValidBlocks(network, blocks) && t in Flat(blocks)
    ensures 0 < t.amount
  {
    FlatMember(blocks, t);
    var i :| 0 <= i < |blocks| && t in blocks[i].transfers;
    TransferHasReceipt(network, blocks, i, t);
  }

  lemma FlatInto(blocks: seq<Block>, n: nat, t: Transfer)
    requires n <= |blocks| && t in Flat(blocks[..n])
    ensures t in Flat(blocks)
  {
    FlatPrefix(blocks, n, |blocks|);
    assert blocks[..|blocks|] == blocks;
  }

  // ---------- who paid a custody transfer ----------

  function PayloadOf(s: State, t: Transfer): Payload
    requires t.id.transactionId in s.chain.broadcasted
  {
    s.chain.broadcasted[t.id.transactionId]
  }

  ghost predicate PaidBy(cfg: Config, s: State, t: Transfer, table: Table, id: string) {
    && t.id.transactionId in s.chain.broadcasted && PaidByRequest(s.chain.broadcasted, t)
    && SentBy(s.db, SignedTransaction(t.id.transactionId, PayloadOf(s, t)), table, id)
    && PayloadOf(s, t).request == RowRequest(cfg, s.db, table, id)
    && SignedFor(s.signer, PayloadOf(s, t).request, SignedTransaction(t.id.transactionId, PayloadOf(s, t)))
  }

  /** Every transfer out of custody was paid by a row that was claimed for broadcast, for exactly its amount. */
  lemma CustodyPayer(cfg: Config, s: State, t: Transfer) returns (table: Table, id: string)
    requires ProtocolInv(cfg, s) && t in Flat(s.chain.blocks) && FromCustody(cfg, t)
    ensures PaidBy(cfg, s, t, table, id)
  {
    hide ProcsSound, LogSound, LeasesLogged, SuccessSound, IncludedBroadcast, Shaped, ValidChain, TimesRise, InTime, CustodyOnce;
    FlatMember(s.chain.blocks, t);
    var i :| 0 <= i < |s.chain.blocks| && t in s.chain.blocks[i].transfers;
    var x := t.id.transactionId;
    assert PaidByRequest(s.chain.broadcasted, t);
    table, id :| SentBy(s.db, SignedTransaction(x, s.chain.broadcasted[x]), table, id);
    SentSigned(cfg, s, SignedTransaction(x, s.chain.broadcasted[x]), table, id);
  }

  lemma SentSigned(cfg: Config, s: State, tx: SignedTransaction, table: Table, id: string)
    requires SignerSound(s.signer) && RowsSigned(cfg, s.db, s.signer) && SentBy(s.db, tx, table, id)
    ensures SignedFor(s.signer, RowRequest(cfg, s.db, table, id), tx) && tx.payload.request == RowRequest(cfg, s.db, table, id)
  {
    assert SignedFor(s.signer, RowRequest(cfg, s.db, table, id), tx);
    assert RecordSound(RowRequest(cfg, s.db, table, id).id, s.signer[RowRequest(cfg, s.db, table, id).id]);
  }

  /** No request is paid twice: two custody transfers for one request are the same transfer. */
  lemma PaidOnce(cfg: Config, s: State, k: nat, l: nat)
    requires ProtocolInv(cfg, s) && k < |Flat(s.chain.blocks)| && l < |Flat(s.chain.blocks)|
    requires
      var t, u := Flat(s.chain.blocks)[k], Flat(s.chain.blocks)[l];
      && FromCustody(cfg, t) && FromCustody(cfg, u)
      && t.id.transactionId in s.chain.broadcasted && u.id.transactionId in s.chain.broadcasted
      && PayloadOf(s, t).request.id == PayloadOf(s, u).request.id
    ensures k == l
  {
    hide ProtocolInv, PaidByRequest, SentBy, RowRequest;
    var t, u := Flat(s.chain.blocks)[k], Flat(s.chain.blocks)[l];
    var table, id := CustodyPayer(cfg, s, t);
    var table', id' := CustodyPayer(cfg, s, u);
    assert SignedTransaction(t.id.transactionId, PayloadOf(s, t)) == SignedTransaction(u.id.transactionId, PayloadOf(s, u));
    OneTransferEach(cfg, s, k, l);
  }

  lemma ChainParts(cfg: Config, s: State)
    requires ProtocolInv(cfg, s)
    ensures ValidBlocks(s.chain.network, s.chain.blocks) && CustodyOnce(cfg, s.chain.blocks)
    ensures s.chain.solidified < |s.chain.blocks| && s.chain.network == cfg.network
  {
  }

  lemma OneTransferEach(cfg: Config, s: State, k: nat, l: nat)
    requires ProtocolInv(cfg, s) && k < |Flat(s.chain.blocks)| && l < |Flat(s.chain.blocks)|
    requires FromCustody(cfg, Flat(s.chain.blocks)[k]) && FromCustody(cfg, Flat(s.chain.blocks)[l])
    requires Flat(s.chain.blocks)[k].id.transactionId == Flat(s.chain.blocks)[l].id.transactionId
    ensures k == l
  {
    hide ProtocolInv, ValidBlocks;
    ChainParts(cfg, s);
    var blocks := s.chain.blocks;
    var i, p := FlatLocate(blocks, k);
    var j, q := FlatLocate(blocks, l);
    var t, u := blocks[i].transfers[p], blocks[j].transfers[q];
    TransferHasReceipt(s.chain.network, blocks, i, t);
    TransferHasReceipt(s.chain.network, blocks, j, u);
    ReceiptUnique(s.chain.network, blocks, i, j, Receipt(t.id.transactionId, ExecutionSucceeded), Receipt(u.id.transactionId, ExecutionSucceeded));
    assert OneCustodyTransfer(cfg, blocks[i]);
    SamePlace(blocks[i], p, q, cfg);
  }

  lemma SamePlace(block: Block, p: nat, q: nat, cfg: Config)
    requires OneCustodyTransfer(cfg, block) && p < |block.transfers| && q < |block.transfers|
    requires FromCustody(cfg, block.transfers[p]) && FromCustody(cfg, block.transfers[q])
    requires block.transfers[p].id.transactionId == block.transfers[q].id.transactionId
    ensures p == q
  {
  }

  /** The row that paid is committed: in flight or succeeded, never failed. */
  lemma PayerCommitted(cfg: Config, s: State, t: Transfer, table: Table, id: string)
    requires ProtocolInv(cfg, s) && FinalInv(s) && t in Flat(s.chain.blocks) && PaidBy(cfg, s, t, table, id)
    ensures
      var job := RowJob(s.db, table, id);
      && HasTransaction(job.status) && job.broadcastAttempts > 0 && job.status != Failed
      && job.transaction.Some? && job.transaction.value.id == t.id.transactionId
  {
    hide ProcsSound, LogSound, LeasesLogged, SuccessSound, IncludedBroadcast, BroadcastSound, TimesRise, InTime, CustodyOnce, CustodyPaid, ValidBlocks, RowRequest, PaidByRequest, Executed, ExpiriesSound;
    RowShaped(s.db, table, id);
    FlatMember(s.chain.blocks, t);
    var i :| 0 <= i < |s.chain.blocks| && t in s.chain.blocks[i].transfers;
    TransferHasReceipt(s.chain.network, s.chain.blocks, i, t);
    if RowJob(s.db, table, id).status == Failed {
      NeverPaysUnpaid(s.chain, RowJob(s.db, table, id).transaction.value, i);
      assert false;
    }
  }

  lemma NeverPaysUnpaid(chain: Chain, tx: SignedTransaction, i: nat)
    requires ValidChain(chain) && NeverPays(chain, tx) && i < |chain.blocks|
    ensures Receipt(tx.id, ExecutionSucceeded) !in chain.blocks[i].receipts
  {
    if Expired(chain, tx) {
      assert NoReceipt(chain.blocks[i], tx.id);
    } else if Receipt(tx.id, ExecutionSucceeded) in chain.blocks[i].receipts {
      var j :| 0 <= j <= chain.solidified && j < |chain.blocks| && Receipt(tx.id, ExecutionFailed) in chain.blocks[j].receipts;
      ReceiptUnique(chain.network, chain.blocks, i, j, Receipt(tx.id, ExecutionSucceeded), Receipt(tx.id, ExecutionFailed));
      assert false;
    }
  }
}
