// A planned sweep never promises more than its source really holds.
module SweepFunds {
  import opened Prelude
  import opened Sums
  import opened Chain
  import opened Tables
  import opened Gateway
  import opened Sweeps
  import opened SweepProofs
  import opened StoreProofs
  import opened Protocol
  import opened IndexProofs
  import opened Invariants
  import opened Finality
  import opened CustodyFlow
  import opened Reconciliation

  ghost function CommittedExcept(asset: string, source: string, except: string): (string, Sweep) -> int {
    (id: string, s: Sweep) => if id == except then 0 else CommittedFrom(asset, source)(id, s)
  }

  /** The sweep's transaction is on none of the first n blocks. */
  predicate Unexecuted(chain: Chain, s: Sweep, n: nat)
    requires n <= |chain.blocks|
  {
    s.job.transaction.Some? ==> Absent(chain.blocks[..n], s.job.transaction.value.id)
  }

  // ---------- what came in ----------

  lemma EventTransfer(cfg: Config, s: State, key: EventId) returns (k: nat)
    requires Inv(cfg, s) && key in s.db.events
    ensures s.db.cursor.next <= s.chain.solidified + 1 && s.db.cursor.next <= |s.chain.blocks|
    ensures k < |Flat(s.chain.blocks[..s.db.cursor.next])|
    ensures
      var t := Flat(s.chain.blocks[..s.db.cursor.next])[k];
      t.id == key && t.amount == s.db.events[key].amount && t.recipient == s.db.events[key].recipient
  {
    hide ProtocolInv, ScansSound, SweepInv, StoreInv, ValidBlocks;
    var blocks := s.chain.blocks[..s.db.cursor.next];
    var i, j :| s.db.cursor.start <= i < |blocks| && 0 <= j < |blocks[i].transfers| && IsRow(blocks[i], j, s.db.cursor.tracked.value, key, s.db.events[key]);
    FlatContains(blocks, i, blocks[i].transfers[j]);
    k :| 0 <= k < |Flat(blocks)| && Flat(blocks)[k] == blocks[i].transfers[j];
  }

  lemma EventAmount(cfg: Config, s: State, asset: string, source: string, i: nat)
    requires Inv(cfg, s) && s.db.cursor.next <= |s.chain.blocks| && i < |Flat(s.chain.blocks[..s.db.cursor.next])|
    requires Flat(s.chain.blocks[..s.db.cursor.next])[i].id in s.db.events
    ensures
      var t := Flat(s.chain.blocks[..s.db.cursor.next])[i];
      InboundOf(asset, source)(t.id, s.db.events[t.id]) <= Credit(asset, source)(t)
  {
    hide Inv, ValidBlocks, ProtocolInv, StoreInv, IndexInv, SweepInv;
    ParsedInv(cfg, s);
    ChainParts(cfg, s);
    PrefixAt(s.chain.blocks, s.db.cursor.next, i);
    var t := Flat(s.chain.blocks[..s.db.cursor.next])[i];
    var j := EventTransfer(cfg, s, t.id);
    PrefixAt(s.chain.blocks, s.db.cursor.next, j);
    FlatEventIdsUnique(s.chain.network, s.chain.blocks, i, j);
  }

  /** Indexed inbound amounts really arrived. */
  lemma InboundArrived(cfg: Config, s: State, asset: string, source: string, n: nat)
    requires Inv(cfg, s) && s.chain.solidified < n <= |s.chain.blocks|
    ensures MapSum(s.db.events, InboundOf(asset, source)) <= SeqSum(Flat(s.chain.blocks[..n]), Credit(asset, source))
  {
    hide Inv, ValidBlocks, ProtocolInv, StoreInv, IndexInv, SweepInv;
    ParsedInv(cfg, s);
    ChainParts(cfg, s);
    forall t | t in Flat(s.chain.blocks) ensures 0 <= Credit(asset, source)(t) {
      FlatPositive(s.chain.network, s.chain.blocks, t);
    }
    if key :| key in s.db.events {
      var k := EventTransfer(cfg, s, key);
      IndexedArrived(cfg, s, asset, source);
      FlowGrows(s.chain.blocks, s.db.cursor.next, n, Credit(asset, source));
    } else {
      MapSumZero(s.db.events, InboundOf(asset, source));
      FlowGrows(s.chain.blocks, 0, n, Credit(asset, source));
    }
  }

  lemma IndexedArrived(cfg: Config, s: State, asset: string, source: string)
    requires Inv(cfg, s) && s.db.cursor.next <= |s.chain.blocks|
    ensures MapSum(s.db.events, InboundOf(asset, source)) <= SeqSum(Flat(s.chain.blocks[..s.db.cursor.next]), Credit(asset, source))
  {
    hide Inv, ValidBlocks, ProtocolInv, StoreInv, IndexInv, SweepInv;
    ParsedInv(cfg, s);
    ChainParts(cfg, s);
    var list, f, g, key := Flat(s.chain.blocks[..s.db.cursor.next]), Credit(asset, source), InboundOf(asset, source), (t: Transfer) => t.id;
    forall t | t in list ensures 0 <= f(t) {
      FlatInto(s.chain.blocks, s.db.cursor.next, t);
      FlatPositive(s.chain.network, s.chain.blocks, t);
    }
    forall k | k in s.db.events && g(k, s.db.events[k]) > 0 ensures exists i :: 0 <= i < |list| && key(list[i]) == k {
      var i := EventTransfer(cfg, s, k);
    }
    forall i | 0 <= i < |list| && key(list[i]) in s.db.events ensures g(key(list[i]), s.db.events[key(list[i])]) <= f(list[i]) {
      EventAmount(cfg, s, asset, source, i);
    }
    MapIntoSeq(s.db.events, g, list, f, key);
  }

  // ---------- what went out ----------

  /** A transfer out of a deposit wallet was paid by a committed sweep of that wallet, of its amount. */
  lemma SourcePayer(cfg: Config, s: State, asset: string, source: string, t: Transfer)
    requires ValidConfig(cfg) && Inv(cfg, s) && FinalInv(s) && IsDeposit(cfg, asset, source)
    requires t in Flat(s.chain.blocks) && Debit(asset, source)(t) > 0
    ensures FromCustody(cfg, t) && t.id.transactionId in s.chain.broadcasted
    ensures
      var id := PayerKey(s.chain.broadcasted)(t);
      && id in s.db.sweeps && t.amount == CommittedFrom(asset, source)(id, s.db.sweeps[id])
      && s.db.sweeps[id].job.transaction.Some? && s.db.sweeps[id].job.transaction.value.id == t.id.transactionId
  {
    hide ProtocolInv, StoreInv, IndexInv, ScansSound, FinalInv, SentBy, SignedFor;
    ParsedInv(cfg, s);
    assert InCustody(cfg, asset, source);
    assert source != cfg.hot;
    var table, id := CustodyPayer(cfg, s, t);
    SentRow(s.db, s.chain.broadcasted, t, table, id);
    PayerCommitted(cfg, s, t, table, id);
  }

  lemma ExecutedThere(cfg: Config, s: State, n: nat, k: nat)
    requires ProtocolInv(cfg, s) && n <= |s.chain.blocks| && k < |Flat(s.chain.blocks[..n])|
    ensures !Absent(s.chain.blocks[..n], Flat(s.chain.blocks[..n])[k].id.transactionId)
  {
    hide ProtocolInv, ValidBlocks;
    ChainParts(cfg, s);
    var i, p := FlatLocate(s.chain.blocks[..n], k);
    var t := s.chain.blocks[i].transfers[p];
    TransferHasReceipt(s.chain.network, s.chain.blocks, i, t);
    var r := Receipt(t.id.transactionId, ExecutionSucceeded);
    var j :| 0 <= j < |s.chain.blocks[i].receipts| && s.chain.blocks[i].receipts[j] == r;
    assert !NoReceipt(s.chain.blocks[..n][i], t.id.transactionId);
  }

  lemma SweptBounded(cfg: Config, s: State, id: string, n: nat)
    requires ValidConfig(cfg) && Inv(cfg, s) && FinalInv(s) && n <= |s.chain.blocks|
    requires id in s.db.sweeps && Unexecuted(s.chain, s.db.sweeps[id], n)
    ensures
      var sweep := s.db.sweeps[id];
      SeqSum(Flat(s.chain.blocks[..n]), Debit(sweep.asset, sweep.source)) <= MapSum(s.db.sweeps, CommittedExcept(sweep.asset, sweep.source, id))
  {
    hide Inv, FinalInv, ProtocolInv, StoreInv, IndexInv;
    ParsedInv(cfg, s);
    var asset, source := s.db.sweeps[id].asset, s.db.sweeps[id].source;
    assert Routed(cfg, s.db.sweeps[id]);
    var list, f, g, key := Flat(s.chain.blocks[..n]), Debit(asset, source), CommittedExcept(asset, source, id), PayerKey(s.chain.broadcasted);
    forall k | k in s.db.sweeps ensures 0 <= g(k, s.db.sweeps[k]) {
      assert Routed(cfg, s.db.sweeps[k]);
    }
    forall i | 0 <= i < |list| && f(list[i]) > 0 ensures key(list[i]) in s.db.sweeps && f(list[i]) <= g(key(list[i]), s.db.sweeps[key(list[i])]) {
      PrefixAt(s.chain.blocks, n, i);
      SourcePayer(cfg, s, asset, source, list[i]);
      ExecutedThere(cfg, s, n, i);
    }
    forall i, j | 0 <= i < j < |list| && f(list[i]) > 0 && f(list[j]) > 0 ensures key(list[i]) != key(list[j]) {
      PrefixAt(s.chain.blocks, n, i);
      PrefixAt(s.chain.blocks, n, j);
      SourcePayer(cfg, s, asset, source, list[i]);
      SourcePayer(cfg, s, asset, source, list[j]);
      if key(list[i]) == key(list[j]) {
        PaidOnce(cfg, s, i, j);
        assert false;
      }
    }
    SeqIntoMap(list, f, s.db.sweeps, g, key);
  }

  /** From its planning until it executes, a sweep's amount really lies in its source wallet, on the
      solidified chain and on every longer canonical prefix. */
  lemma SourceCovered(cfg: Config, s: State, id: string, n: nat)
    requires ValidConfig(cfg) && Inv(cfg, s) && FinalInv(s) && s.chain.solidified < n <= |s.chain.blocks|
    requires id in s.db.sweeps && ActiveSweep(s.db.sweeps[id].job.status) && Unexecuted(s.chain, s.db.sweeps[id], n)
    ensures s.db.sweeps[id].amount <= TokenBalance(s.chain.blocks[..n], s.db.sweeps[id].asset, s.db.sweeps[id].source)
  {
    hide Inv, FinalInv, ProtocolInv, StoreInv, IndexInv, Credit, Debit;
    ParsedInv(cfg, s);
    var sweep := s.db.sweeps[id];
    SweptBounded(cfg, s, id, n);
    InboundArrived(cfg, s, sweep.asset, sweep.source, n);
    MapSumDiffAt(s.db.sweeps, CommittedFrom(sweep.asset, sweep.source), CommittedExcept(sweep.asset, sweep.source, id), id);
  }

  /** The balance check before signing never stops a sweep whose source is observed honestly. */
  lemma HonestObservationPasses(cfg: Config, s: State, id: string)
    requires ValidConfig(cfg) && Inv(cfg, s) && FinalInv(s) && 0 < s.chain.solidified < |s.chain.blocks|
    requires id in s.db.sweeps && ActiveSweep(s.db.sweeps[id].job.status) && Unexecuted(s.chain, s.db.sweeps[id], s.chain.solidified + 1)
    requires TokenBalance(s.chain.blocks[..s.chain.solidified + 1], s.db.sweeps[id].asset, s.db.sweeps[id].source) < TWO_256
    ensures
      var sweep := s.db.sweeps[id];
      ValidObservation(Observation(TokenBalance(s.chain.blocks[..s.chain.solidified + 1], sweep.asset, sweep.source), s.chain.solidified), sweep.amount)
  {
    hide ProtocolInv, StoreInv, IndexInv, FinalInv, TokenBalance;
    SourceCovered(cfg, s, id, s.chain.solidified + 1);
    assert Routed(cfg, s.db.sweeps[id]);
  }
}
