// The bounds behind reconciliation: custody pays out no more than the rows that are in flight or
// succeeded, credits no more than the deposits on the solidified chain, and holds the difference.
module Reconciliation {
  import opened Prelude
  import opened Sums
  import opened Chain
  import opened Lease
  import opened Ledger
  import opened Tables
  import opened Gateway
  import opened LedgerProofs
  import opened DepositProofs
  import opened SweepProofs
  import opened StoreProofs
  import opened Protocol
  import opened IndexProofs
  import opened Invariants
  import opened Finality
  import opened CustodyFlow
  import opened OutboxProofs
  import Wallets

  lemma ParsedInv(cfg: Config, s: State)
    requires Inv(cfg, s)
    ensures ProtocolInv(cfg, s) && StoreInv(cfg, s.db) && IndexInv(s.db, s.chain) && SweepInv(cfg, s.db.events, s.db.sweeps)
  {
  }

  /** The request a custody transfer was signed for. */
  function PayerKey(broadcasted: map<string, Payload>): Transfer -> string {
    (t: Transfer) => if t.id.transactionId in broadcasted then broadcasted[t.id.transactionId].request.id else ""
  }

  lemma PrefixAt(blocks: seq<Block>, n: nat, k: nat)
    requires n <= |blocks| && k < |Flat(blocks[..n])|
    ensures k < |Flat(blocks)| && Flat(blocks[..n])[k] == Flat(blocks)[k] && Flat(blocks)[k] in Flat(blocks)
  {
    FlatPrefix(blocks, n, |blocks|);
    assert blocks[..|blocks|] == blocks;
  }

  // ---------- payouts ----------

  function PaidOut(cfg: Config, asset: string): Transfer -> int {
    (t: Transfer) => if t.id.contract == asset && t.sender == cfg.hot && InCustody(cfg, asset, cfg.hot) then t.amount else 0
  }

  ghost function Spent(asset: string): (string, Payout) -> int {
    (id: string, p: Payout) => if p.asset == asset && (InFlight(p.job) || p.job.status == Succeeded) then p.amount else 0
  }

  /** A transfer out of the hot wallet was paid by a payout of its amount that is in flight or succeeded. */
  lemma HotPayer(cfg: Config, s: State, asset: string, t: Transfer)
    requires ValidConfig(cfg) && Inv(cfg, s) && FinalInv(s) && t in Flat(s.chain.blocks) && PaidOut(cfg, asset)(t) > 0
    ensures FromCustody(cfg, t) && t.id.transactionId in s.chain.broadcasted
    ensures
      var id := PayerKey(s.chain.broadcasted)(t);
      id in s.db.payouts && t.amount == Spent(asset)(id, s.db.payouts[id])
  {
    hide ProtocolInv, StoreInv, IndexInv, ScansSound, FinalInv, SentBy, SignedFor;
    ParsedInv(cfg, s);
    var table, id := CustodyPayer(cfg, s, t);
    SentRow(s.db, s.chain.broadcasted, t, table, id);
    PayerCommitted(cfg, s, t, table, id);
    if id in s.db.sweeps {
      SweepOwner(cfg, s.db, id);
    }
  }

  /** Sweeps are signed by deposit keys, never by the hot wallet's. */
  lemma SweepOwner(cfg: Config, db: Db, id: string)
    requires ValidConfig(cfg) && SweepInv(cfg, db.events, db.sweeps) && id in db.sweeps
    ensures SweepRequest(id, db.sweeps[id]).owner != cfg.hot
  {
    assert Routed(cfg, db.sweeps[id]);
  }

  lemma SentRow(db: Db, broadcasted: map<string, Payload>, t: Transfer, table: Table, id: string)
    requires t.id.transactionId in broadcasted && SentBy(db, SignedTransaction(t.id.transactionId, broadcasted[t.id.transactionId]), table, id)
    ensures HasRow(db, table, id)
  {
  }

  lemma SpentPositive(cfg: Config, s: State, asset: string)
    requires Inv(cfg, s)
    ensures forall id :: id in s.db.payouts ==> 0 <= Spent(asset)(id, s.db.payouts[id])
  {
    hide ProtocolInv, IndexInv, ScansSound, SweepInv, DepositInv;
    forall id | id in s.db.payouts ensures 0 <= Spent(asset)(id, s.db.payouts[id]) {
      PayoutLinked(s.db, id);
    }
  }

  /** What left the hot wallet, at any height, is covered by payouts in flight or succeeded. */
  lemma PaidOutBounded(cfg: Config, s: State, asset: string, n: nat)
    requires ValidConfig(cfg) && Inv(cfg, s) && FinalInv(s) && n <= |s.chain.blocks|
    ensures SeqSum(Flat(s.chain.blocks[..n]), PaidOut(cfg, asset)) <= MapSum(s.db.payouts, Spent(asset))
  {
    hide Inv, FinalInv, PaidOut, Spent;
    var list, f, g, key := Flat(s.chain.blocks[..n]), PaidOut(cfg, asset), Spent(asset), PayerKey(s.chain.broadcasted);
    SpentPositive(cfg, s, asset);
    forall i | 0 <= i < |list| && f(list[i]) > 0 ensures key(list[i]) in s.db.payouts && f(list[i]) <= g(key(list[i]), s.db.payouts[key(list[i])]) {
      PrefixAt(s.chain.blocks, n, i);
      HotPayer(cfg, s, asset, list[i]);
      PaidAmount(cfg, asset, list[i]);
    }
    forall i, j | 0 <= i < j < |list| && f(list[i]) > 0 && f(list[j]) > 0 ensures key(list[i]) != key(list[j]) {
      PrefixAt(s.chain.blocks, n, i);
      PrefixAt(s.chain.blocks, n, j);
      HotPayer(cfg, s, asset, list[i]);
      HotPayer(cfg, s, asset, list[j]);
      if key(list[i]) == key(list[j]) {
        ParsedInv(cfg, s);
        PaidOnce(cfg, s, i, j);
        assert false;
      }
    }
    SeqIntoMap(list, f, s.db.payouts, g, key);
  }

  lemma PaidAmount(cfg: Config, asset: string, t: Transfer)
    requires PaidOut(cfg, asset)(t) > 0
    ensures PaidOut(cfg, asset)(t) == t.amount
  {
  }

  lemma SpentSplits(payouts: map<string, Payout>, asset: string)
    ensures MapSum(payouts, Spent(asset)) == MapSum(payouts, Wallets.PayoutInFlight(asset)) + MapSum(payouts, SucceededAmount(asset))
  {
    MapSumPlus(payouts, Wallets.PayoutInFlight(asset), SucceededAmount(asset), Spent(asset));
  }

  // ---------- deposits ----------

  function DepositIn(cfg: Config, asset: string): Transfer -> int {
    (t: Transfer) => if t.id.contract == asset && IsDeposit(cfg, asset, t.recipient) then t.amount else 0
  }

  lemma DepositInGrows(cfg: Config, s: State, asset: string, m: nat, n: nat)
    requires ProtocolInv(cfg, s) && m <= n <= |s.chain.blocks|
    ensures SeqSum(Flat(s.chain.blocks[..m]), DepositIn(cfg, asset)) <= SeqSum(Flat(s.chain.blocks[..n]), DepositIn(cfg, asset))
  {
    hide ProtocolInv, ValidBlocks;
    ChainParts(cfg, s);
    forall t | t in Flat(s.chain.blocks) ensures 0 <= DepositIn(cfg, asset)(t) {
      FlatPositive(s.chain.network, s.chain.blocks, t);
    }
    FlowGrows(s.chain.blocks, m, n, DepositIn(cfg, asset));
  }

  /** Credited amounts are matched amounts. */
  lemma CreditedMatched(cfg: Config, db: Db, asset: string)
    requires DepositInv(cfg, db)
    ensures MapSum(db.intents, CreditedAmount(asset)) <= MapSum(db.matches, MatchedOfAsset(asset))
  {
    forall id | id in db.intents ensures CreditedAmount(asset)(id, db.intents[id]) <= MatchedByIntent(db.matches, asset)(id, db.intents[id]) {
      assert IntentSound(db.matches, id, db.intents[id]);
    }
    MapSumLe(db.intents, CreditedAmount(asset), MatchedByIntent(db.matches, asset));
  }

  /** A matched event is a transfer to a deposit address of the indexed range. */
  lemma MatchedTransfer(cfg: Config, s: State, key: EventId) returns (k: nat)
    requires Inv(cfg, s) && key in s.db.matches && s.db.matches[key].review == None
    ensures s.db.cursor.next <= s.chain.solidified + 1 && s.db.cursor.next <= |s.chain.blocks|
    ensures k < |Flat(s.chain.blocks[..s.db.cursor.next])|
    ensures
      var t := Flat(s.chain.blocks[..s.db.cursor.next])[k];
      t.id == key && t.amount == s.db.matches[key].amount && IsDeposit(cfg, key.contract, t.recipient)
  {
    hide ProtocolInv, ScansSound, SweepInv, LedgerInv, OutboxSound, Tallied, IntentsSound, ValidBlocks;
    var blocks := s.chain.blocks[..s.db.cursor.next];
    var i, j :| s.db.cursor.start <= i < |blocks| && 0 <= j < |blocks[i].transfers| && IsRow(blocks[i], j, s.db.cursor.tracked.value, key, s.db.events[key]);
    FlatContains(blocks, i, blocks[i].transfers[j]);
    k :| 0 <= k < |Flat(blocks)| && Flat(blocks)[k] == blocks[i].transfers[j];
  }

  /** Without a matched event nothing was matched. */
  lemma NothingMatched(matches: map<EventId, MatchRow>, asset: string)
    requires forall key :: key in matches ==> matches[key].review != None
    ensures MapSum(matches, MatchedOfAsset(asset)) == 0
  {
    MapSumZero(matches, MatchedOfAsset(asset));
  }

  /** Merchants were credited no more than what deposit addresses received on the solidified chain. */
  lemma CreditedDeposited(cfg: Config, s: State, asset: string)
    requires Inv(cfg, s)
    ensures MapSum(s.db.intents, CreditedAmount(asset)) <= SeqSum(Flat(s.chain.blocks[..s.chain.solidified + 1]), DepositIn(cfg, asset))
  {
    hide Inv, StoreInv, ProtocolInv, DepositInv, CreditedAmount, MatchedOfAsset, DepositIn, ValidBlocks;
    ParsedInv(cfg, s);
    ChainParts(cfg, s);
    DepositPart(cfg, s.db);
    CreditedMatched(cfg, s.db, asset);
    if key :| key in s.db.matches && s.db.matches[key].review == None {
      var k := MatchedTransfer(cfg, s, key);
      MatchedDeposited(cfg, s, asset);
      DepositInGrows(cfg, s, asset, s.db.cursor.next, s.chain.solidified + 1);
    } else {
      NothingMatched(s.db.matches, asset);
      DepositInGrows(cfg, s, asset, 0, s.chain.solidified + 1);
    }
  }

  lemma DepositPart(cfg: Config, db: Db)
    requires StoreInv(cfg, db)
    ensures DepositInv(cfg, db)
  {
  }

  /** A transfer of the indexed range that was matched carries the matched amount to a deposit address. */
  lemma MatchedAmount(cfg: Config, s: State, asset: string, i: nat)
    requires Inv(cfg, s) && s.db.cursor.next <= |s.chain.blocks| && i < |Flat(s.chain.blocks[..s.db.cursor.next])|
    requires Flat(s.chain.blocks[..s.db.cursor.next])[i].id in s.db.matches
    ensures
      var t := Flat(s.chain.blocks[..s.db.cursor.next])[i];
      0 <= DepositIn(cfg, asset)(t) && MatchedOfAsset(asset)(t.id, s.db.matches[t.id]) <= DepositIn(cfg, asset)(t)
  {
    hide Inv, ValidBlocks, ProtocolInv, StoreInv, IndexInv, SweepInv;
    ParsedInv(cfg, s);
    ChainParts(cfg, s);
    PrefixAt(s.chain.blocks, s.db.cursor.next, i);
    var t := Flat(s.chain.blocks[..s.db.cursor.next])[i];
    FlatPositive(s.chain.network, s.chain.blocks, t);
    if s.db.matches[t.id].review == None {
      var j := MatchedTransfer(cfg, s, t.id);
      PrefixAt(s.chain.blocks, s.db.cursor.next, j);
      FlatEventIdsUnique(s.chain.network, s.chain.blocks, i, j);
    }
  }

  lemma MatchedDeposited(cfg: Config, s: State, asset: string)
    requires Inv(cfg, s) && s.db.cursor.next <= |s.chain.blocks|
    ensures MapSum(s.db.matches, MatchedOfAsset(asset)) <= SeqSum(Flat(s.chain.blocks[..s.db.cursor.next]), DepositIn(cfg, asset))
  {
    hide Inv, ValidBlocks, ProtocolInv, StoreInv, IndexInv, SweepInv;
    ParsedInv(cfg, s);
    ChainParts(cfg, s);
    var list, f, g, key := Flat(s.chain.blocks[..s.db.cursor.next]), DepositIn(cfg, asset), MatchedOfAsset(asset), (t: Transfer) => t.id;
    forall t | t in list ensures 0 <= f(t) {
      FlatInto(s.chain.blocks, s.db.cursor.next, t);
      FlatPositive(s.chain.network, s.chain.blocks, t);
    }
    forall k | k in s.db.matches && g(k, s.db.matches[k]) > 0 ensures exists i :: 0 <= i < |list| && key(list[i]) == k {
      var i := MatchedTransfer(cfg, s, k);
    }
    forall i | 0 <= i < |list| && key(list[i]) in s.db.matches ensures g(key(list[i]), s.db.matches[key(list[i])]) <= f(list[i]) {
      MatchedAmount(cfg, s, asset, i);
    }
    MapIntoSeq(s.db.matches, g, list, f, key);
  }

  // ---------- what custody holds ----------

  /** One transfer: what custody gains by it is at least its deposit share minus what a payout took. */
  lemma TransferShare(cfg: Config, s: State, asset: string, t: Transfer)
    requires ValidConfig(cfg) && Inv(cfg, s) && asset in cfg.wallets && t in Flat(s.chain.blocks)
    ensures Outflow(asset, cfg.wallets[asset])(t) + DepositIn(cfg, asset)(t) <= Inflow(asset, cfg.wallets[asset])(t) + PaidOut(cfg, asset)(t)
  {
    hide ProtocolInv, StoreInv, IndexInv, ScansSound, SentBy, SignedFor;
    ParsedInv(cfg, s);
    ChainParts(cfg, s);
    FlatPositive(s.chain.network, s.chain.blocks, t);
    assert IsDeposit(cfg, asset, t.recipient) ==> InCustody(cfg, asset, t.recipient);
    if t.id.contract == asset && t.sender in cfg.wallets[asset] {
      var table, id := CustodyPayer(cfg, s, t);
      SentRow(s.db, s.chain.broadcasted, t, table, id);
      if table == SweepTable {
        assert Routed(cfg, s.db.sweeps[id]);
      }
    }
  }

  /** On any prefix of the canonical chain custody holds at least the deposits minus what payouts took. */
  lemma CustodyHolds(cfg: Config, s: State, asset: string, n: nat)
    requires ValidConfig(cfg) && Inv(cfg, s) && asset in cfg.wallets && n <= |s.chain.blocks|
    ensures
      var blocks := s.chain.blocks[..n];
      SeqSum(Flat(blocks), DepositIn(cfg, asset)) - SeqSum(Flat(blocks), PaidOut(cfg, asset))
        <= Wallets.Total(BalancesAt(blocks, asset, cfg.wallets[asset]))
  {
    hide Inv, DepositIn, PaidOut, Inflow, Outflow, InCustody;
    var list, wallets := Flat(s.chain.blocks[..n]), cfg.wallets[asset];
    WalletsTotal(s.chain.blocks[..n], asset, wallets);
    var o, d, i, p := Outflow(asset, wallets), DepositIn(cfg, asset), Inflow(asset, wallets), PaidOut(cfg, asset);
    var left, right := (t: Transfer) => o(t) + d(t), (t: Transfer) => i(t) + p(t);
    forall t | t in list ensures left(t) <= right(t) {
      FlatInto(s.chain.blocks, n, t);
      TransferShare(cfg, s, asset, t);
    }
    SeqSumLe(list, left, right);
    SeqSumPlus(list, o, d, left);
    SeqSumPlus(list, i, p, right);
  }

  /** The interval bound at one height, for the ledger and the in-flight payouts of this very state. */
  lemma IntervalBound(cfg: Config, s: State, asset: string, height: nat)
    requires ValidConfig(cfg) && Inv(cfg, s) && FinalInv(s) && asset in cfg.wallets && height < |s.chain.blocks|
    requires MapSum(s.db.intents, CreditedAmount(asset)) <= SeqSum(Flat(s.chain.blocks[..height + 1]), DepositIn(cfg, asset))
    ensures Balance(s.db.journals, Custody(asset))
         <= Wallets.Total(BalancesAt(s.chain.blocks[..height + 1], asset, cfg.wallets[asset])) + MapSum(s.db.payouts, Wallets.PayoutInFlight(asset))
  {
    hide Inv, FinalInv, DepositIn, PaidOut, Spent, SucceededAmount, CreditedAmount, Wallets.PayoutInFlight;
    CustodyHolds(cfg, s, asset, height + 1);
    PaidOutBounded(cfg, s, asset, height + 1);
    SpentSplits(s.db.payouts, asset);
    CustodyLedger(cfg, s, asset);
  }

  lemma CustodyLedger(cfg: Config, s: State, asset: string)
    requires Inv(cfg, s)
    ensures Balance(s.db.journals, Custody(asset)) == MapSum(s.db.intents, CreditedAmount(asset)) - MapSum(s.db.payouts, SucceededAmount(asset))
  {
    hide ProtocolInv, IndexInv, ScansSound, SweepInv, DepositInv, OutboxSound;
  }
}
