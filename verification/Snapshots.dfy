// Wallet snapshots: the checkpoint read, the collection loop between two head reads, the checks of
// a snapshot before it is saved, and one whole capture with the system running between its calls.
module Snapshots {
  import opened Prelude
  import opened Sums
  import opened Chain
  import opened Ledger
  import opened Tables
  import opened Gateway
  import opened Storage
  import opened Amounts
  import ScanStatements
  import Wallets
  import Text
  import Workers

  // ---------- the wallet set ----------

  datatype Wallet = Wallet(id: string, asset: string, address: string)

  predicate SetValid(asset: string, wallets: seq<Wallet>) {
    && (forall i :: 0 <= i < |wallets| ==> Text.ValidUUID(wallets[i].id) && wallets[i].asset == asset && !Text.Blank(wallets[i].address))
    && (forall i, j :: 0 <= i < j < |wallets| ==> wallets[i].id != wallets[j].id && wallets[i].address != wallets[j].address)
  }

  /** validateWalletSet: ids are UUIDs, addresses are present, wallets are of the asset, and all are different. */
  method ValidateWalletSet(asset: string, wallets: seq<Wallet>) returns (valid: bool)
    ensures valid <==> SetValid(asset, wallets)
  {
    var ids: set<string> := {};
    var addresses: set<string> := {};
    for k := 0 to |wallets|
      invariant SetValid(asset, wallets[..k])
      invariant ids == (set i | 0 <= i < k :: wallets[i].id) && addresses == (set i | 0 <= i < k :: wallets[i].address)
    {
      var item := wallets[k];
      Text.TrimEmptyIffBlank(item.address);
      if !Text.ValidUUID(item.id) || item.asset != asset || Text.TrimSpace(item.address) == "" {
        return false;
      }
      if item.id in ids {
        return false;
      }
      if item.address in addresses {
        return false;
      }
      ids := ids + {item.id};
      addresses := addresses + {item.address};
    }
    assert wallets[..|wallets|] == wallets;
    valid := true;
  }

  /** equalStrings. */
  method EqualStrings(left: seq<string>, right: seq<string>) returns (equal: bool)
    ensures equal <==> left == right
  {
    if |left| != |right| {
      return false;
    }
    for i := 0 to |left|
      invariant forall j :: 0 <= j < i ==> left[j] == right[j]
    {
      if left[i] != right[i] {
        return false;
      }
    }
    return true;
  }

  // ---------- a snapshot before it is saved ----------

  datatype BalanceText = BalanceText(walletId: string, amount: string)

  datatype LedgerTexts = LedgerTexts(
    entryCount: int, balance: string, payoutCount: int, payoutAmount: string, sweepCount: int, sweepAmount: string)

  predicate Amount(text: string) {
    Canonical(text) && ValueOf(text) < TWO_256
  }

  predicate LedgerTextsValid(l: LedgerTexts) {
    && 0 <= l.entryCount && 0 <= l.payoutCount && 0 <= l.sweepCount
    && Amount(l.balance) && Amount(l.payoutAmount) && Amount(l.sweepAmount)
    && (l.payoutCount == 0 <==> ValueOf(l.payoutAmount) == 0) && (l.sweepCount == 0 <==> ValueOf(l.sweepAmount) == 0)
  }

  function TextTotal(balances: seq<BalanceText>): nat
    requires forall i :: 0 <= i < |balances| ==> Amount(balances[i].amount)
  {
    if balances == [] then 0
    else
      assert Amount(balances[|balances| - 1].amount);
      TextTotal(balances[..|balances| - 1]) + ValueOf(balances[|balances| - 1].amount)
  }

  predicate BalancesValid(balances: seq<BalanceText>) {
    && (forall i :: 0 <= i < |balances| ==> Text.ValidUUID(balances[i].walletId) && Amount(balances[i].amount))
    && (forall i, j :: 0 <= i < j < |balances| ==> balances[i].walletId != balances[j].walletId)
  }

  lemma {:induction false} TotalGrows(balances: seq<BalanceText>, k: nat)
    requires BalancesValid(balances) && k <= |balances|
    ensures TextTotal(balances[..k]) <= TextTotal(balances)
    decreases |balances| - k
  {
    if k == |balances| {
      assert balances[..k] == balances;
    } else {
      TotalGrows(balances, k + 1);
      assert balances[..k + 1][..k] == balances[..k];
    }
  }

  /** The ledger part of validateSnapshot and of the checkpoint read. */
  method ValidateLedger(l: LedgerTexts) returns (valid: bool)
    ensures valid <==> LedgerTextsValid(l)
  {
    if l.entryCount < 0 || l.payoutCount < 0 || l.sweepCount < 0 {
      return false;
    }
    var balance := ParseAmount(l.balance);
    var payout := ParseAmount(l.payoutAmount);
    var sweep := ParseAmount(l.sweepAmount);
    if balance.None? || payout.None? || sweep.None? {
      return false;
    }
    valid := (l.payoutCount == 0) == (payout.value == 0) && (l.sweepCount == 0) == (sweep.value == 0);
  }

  predicate BalancesMatch(balances: seq<BalanceText>, total: string) {
    && balances != [] && BalancesValid(balances) && TextTotal(balances) < TWO_256
    && Canonical(total) && ValueOf(total) == TextTotal(balances)
  }

  /** The balances part of validateSnapshot: wallets differ, amounts parse, and they add up to the total within 2^256. */
  method ValidateBalances(balances: seq<BalanceText>, total: string) returns (valid: bool)
    ensures valid <==> BalancesMatch(balances, total)
  {
    hide Text.ValidUUID, Canonical, ValueOf, Decimal;
    if balances == [] {
      return false;
    }
    var seen: set<string> := {};
    var sum: nat := 0;
    for k := 0 to |balances|
      invariant BalancesValid(balances[..k]) && sum == TextTotal(balances[..k]) && sum < TWO_256
      invariant seen == (set i | 0 <= i < k :: balances[i].walletId)
    {
      var b := balances[k];
      assert balances[..k + 1][..k] == balances[..k];
      if !Text.ValidUUID(b.walletId) {
        return false;
      }
      if b.walletId in seen {
        return false;
      }
      seen := seen + {b.walletId};
      var amount := ParseAmount(b.amount);
      if amount.None? {
        return false;
      }
      assert BalancesValid(balances[..k + 1]);
      sum := sum + amount.value;
      if sum < TWO_256 {
        SmallIsShort(Decimal(sum));
      }
      if sum >= TWO_256 || |Decimal(sum)| > 78 {
        if BalancesValid(balances) {
          TotalGrows(balances, k + 1);
        }
        return false;
      }
    }
    assert balances[..|balances|] == balances;
    if Canonical(total) {
      CanonicalUnique(Decimal(sum), total);
    }
    valid := Decimal(sum) == total;
  }

  /** A snapshot as it is handed to SaveSnapshot, with its texts. */
  datatype SnapshotTexts = SnapshotTexts(
    id: string, asset: string, network: string, contract: string, header: Header, utc: bool, accountId: string,
    ledger: LedgerTexts, balances: seq<BalanceText>, total: string)

  /** validHeader: a lower-case 32-byte hash, a height within int64, a time in UTC. */
  predicate HeaderValid(h: Header, utc: bool) {
    |h.hash| == 64 && (forall c :: c in h.hash ==> Text.LowerHexDigit(c)) && h.height <= MAX_INT64 && h.timestamp != 0 && utc
  }

  predicate SnapshotValid(s: SnapshotTexts) {
    && Text.ValidUUID(s.id) && |s.header.hash| == 64 && (forall i :: 0 <= i < 64 ==> Text.LowerHexDigit(s.header.hash[i]))
    && s.header.height <= MAX_INT64 && s.header.timestamp > 0 && s.utc && !Text.Blank(s.asset) && !Text.Blank(s.network) && !Text.Blank(s.contract)
    && Text.ValidUUID(s.accountId) && LedgerTextsValid(s.ledger) && BalancesMatch(s.balances, s.total)
  }

  /** validateSnapshot. */
  method ValidateSnapshot(s: SnapshotTexts) returns (valid: bool)
    ensures valid <==> SnapshotValid(s)
  {
    Text.TrimEmptyIffBlank(s.asset);
    Text.TrimEmptyIffBlank(s.network);
    Text.TrimEmptyIffBlank(s.contract);
    if !Text.ValidUUID(s.id) || !HeaderValid(s.header, s.utc) || |s.balances| == 0 || Text.TrimSpace(s.asset) == ""
       || Text.TrimSpace(s.network) == "" || Text.TrimSpace(s.contract) == "" || !Text.ValidUUID(s.accountId) {
      return false;
    }
    var ledger := ValidateLedger(s.ledger);
    if !ledger {
      return false;
    }
    valid := ValidateBalances(s.balances, s.total);
  }

  // ---------- the checkpoint ----------

  /** COUNT and SUM over a table, row by row. */
  method SumTable<K(==), V>(table: map<K, V>, f: (K, V) -> int) returns (total: int)
    ensures total == MapSum(table, f)
  {
    total := 0;
    var todo := table.Keys;
    ghost var seen: map<K, V> := map[];
    while todo != {}
      invariant todo <= table.Keys
      invariant seen == map k | k in table && k !in todo :: table[k]
      invariant total == MapSum(seen, f)
      decreases todo
    {
      var k :| k in todo;
      MapSumInsert(seen, f, k, table[k]);
      seen := seen[k := table[k]];
      total := total + f(k, table[k]);
      todo := todo - {k};
    }
    assert seen == table;
  }

  /** readLedgerCheckpoint; nothing without an open custody account, or when its numbers are not amounts. */
  method LedgerCheckpoint(db: Database, asset: string) returns (checkpoint: Option<Checkpoint>)
    ensures checkpoint == if CheckpointAvailable(db.View(), asset) then Some(Wallets.ReadCheckpoint(db.View(), asset)) else None
    ensures forall c :: checkpoint == Some(c) <==> ScanStatements.Reads(db.View(), asset, c)
  {
    forall c ensures ScanStatements.Reads(db.View(), asset, c) <==> CheckpointAvailable(db.View(), asset) && c == Wallets.ReadCheckpoint(db.View(), asset) {
      ScanStatements.ReadsExact(db.View(), asset, c);
    }
    hide ScanStatements.Reads;
    if Custody(asset) !in db.accounts || db.accounts[Custody(asset)] == Closed {
      return None;
    }
    var entryCount := SumTable(db.journals, HitsOf(Custody(asset)));
    var balance := db.AccountBalance(Custody(asset));
    var payoutCount := SumTable(db.payouts, Wallets.PayoutInFlightRow(asset));
    var payoutAmount := SumTable(db.payouts, Wallets.PayoutInFlight(asset));
    var sweepCount := SumTable(db.sweeps, Wallets.SweepInFlightRow(asset));
    var sweepAmount := SumTable(db.sweeps, Wallets.SweepInFlight(asset));
    var c := Checkpoint(entryCount, balance, payoutCount, payoutAmount, sweepCount, sweepAmount);
    checkpoint := if ReadableCheckpoint(c) then Some(c) else None;
  }

  // ---------- one capture ----------

  /** The wallet reads of a capture, one per wallet. */
  function Reads(wallets: nat): seq<CaptureAction> {
    seq(wallets, i => CaptureBalance)
  }

  /** All calls of a capture: checkpoint, head, every wallet, head, checkpoint, save. */
  function WholeCapture(asset: string, wallets: nat): seq<CaptureAction> {
    [CaptureBefore(asset), CaptureStartHead] + Reads(wallets) + [CaptureEndHead, CaptureAfter, CaptureSave]
  }

  class Capturer {
    const world: Workers.World
    const name: string
    const asset: string

    constructor (world: Workers.World, name: string, asset: string)
      ensures this.world == world && this.name == name && this.asset == asset
    {
      this.world, this.name, this.asset := world, name, asset;
    }

    ghost predicate Ready()
      reads this, world, world.db, world.signer, world.node
    {
      world.Valid() && name in world.procs && asset in world.cfg.wallets && world.cfg.wallets[asset] != []
    }

    ghost function Calls(): seq<CaptureAction>
      reads this, world
    {
      Workers.Own(world.actions, name, Workers.CaptureOf)
    }

    method Pause(ghost pc: Pc)
      requires Ready() && world.Stands(name, pc)
      modifies world.Objects()
      ensures Ready() && world.Stands(name, pc) && Calls() == old(Calls())
    {
      ghost var before := world.actions;
      world.Others(name);
      Workers.OwnOthers(before, world.actions, name, Workers.CaptureOf);
    }

    /** The capture's own step, recorded. */
    ghost method Made(x: CaptureAction, next: Pc)
      requires world.payouts.db == world.db && world.payouts.cfg == world.cfg && world.service.store == world.signer && world.service.cfg == world.cfg
      requires world.db.Valid() && world.node.Valid() && Run(world.cfg, world.states, world.actions) && name in world.procs
      requires
        var last := world.states[|world.actions|];
        && last == State(last.db, world.signer.records, world.node.View(), world.procs, world.log)
        && CaptureNext(world.cfg, last.db, last.chain, world.procs[name].pc, x, world.db.View(), next)
      modifies world`procs, world`states, world`actions
      ensures world.Valid() && world.Stands(name, next) && world.procs.Keys == old(world.procs.Keys)
      ensures Calls() == old(Calls()) + [x]
    {
      Workers.OwnStep(world.actions, name, Workers.CaptureOf, Action.Capture(name, x));
      world.CaptureStep(name, x, next);
    }

    method Before() returns (before: Option<Checkpoint>)
      requires Ready() && world.Stands(name, Idle)
      modifies world.Objects()
      ensures Ready() && world.Stands(name, if before.Some? then CaptureBegun(asset, before.value) else Idle)
      ensures before.Some? ==> ReadableCheckpoint(before.value)
      ensures Calls() == old(Calls()) + [CaptureBefore(asset)]
    {
      hide Run, ValidChain, JournalsUnique, Wallets.ReadCheckpoint;
      before := LedgerCheckpoint(world.db, asset);
      Made(CaptureBefore(asset), if before.Some? then CaptureBegun(asset, before.value) else Idle);
    }

    method StartHead(before: Checkpoint) returns (head: Header)
      requires Ready() && world.Stands(name, CaptureBegun(asset, before))
      modifies world.Objects()
      ensures Ready() && world.Stands(name, CaptureReading(asset, before, head, []))
      ensures Calls() == old(Calls()) + [CaptureStartHead]
    {
      hide Run, JournalsUnique;
      head := world.node.blocks[world.node.solidified].header;
      Made(CaptureStartHead, CaptureReading(asset, before, head, []));
    }

    /** One wallet's balance; a total beyond 2^256 ends the capture. */
    method NextBalance(before: Checkpoint, head: Header, balances: seq<int>) returns (more: Option<seq<int>>)
      requires Ready() && world.Stands(name, CaptureReading(asset, before, head, balances)) && |balances| < |world.cfg.wallets[asset]|
      modifies world.Objects()
      ensures Ready() && world.Stands(name, if more.Some? then CaptureReading(asset, before, head, more.value) else Idle)
      ensures more.Some? ==> |more.value| == |balances| + 1
      ensures Calls() == old(Calls()) + [CaptureBalance]
    {
      hide Run, JournalsUnique, TokenBalance;
      var amount := TokenBalance(world.node.blocks[..world.node.solidified + 1], asset, world.cfg.wallets[asset][|balances|]);
      var all := balances + [amount];
      more := if Parsable(amount) && Parsable(Wallets.Total(all)) then Some(all) else None;
      Made(CaptureBalance, if more.Some? then CaptureReading(asset, before, head, more.value) else Idle);
    }

    method EndHead(before: Checkpoint, head: Header, balances: seq<int>) returns (same: bool)
      requires Ready() && world.Stands(name, CaptureReading(asset, before, head, balances)) && |balances| == |world.cfg.wallets[asset]|
      modifies world.Objects()
      ensures Ready() && world.Stands(name, if same then CaptureRead(asset, before, head, balances) else Idle)
      ensures Calls() == old(Calls()) + [CaptureEndHead]
    {
      hide Run, JournalsUnique;
      same := world.node.blocks[world.node.solidified].header == head;
      Made(CaptureEndHead, if same then CaptureRead(asset, before, head, balances) else Idle);
    }

    method After(before: Checkpoint, head: Header, balances: seq<int>) returns (snapshot: Option<Snapshot>)
      requires Ready() && world.Stands(name, CaptureRead(asset, before, head, balances)) && ReadableCheckpoint(before)
      modifies world.Objects()
      ensures Ready() && world.Stands(name, if snapshot.Some? then CaptureDone(snapshot.value) else Idle)
      ensures snapshot.Some? ==> snapshot.value == Snapshot(asset, head, balances, Wallets.Total(balances), before)
      ensures Calls() == old(Calls()) + [CaptureAfter]
    {
      hide Run, ValidChain, JournalsUnique, Wallets.ReadCheckpoint;
      var after := LedgerCheckpoint(world.db, asset);
      snapshot := if after == Some(before) then Some(Snapshot(asset, head, balances, Wallets.Total(balances), before)) else None;
      Made(CaptureAfter, if snapshot.Some? then CaptureDone(snapshot.value) else Idle);
    }

    /** SaveSnapshot: insert the run if the checkpoint still holds. */
    method Save(snapshot: Snapshot) returns (saved: bool)
      requires Ready() && world.Stands(name, CaptureDone(snapshot)) && snapshot.asset == asset && ReadableCheckpoint(snapshot.ledger)
      modifies world.Objects()
      ensures Ready() && world.Stands(name, Idle)
      ensures world.db.snapshots == if saved then old(world.db.snapshots) + [snapshot] else old(world.db.snapshots)
      ensures Calls() == old(Calls()) + [CaptureSave]
    {
      hide Run, ValidChain, JournalsUnique, Wallets.ReadCheckpoint;
      var now := LedgerCheckpoint(world.db, asset);
      saved := now == Some(snapshot.ledger);
      if saved {
        world.db.snapshots := world.db.snapshots + [snapshot];
      }
      Made(CaptureSave, Idle);
    }

    /** CaptureSnapshot and SaveSnapshot; a capture that fails stops at the call that failed. */
    method Capture() returns (saved: Option<Snapshot>)
      requires Ready() && world.Stands(name, Idle)
      modifies world.Objects()
      ensures Ready() && world.Stands(name, Idle)
      ensures saved.Some? ==> saved.value in world.db.snapshots && saved.value.asset == asset && |saved.value.balances| == |world.cfg.wallets[asset]|
      ensures saved.Some? ==> Calls() == old(Calls()) + WholeCapture(asset, |world.cfg.wallets[asset]|)
      ensures saved.None? ==> old(Calls()) < Calls() <= old(Calls()) + WholeCapture(asset, |world.cfg.wallets[asset]|)
    {
      hide Workers.World.Valid, Calls, Workers.World.Stands, Wallets.ReadCheckpoint, Reads, AllReads;
      ghost var start, wallets := Calls(), |world.cfg.wallets[asset]|;
      WholeInParts(asset, wallets);
      var before := Before();
      ghost var begun := Calls();
      if before.None? {
        return None;
      }
      var head, balances := Collect(before.value);
      assert begun + AllReads(wallets) + [CaptureAfter, CaptureSave] == start + WholeCapture(asset, wallets);
      if balances.None? {
        return None;
      }
      Pause(CaptureRead(asset, before.value, head, balances.value));
      var snapshot := After(before.value, head, balances.value);
      assert Calls() + [CaptureSave] == start + WholeCapture(asset, wallets);
      if snapshot.None? {
        return None;
      }
      Pause(CaptureDone(snapshot.value));
      var done := Save(snapshot.value);
      return if done then Some(snapshot.value) else None;
    }

    /** CollectSnapshot: the wallets one by one, between two reads of the head that must agree. */
    method Collect(before: Checkpoint) returns (head: Header, balances: Option<seq<int>>)
      requires Ready() && world.Stands(name, CaptureBegun(asset, before))
      modifies world.Objects()
      ensures Ready() && world.Stands(name, if balances.Some? then CaptureRead(asset, before, head, balances.value) else Idle)
      ensures balances.Some? ==> |balances.value| == |world.cfg.wallets[asset]| && Calls() == old(Calls()) + AllReads(|balances.value|)
      ensures balances.None? ==> old(Calls()) < Calls() <= old(Calls()) + AllReads(|world.cfg.wallets[asset]|)
    {
      hide Workers.World.Valid, Workers.World.Stands, TokenBalance, Calls, Reads;
      ghost var start, wallets := Calls(), |world.cfg.wallets[asset]|;
      ReadsGrow(0, wallets);
      Pause(CaptureBegun(asset, before));
      head := StartHead(before);
      var read: seq<int> := [];
      while |read| < |world.cfg.wallets[asset]|
        invariant Ready() && world.Stands(name, CaptureReading(asset, before, head, read)) && |read| <= |world.cfg.wallets[asset]|
        invariant Calls() == start + [CaptureStartHead] + Reads(|read|)
        decreases |world.cfg.wallets[asset]| - |read|
      {
        Pause(CaptureReading(asset, before, head, read));
        var more := NextBalance(before, head, read);
        ReadsGrow(|read| + 1, wallets);
        assert Calls() == start + [CaptureStartHead] + Reads(|read| + 1);
        if more.None? {
          return head, None;
        }
        read := more.value;
      }
      Pause(CaptureReading(asset, before, head, read));
      var same := EndHead(before, head, read);
      balances := if same then Some(read) else None;
    }
  }

  /** The calls of CollectSnapshot. */
  function AllReads(wallets: nat): seq<CaptureAction> {
    [CaptureStartHead] + Reads(wallets) + [CaptureEndHead]
  }

  lemma ReadsGrow(n: nat, wallets: nat)
    requires n <= wallets
    ensures Reads(n) <= Reads(wallets) && |Reads(n)| == n
    ensures n == 0 ==> Reads(n) == []
    ensures n > 0 ==> Reads(n) == Reads(n - 1) + [CaptureBalance]
  {
  }

  lemma WholeInParts(asset: string, wallets: nat)
    ensures WholeCapture(asset, wallets) == [CaptureBefore(asset)] + AllReads(wallets) + [CaptureAfter, CaptureSave]
  {
  }
}
