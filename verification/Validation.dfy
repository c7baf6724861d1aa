// Ledger validation on the source's own representation: text fields, a side byte, and int64 totals
// kept per trimmed asset id in a running map.
module Validation {
  import opened Prelude
  import opened Text

  newtype int64 = x: int | -0x8000_0000_0000_0000 <= x < 0x8000_0000_0000_0000

  const MAX: int64 := 0x7FFF_FFFF_FFFF_FFFF

  datatype Entry = Entry(accountId: string, assetId: string, side: bv8, amount: int64)

  datatype Transaction = Transaction(
    id: string, requesterType: string, requesterId: string, idempotencyKey: string,
    referenceType: string, referenceId: string, entries: seq<Entry>)

  const DEBIT: bv8 := 1
  const CREDIT: bv8 := 2

  datatype ValidationError =
    | TransactionIdRequired | IdempotencyRequired | RequesterRequired | ReferenceRequired | EntriesRequired
    | AccountIdRequired(line: nat) | AssetIdRequired(line: nat) | InvalidAmount(line: nat) | InvalidSide(line: nat)
    | AmountOverflow(asset: string) | Unbalanced(asset: string)

  // ---------- the specification: unbounded sums ----------

  predicate FieldsPresent(t: Transaction) {
    !Blank(t.id) && !Blank(t.idempotencyKey) && !Blank(t.requesterType) && !Blank(t.requesterId)
    && !Blank(t.referenceType) && !Blank(t.referenceId)
  }

  predicate WellFormed(e: Entry) {
    !Blank(e.accountId) && !Blank(e.assetId) && e.amount > 0 && (e.side == DEBIT || e.side == CREDIT)
  }

  /** Exact sum of one side of one asset. */
  function Sum(entries: seq<Entry>, asset: string, side: bv8): int {
    if entries == [] then 0
    else
      var e := entries[|entries| - 1];
      Sum(entries[..|entries| - 1], asset, side) + (if TrimSpace(e.assetId) == asset && e.side == side then e.amount as int else 0)
  }

  predicate Fits(x: int) {
    x <= MAX_INT64
  }

  /** What it means for a transaction to be postable, over unbounded integers. */
  ghost predicate Postable(t: Transaction) {
    && FieldsPresent(t) && |t.entries| >= 2
    && (forall i :: 0 <= i < |t.entries| ==> WellFormed(t.entries[i]))
    && (forall asset :: Sum(t.entries, asset, DEBIT) == Sum(t.entries, asset, CREDIT) && Fits(Sum(t.entries, asset, DEBIT)))
  }

  // ---------- the loop ----------

  datatype Totals = Totals(debit: int64, credit: int64)

  function TotalsOf(totals: map<string, Totals>, asset: string): Totals {
    if asset in totals then totals[asset] else Totals(0, 0)
  }

  /** The running totals are the exact sums so far, and the map holds exactly the assets seen. */
  ghost predicate Tracks(totals: map<string, Totals>, entries: seq<Entry>) {
    && (forall asset :: TotalsOf(totals, asset).debit as int == Sum(entries, asset, DEBIT)
                        && TotalsOf(totals, asset).credit as int == Sum(entries, asset, CREDIT))
    && (forall i :: 0 <= i < |entries| ==> TrimSpace(entries[i].assetId) in totals)
  }

  lemma SumStep(entries: seq<Entry>, i: nat, asset: string, side: bv8)
    requires i < |entries|
    ensures Sum(entries[..i + 1], asset, side)
         == Sum(entries[..i], asset, side) + (if TrimSpace(entries[i].assetId) == asset && entries[i].side == side then entries[i].amount as int else 0)
  {
    assert entries[..i + 1][..i] == entries[..i];
  }

  /** Positive amounts only grow a sum. */
  lemma {:induction false} SumGrows(entries: seq<Entry>, i: nat, asset: string, side: bv8)
    requires i <= |entries| && forall j :: 0 <= j < |entries| ==> entries[j].amount > 0
    ensures 0 <= Sum(entries[..i], asset, side) <= Sum(entries, asset, side)
    decreases |entries| - i
  {
    if i == |entries| {
      assert entries[..i] == entries;
      SumNonneg(entries, asset, side);
    } else {
      SumGrows(entries, i + 1, asset, side);
      SumStep(entries, i, asset, side);
      SumNonneg(entries[..i], asset, side);
    }
  }

  lemma {:induction false} SumNonneg(entries: seq<Entry>, asset: string, side: bv8)
    requires forall j :: 0 <= j < |entries| ==> entries[j].amount > 0
    ensures 0 <= Sum(entries, asset, side)
  {
    if entries != [] {
      SumNonneg(entries[..|entries| - 1], asset, side);
    }
  }

  lemma TracksStep(totals: map<string, Totals>, entries: seq<Entry>, i: nat, asset: string, next: Totals)
    requires i < |entries| && Tracks(totals, entries[..i]) && asset == TrimSpace(entries[i].assetId)
    requires next.debit as int == TotalsOf(totals, asset).debit as int + (if entries[i].side == DEBIT then entries[i].amount as int else 0)
    requires next.credit as int == TotalsOf(totals, asset).credit as int + (if entries[i].side == CREDIT then entries[i].amount as int else 0)
    ensures Tracks(totals[asset := next], entries[..i + 1])
  {
    var after := totals[asset := next];
    forall a ensures TotalsOf(after, a).debit as int == Sum(entries[..i + 1], a, DEBIT)
      ensures TotalsOf(after, a).credit as int == Sum(entries[..i + 1], a, CREDIT)
    {
      SumStep(entries, i, a, DEBIT);
      SumStep(entries, i, a, CREDIT);
    }
  }

  /** A failed entry check or a would-be overflow shows the transaction is not postable. */
  lemma OverflowRejects(t: Transaction, i: nat, asset: string, side: bv8, total: int)
    requires i < |t.entries| && asset == TrimSpace(t.entries[i].assetId) && side == t.entries[i].side && (side == DEBIT || side == CREDIT)
    requires total == Sum(t.entries[..i], asset, side) && total > MAX_INT64 - t.entries[i].amount as int
    ensures !Postable(t)
  {
    SumStep(t.entries, i, asset, side);
    if forall j :: 0 <= j < |t.entries| ==> t.entries[j].amount > 0 {
      SumGrows(t.entries, i + 1, asset, side);
      assert !Fits(Sum(t.entries, asset, side));
      assert !(Sum(t.entries, asset, DEBIT) == Sum(t.entries, asset, CREDIT) && Fits(Sum(t.entries, asset, DEBIT)));
    } else {
      var j :| 0 <= j < |t.entries| && !(t.entries[j].amount > 0);
      assert !WellFormed(t.entries[j]);
    }
  }

  /** Accepts exactly the postable transactions; the int64 totals never overflow on the way. */
  method ValidateTransaction(t: Transaction) returns (error: Option<ValidationError>)
    ensures error.None? <==> Postable(t)
  {
    TrimEmptyIffBlank(t.id);
    TrimEmptyIffBlank(t.idempotencyKey);
    TrimEmptyIffBlank(t.requesterType);
    TrimEmptyIffBlank(t.requesterId);
    TrimEmptyIffBlank(t.referenceType);
    TrimEmptyIffBlank(t.referenceId);
    if TrimSpace(t.id) == "" {
      return Some(TransactionIdRequired);
    }
    if TrimSpace(t.idempotencyKey) == "" {
      return Some(IdempotencyRequired);
    }
    if TrimSpace(t.requesterType) == "" || TrimSpace(t.requesterId) == "" {
      return Some(RequesterRequired);
    }
    if TrimSpace(t.referenceType) == "" || TrimSpace(t.referenceId) == "" {
      return Some(ReferenceRequired);
    }
    if |t.entries| < 2 {
      return Some(EntriesRequired);
    }
    var totals: map<string, Totals>;
    error, totals := AddEntries(t);
    if error.Some? {
      return;
    }
    error := CompareTotals(t, totals);
  }

  method AddEntries(t: Transaction) returns (error: Option<ValidationError>, totals: map<string, Totals>)
    ensures error.Some? ==> !Postable(t)
    ensures error.None? ==> Tracks(totals, t.entries) && (forall i :: 0 <= i < |t.entries| ==> WellFormed(t.entries[i]))
  {
    totals := map[];
    error := None;
    for i := 0 to |t.entries|
      invariant Tracks(totals, t.entries[..i])
      invariant forall j :: 0 <= j < i ==> WellFormed(t.entries[j])
    {
      var entry := t.entries[i];
      TrimEmptyIffBlank(entry.accountId);
      TrimEmptyIffBlank(entry.assetId);
      if TrimSpace(entry.accountId) == "" {
        return Some(AccountIdRequired(i + 1)), totals;
      }
      var asset := TrimSpace(entry.assetId);
      if asset == "" {
        return Some(AssetIdRequired(i + 1)), totals;
      }
      if entry.amount <= 0 {
        return Some(InvalidAmount(i + 1)), totals;
      }
      var total := TotalsOf(totals, asset);
      if entry.side == DEBIT {
        if total.debit > MAX - entry.amount {
          OverflowRejects(t, i, asset, DEBIT, total.debit as int);
          return Some(AmountOverflow(asset)), totals;
        }
        total := total.(debit := total.debit + entry.amount);
      } else if entry.side == CREDIT {
        if total.credit > MAX - entry.amount {
          OverflowRejects(t, i, asset, CREDIT, total.credit as int);
          return Some(AmountOverflow(asset)), totals;
        }
        total := total.(credit := total.credit + entry.amount);
      } else {
        return Some(InvalidSide(i + 1)), totals;
      }
      TracksStep(totals, t.entries, i, asset, total);
      totals := totals[asset := total];
    }
    assert t.entries[..|t.entries|] == t.entries;
  }

  method CompareTotals(t: Transaction, totals: map<string, Totals>) returns (error: Option<ValidationError>)
    requires FieldsPresent(t) && |t.entries| >= 2
    requires Tracks(totals, t.entries) && forall i :: 0 <= i < |t.entries| ==> WellFormed(t.entries[i])
    ensures error.None? <==> Postable(t)
  {
    var todo := totals.Keys;
    while todo != {}
      invariant todo <= totals.Keys
      invariant forall asset :: asset in totals && asset !in todo ==> totals[asset].debit == totals[asset].credit
      decreases todo
    {
      var asset :| asset in todo;
      if totals[asset].debit != totals[asset].credit {
        assert TotalsOf(totals, asset) == totals[asset];
        assert Sum(t.entries, asset, DEBIT) != Sum(t.entries, asset, CREDIT);
        return Some(Unbalanced(asset));
      }
      todo := todo - {asset};
    }
    forall asset ensures Sum(t.entries, asset, DEBIT) == Sum(t.entries, asset, CREDIT) && Fits(Sum(t.entries, asset, DEBIT)) {
      assert TotalsOf(totals, asset).debit == TotalsOf(totals, asset).credit;
    }
    error := None;
  }
}
