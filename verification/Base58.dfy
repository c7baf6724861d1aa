// Positional notation between two bases, with leading zeros kept as leading zeros: the heart of the
// Base58 codec, and the two loops of the codec over big integers.
module Base58 {
  import opened Amounts

  type byte = x: int | 0 <= x < 256 witness 0

  // ---------- numbers and digits ----------

  predicate InBase(ds: seq<int>, base: nat) {
    forall i :: 0 <= i < |ds| ==> 0 <= ds[i] < base
  }

  /** Big-endian value. */
  function Number(ds: seq<int>, base: nat): nat
    requires InBase(ds, base)
  {
    if ds == [] then 0 else Number(ds[..|ds| - 1], base) * base + ds[|ds| - 1]
  }

  lemma DivMod(n: nat, base: nat)
    requires base > 0
    ensures n == (n / base) * base + n % base && 0 <= n % base < base && 0 <= n / base
  {
  }

  lemma DivBounds(n: nat, base: nat, low: nat, high: nat)
    requires base > 0 && low * base <= n < high * base
    ensures low <= n / base < high
  {
    DivMod(n, base);
    var q := n / base;
    if q < low {
      MulLe(q + 1, low, base);
    }
    if q >= high {
      MulLe(high, q, base);
    }
  }

  lemma MulLe(a: nat, b: nat, c: nat)
    requires a <= b
    ensures a * c <= b * c
  {
  }

  lemma DivSmaller(n: nat, base: nat)
    requires n > 0 && base > 1
    ensures n / base < n
  {
    MulLe(2, base, n);
    DivBounds(n, base, 0, n);
  }

  /** Big-endian digits without leading zero; zero has none. */
  function Digits(n: nat, base: nat): (ds: seq<int>)
    requires base > 1
    ensures InBase(ds, base)
    decreases n
  {
    if n == 0 then []
    else
      DivSmaller(n, base);
      DivMod(n, base);
      Digits(n / base, base) + [n % base]
  }

  function Zeros(n: nat): seq<int> {
    seq(n, _ => 0)
  }

  function LeadingZeros(ds: seq<int>): (n: nat)
    ensures n <= |ds| && forall i :: 0 <= i < n ==> ds[i] == 0
  {
    if ds != [] && ds[0] == 0 then 1 + LeadingZeros(ds[1..]) else 0
  }

  lemma {:induction false} NumberOfDigits(n: nat, base: nat)
    requires base > 1
    ensures Number(Digits(n, base), base) == n
    ensures Digits(n, base) != [] ==> Digits(n, base)[0] != 0
    decreases n
  {
    if n > 0 {
      DivSmaller(n, base);
      DivMod(n, base);
      var q, r := n / base, n % base;
      NumberOfDigits(q, base);
      assert Digits(n, base) == Digits(q, base) + [r];
      assert (Digits(q, base) + [r])[..|Digits(q, base)|] == Digits(q, base);
      if q > 0 {
        assert Number(Digits(q, base), base) > 0;
        assert Digits(q, base) != [];
      }
    }
  }

  lemma DivStep(q: nat, r: nat, base: nat)
    requires r < base
    ensures (q * base + r) / base == q && (q * base + r) % base == r
  {
    var n := q * base + r;
    MulNext(q, base);
    DivBounds(n, base, q, q + 1);
    DivMod(n, base);
  }

  lemma MulNext(q: nat, base: nat)
    ensures (q + 1) * base == q * base + base
  {
  }

  /** Digits without leading zero are recovered from their value. */
  lemma {:induction false} DigitsOfNumber(ds: seq<int>, base: nat)
    requires base > 1 && InBase(ds, base) && (ds != [] ==> ds[0] != 0)
    ensures Digits(Number(ds, base), base) == ds
    ensures ds != [] ==> Number(ds, base) > 0
  {
    if ds != [] {
      var init, last := ds[..|ds| - 1], ds[|ds| - 1];
      DigitsOfNumber(init, base);
      DivStep(Number(init, base), last, base);
      assert ds == init + [last];
      if init != [] {
        assert Number(init, base) * base >= 1;
      }
    }
  }

  /** Leading zeros do not change the value. */
  lemma {:induction false} ZerosDoNotCount(n: nat, ds: seq<int>, base: nat)
    requires InBase(ds, base) && base > 0
    ensures InBase(Zeros(n) + ds, base) && Number(Zeros(n) + ds, base) == Number(ds, base)
    decreases |ds|, n
  {
    if ds != [] {
      ZerosDoNotCount(n, ds[..|ds| - 1], base);
      assert (Zeros(n) + ds)[..n + |ds| - 1] == Zeros(n) + ds[..|ds| - 1];
    } else if n > 0 {
      ZerosDoNotCount(n - 1, ds, base);
      assert (Zeros(n) + ds)[..n - 1] == Zeros(n - 1) + ds;
    }
  }

  lemma {:induction false} SplitZeros(ds: seq<int>)
    ensures ds == Zeros(LeadingZeros(ds)) + ds[LeadingZeros(ds)..]
    ensures ds[LeadingZeros(ds)..] != [] ==> ds[LeadingZeros(ds)..][0] != 0
  {
    if ds != [] && ds[0] == 0 {
      SplitZeros(ds[1..]);
      assert ds[LeadingZeros(ds)..] == ds[1..][LeadingZeros(ds[1..])..];
    }
  }

  lemma {:induction false} CountZeros(n: nat, ds: seq<int>)
    requires ds != [] ==> ds[0] != 0
    ensures LeadingZeros(Zeros(n) + ds) == n
    decreases n
  {
    if n > 0 {
      CountZeros(n - 1, ds);
      assert (Zeros(n) + ds)[1..] == Zeros(n - 1) + ds;
    }
  }

  // ---------- conversion ----------

  /** Leading zeros stay, the rest is the same number in the other base. */
  function Convert(ds: seq<int>, source: nat, target: nat): (r: seq<int>)
    requires source > 1 && target > 1 && InBase(ds, source)
    ensures InBase(r, target)
  {
    Zeros(LeadingZeros(ds)) + Digits(Number(ds, source), target)
  }

  /** Converting there and back restores every sequence, leading zeros included. */
  lemma ConvertBack(ds: seq<int>, source: nat, target: nat)
    requires source > 1 && target > 1 && InBase(ds, source)
    ensures Convert(Convert(ds, source, target), target, source) == ds
  {
    var z := LeadingZeros(ds);
    var rest := ds[z..];
    SplitZeros(ds);
    ZerosDoNotCount(z, rest, source);
    var n := Number(ds, source);
    NumberOfDigits(n, target);
    CountZeros(z, Digits(n, target));
    ZerosDoNotCount(z, Digits(n, target), target);
    DigitsOfNumber(rest, source);
  }

  /** The number of digits is fixed by the powers around the value. */
  lemma {:induction false} DigitCount(n: nat, base: nat, k: nat)
    requires base > 1 && Power(base, k) <= n < Power(base, k + 1)
    ensures |Digits(n, base)| == k + 1
    decreases k
  {
    PowerGrows(base, 0, k);
    DivMod(n, base);
    if k == 0 {
      DivBounds(n, base, 0, 1);
      assert Digits(n / base, base) == [];
    } else {
      MulSwap(base, Power(base, k - 1));
      MulSwap(base, Power(base, k));
      DivBounds(n, base, Power(base, k - 1), Power(base, k));
      DigitCount(n / base, base, k - 1);
    }
  }

  lemma MulSwap(a: nat, b: nat)
    ensures a * b == b * a
  {
  }

  lemma MulSwap3(a: nat, b: nat, c: nat)
    ensures a * (b * c) == (a * c) * b
  {
  }

  /** A number with a given leading digit lies between two multiples of a power. */
  lemma {:induction false} LeadingDigit(ds: seq<int>, base: nat)
    requires base > 1 && InBase(ds, base) && ds != []
    ensures ds[0] * Power(base, |ds| - 1) <= Number(ds, base) < (ds[0] + 1) * Power(base, |ds| - 1)
  {
    if |ds| == 1 {
      assert ds[..0] == [];
    } else {
      var init, last := ds[..|ds| - 1], ds[|ds| - 1];
      LeadingDigit(init, base);
      LeadingStep(ds[0], Power(base, |ds| - 2), Number(init, base), last, base);
    }
  }

  lemma LeadingStep(first: nat, p: nat, m: nat, last: nat, base: nat)
    requires last < base && first * p <= m < (first + 1) * p
    ensures first * (base * p) <= m * base + last < (first + 1) * (base * p)
  {
    MulSwap3(first, base, p);
    MulSwap3(first + 1, base, p);
    MulLe(first * p, m, base);
    MulLe(m + 1, (first + 1) * p, base);
    MulNext(m, base);
  }
}
