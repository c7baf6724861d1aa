// Decimal texts of token amounts: parsing accepts exactly the canonical texts of the values below
// 2^256, so comparing texts and comparing values is the same.
module Amounts {
  import opened Prelude

  predicate IsDigit(c: char) {
    '0' <= c <= '9'
  }

  predicate Digits(s: string) {
    forall i :: 0 <= i < |s| ==> IsDigit(s[i])
  }

  /** No leading zero, except the text "0". */
  predicate Canonical(s: string) {
    s != "" && Digits(s) && (|s| > 1 ==> s[0] != '0')
  }

  function DigitValue(c: char): nat
    requires IsDigit(c)
  {
    c as int - '0' as int
  }

  function ValueOf(s: string): nat
    requires Digits(s)
  {
    if s == "" then 0 else 10 * ValueOf(s[..|s| - 1]) + DigitValue(s[|s| - 1])
  }

  function Power(base: nat, exponent: nat): nat {
    if exponent == 0 then 1 else base * Power(base, exponent - 1)
  }

  /** A text with n digits is below 10^n, and one without leading zero is at least 10^(n-1). */
  lemma {:induction false} ValueBounds(s: string)
    requires Digits(s)
    ensures ValueOf(s) < Power(10, |s|)
    ensures s != "" && s[0] != '0' ==> Power(10, |s| - 1) <= ValueOf(s)
  {
    if s != "" {
      ValueBounds(s[..|s| - 1]);
    }
  }

  lemma {:induction false} PowerGrows(base: nat, m: nat, n: nat)
    requires base > 0 && m <= n
    ensures 0 < Power(base, m) <= Power(base, n)
    decreases n
  {
    if m < n {
      PowerGrows(base, m, n - 1);
    } else if m > 0 {
      PowerGrows(base, m - 1, n - 1);
    }
  }

  /** Texts of the same length and value are the same text. */
  lemma {:induction false} SameLengthUnique(a: string, b: string)
    requires Digits(a) && Digits(b) && |a| == |b| && ValueOf(a) == ValueOf(b)
    ensures a == b
  {
    if a != "" {
      SameLengthUnique(a[..|a| - 1], b[..|b| - 1]);
      assert a == a[..|a| - 1] + [a[|a| - 1]] && b == b[..|b| - 1] + [b[|b| - 1]];
    }
  }

  lemma ShorterIsSmaller(a: string, b: string)
    requires Canonical(a) && Canonical(b) && |a| < |b|
    ensures ValueOf(a) < ValueOf(b)
  {
    ValueBounds(a);
    ValueBounds(b);
    PowerGrows(10, |a|, |b| - 1);
  }

  /** A value has one canonical text: equal values, equal texts. */
  lemma CanonicalUnique(a: string, b: string)
    requires Canonical(a) && Canonical(b)
    ensures ValueOf(a) == ValueOf(b) <==> a == b
  {
    if |a| < |b| {
      ShorterIsSmaller(a, b);
    } else if |b| < |a| {
      ShorterIsSmaller(b, a);
    } else if ValueOf(a) == ValueOf(b) {
      SameLengthUnique(a, b);
    }
  }

  /** The length check never rejects a value below 2^256. */
  lemma SmallIsShort(s: string)
    requires Canonical(s) && ValueOf(s) < TWO_256
    ensures |s| <= 78
  {
    if |s| > 78 {
      ValueBounds(s);
      PowerGrows(10, 78, |s| - 1);
      TenTo78();
    }
  }

  lemma TenTo78()
    ensures TWO_256 < Power(10, 78)
  {
    TenTo26();
    PowerAdds(10, 26, 26);
    PowerAdds(10, 52, 26);
  }

  lemma {:induction false} PowerAdds(base: nat, m: nat, n: nat)
    ensures Power(base, m + n) == Power(base, m) * Power(base, n)
    decreases n
  {
    if n > 0 {
      PowerAdds(base, m, n - 1);
      assert Power(base, m + n) == base * Power(base, m + n - 1);
      assert base * (Power(base, m) * Power(base, n - 1)) == Power(base, m) * (base * Power(base, n - 1));
    }
  }

  lemma TenTo26()
    ensures Power(10, 26) == 100_000_000_000_000_000_000_000_000
  {
    assert Power(10, 6) == 1_000_000;
    PowerAdds(10, 6, 6);
    PowerAdds(10, 12, 12);
    PowerAdds(10, 24, 2);
    assert Power(10, 2) == 100;
  }

  /** strconv.ParseInt(text, 10, 64): an optional sign and digits, within int64. */
  function ParsedInt64(text: string): Option<int> {
    var signed := text != "" && (text[0] == '+' || text[0] == '-');
    var digits := if signed then text[1..] else text;
    if digits == "" || !Digits(digits) then None
    else
      var n: int := if signed && text[0] == '-' then 0 - ValueOf(digits) else ValueOf(digits);
      if -MAX_INT64 - 1 <= n <= MAX_INT64 then Some(n) else None
  }

  /** big.Int.String of a non-negative value. */
  function Decimal(n: nat): (s: string)
    ensures Canonical(s) && ValueOf(s) == n
  {
    if n < 10 then [DigitOf(n)] else Decimal(n / 10) + [DigitOf(n % 10)]
  }

  function DigitOf(n: nat): (c: char)
    requires n < 10
    ensures IsDigit(c) && DigitValue(c) == n
  {
    ('0' as int + n) as char
  }

  /** parseAmount. */
  method ParseAmount(text: string) returns (value: Option<nat>)
    ensures value.Some? <==> Canonical(text) && ValueOf(text) < TWO_256
    ensures value.Some? ==> value.value == ValueOf(text)
  {
    if Canonical(text) && ValueOf(text) < TWO_256 {
      SmallIsShort(text);
    }
    if text == "" || |text| > 78 || (|text| > 1 && text[0] == '0') {
      return None;
    }
    var total: nat := 0;
    for i := 0 to |text|
      invariant Digits(text[..i]) && total == ValueOf(text[..i])
    {
      if text[i] < '0' || text[i] > '9' {
        return None;
      }
      assert text[..i + 1][..i] == text[..i];
      total := 10 * total + DigitValue(text[i]);
    }
    assert text[..|text|] == text;
    value := if total < TWO_256 then Some(total) else None;
  }
}
