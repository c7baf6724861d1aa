// Text helpers of the source's standard library, over Unicode characters.
module Text {

  /** unicode.IsSpace. */
  predicate IsSpace(c: char) {
    || 9 <= c as int <= 13 || c == ' ' || c as int == 0x85 || c as int == 0xA0
    || c as int == 0x1680 || 0x2000 <= c as int <= 0x200A || c as int == 0x2028 || c as int == 0x2029
    || c as int == 0x202F || c as int == 0x205F || c as int == 0x3000
  }

  function TrimSpace(s: string): string {
    if s != [] && IsSpace(s[0]) then TrimSpace(s[1..])
    else if s != [] && IsSpace(s[|s| - 1]) then TrimSpace(s[..|s| - 1])
    else s
  }

  predicate Blank(s: string) {
    forall c :: c in s ==> IsSpace(c)
  }

  lemma {:induction false} TrimEmptyIffBlank(s: string)
    ensures TrimSpace(s) == "" <==> Blank(s)
  {
    if s != [] && IsSpace(s[0]) {
      TrimEmptyIffBlank(s[1..]);
      assert s == [s[0]] + s[1..];
    } else if s != [] && IsSpace(s[|s| - 1]) {
      TrimEmptyIffBlank(s[..|s| - 1]);
      assert s == s[..|s| - 1] + [s[|s| - 1]];
    } else if s != [] {
      assert s[0] in s;
    }
  }

  /** Trimming drops the spaces at both ends and nothing else. */
  lemma {:induction false} TrimExact(s: string) returns (i: nat, j: nat)
    ensures i <= j <= |s| && TrimSpace(s) == s[i..j]
    ensures forall k :: 0 <= k < i || j <= k < |s| ==> IsSpace(s[k])
    ensures i < j ==> !IsSpace(s[i]) && !IsSpace(s[j - 1])
    decreases |s|
  {
    if s != [] && IsSpace(s[0]) {
      i, j := TrimExact(s[1..]);
      assert forall k :: 1 <= k < |s| ==> s[k] == s[1..][k - 1];
      i, j := i + 1, j + 1;
    } else if s != [] && IsSpace(s[|s| - 1]) {
      i, j := TrimExact(s[..|s| - 1]);
    } else {
      i, j := 0, |s|;
    }
  }

  /** Text without space at either end is left as it is. */
  lemma TrimKeeps(s: string)
    requires s != "" ==> !IsSpace(s[0]) && !IsSpace(s[|s| - 1])
    ensures TrimSpace(s) == s
  {
  }

  lemma {:induction false} TrimTwice(s: string)
    ensures TrimSpace(TrimSpace(s)) == TrimSpace(s)
    decreases |s|
  {
    if s != [] && IsSpace(s[0]) {
      TrimTwice(s[1..]);
    } else if s != [] && IsSpace(s[|s| - 1]) {
      TrimTwice(s[..|s| - 1]);
    }
  }

  function LowerChar(c: char): char {
    if 'A' <= c <= 'Z' then ((c as int) + 32) as char else c
  }

  /** strings.ToLower. */
  function Lower(s: string): string {
    seq(|s|, i requires 0 <= i < |s| => LowerChar(s[i]))
  }

  predicate LowerHexDigit(c: char) {
    '0' <= c <= '9' || 'a' <= c <= 'f'
  }

  predicate HexDigit(c: char) {
    LowerHexDigit(c) || 'A' <= c <= 'F'
  }

  /** ValidUUID: five groups of hexadecimal digits, in either case, joined by hyphens. */
  predicate ValidUUID(s: string) {
    |s| == 36 && forall i :: 0 <= i < 36 ==> if i == 8 || i == 13 || i == 18 || i == 23 then s[i] == '-' else HexDigit(s[i])
  }

  /** Four hyphens in their places, and without them 32 hexadecimal digits. */
  lemma UUIDExact(s: string)
    requires |s| == 36
    ensures
      var compact := s[..8] + s[9..13] + s[14..18] + s[19..23] + s[24..];
      ValidUUID(s) <==>
        && s[8] == '-' && s[13] == '-' && s[18] == '-' && s[23] == '-'
        && forall c :: c in compact ==> '0' <= c <= '9' || 'a' <= c <= 'f' || 'A' <= c <= 'F'
  {
    var compact := s[..8] + s[9..13] + s[14..18] + s[19..23] + s[24..];
    forall i | 0 <= i < 36 && i != 8 && i != 13 && i != 18 && i != 23 ensures s[i] in compact {
      var k := if i < 8 then i else if i < 13 then i - 1 else if i < 18 then i - 2 else if i < 23 then i - 3 else i - 4;
      assert compact[k] == s[i];
    }
    forall c | c in compact ensures exists i :: 0 <= i < 36 && i != 8 && i != 13 && i != 18 && i != 23 && s[i] == c {
      var k :| 0 <= k < 32 && compact[k] == c;
      var i := if k < 8 then k else if k < 12 then k + 1 else if k < 16 then k + 2 else if k < 20 then k + 3 else k + 4;
      assert s[i] == c;
    }
  }
}
