// The codec as the source writes it: accumulating loops over a big integer, buffers filled in
// place, and an in-place reversal.
module AddressCodec {
  import opened Prelude
  import opened Base58
  import opened Address

  /** strings.IndexRune in the alphabet; -1 when the character is not in it. */
  method IndexRune(c: char) returns (index: int)
    ensures index >= 0 ==> DigitOf(c) == Some(index)
    ensures index < 0 ==> DigitOf(c).None?
  {
    AlphabetSpells(0);
    for i := 0 to |ALPHABET|
      invariant forall j :: 0 <= j < i ==> CharOf(j) != c
    {
      AlphabetSpells(i);
      if ALPHABET[i] == c {
        CharDigit(i);
        return i;
      }
    }
    if DigitOf(c).Some? {
      DigitChar(c);
    }
    return -1;
  }

  lemma NumberStep(ds: seq<int>, i: nat, base: nat)
    requires InBase(ds, base) && i < |ds|
    ensures Number(ds[..i + 1], base) == Number(ds[..i], base) * base + ds[i]
  {
    assert ds[..i + 1][..i] == ds[..i];
  }

  lemma DigitsPrefix(s: string, i: nat)
    requires InAlphabet(s) && i <= |s|
    ensures InAlphabet(s[..i]) && DigitsOfText(s[..i]) == DigitsOfText(s)[..i]
  {
  }

  /** The digits of n are those of n / base followed by one more. */
  lemma DigitsStep(n: nat, base: nat)
    requires n > 0 && base > 1
    ensures n / base < n && 0 <= n % base < base && Digits(n, base) == Digits(n / base, base) + [n % base]
  {
    DivSmaller(n, base);
    DivMod(n, base);
  }

  /** big.Int.Bytes. */
  method NumberBytes(n: nat) returns (bytes: seq<int>)
    ensures bytes == Digits(n, 256)
  {
    bytes := [];
    var rest: nat := n;
    while rest > 0
      invariant Digits(n, 256) == Digits(rest, 256) + bytes
    {
      DigitsStep(rest, 256);
      bytes := [rest % 256] + bytes;
      rest := rest / 256;
      assert Digits(rest, 256) + bytes == Digits(n, 256);
    }
  }

  /** The number a text over the alphabet spells. */
  method ReadNumber(value: string) returns (number: Option<nat>)
    ensures number.Some? <==> InAlphabet(value)
    ensures number.Some? ==> number.value == Number(DigitsOfText(value), 58)
  {
    var total: nat := 0;
    for i := 0 to |value|
      invariant InAlphabet(value[..i]) && total == Number(DigitsOfText(value[..i]), 58)
    {
      var index := IndexRune(value[i]);
      if index < 0 {
        return None;
      }
      var more := value[..i + 1];
      assert forall j :: 0 <= j < i ==> more[j] == value[..i][j];
      DigitsPrefix(more, i);
      assert more[..i] == value[..i];
      NumberStep(DigitsOfText(more), i, 58);
      assert DigitsOfText(more)[..i + 1] == DigitsOfText(more);
      total := total * 58 + index;
    }
    assert value[..|value|] == value;
    number := Some(total);
  }

  lemma {:induction false} LeadingZerosAre(ds: seq<int>, n: nat)
    requires n <= |ds| && (forall i :: 0 <= i < n ==> ds[i] == 0) && (n < |ds| ==> ds[n] != 0)
    ensures LeadingZeros(ds) == n
  {
    if n > 0 {
      LeadingZerosAre(ds[1..], n - 1);
    }
  }

  /** How many leading characters are the digit zero. */
  method CountOnes(value: string) returns (leadingZeros: nat)
    requires InAlphabet(value)
    ensures leadingZeros == LeadingZeros(DigitsOfText(value))
  {
    leadingZeros := 0;
    while leadingZeros < |value| && value[leadingZeros] == '1'
      invariant leadingZeros <= |value|
      invariant forall i :: 0 <= i < leadingZeros ==> DigitsOfText(value)[i] == 0
    {
      leadingZeros := leadingZeros + 1;
    }
    LeadingZerosAre(DigitsOfText(value), leadingZeros);
  }

  /** make([]byte, zeros+len(decoded)) and copy. */
  method Padded(zeros: nat, decoded: seq<int>) returns (buffer: array<int>)
    ensures fresh(buffer) && buffer[..] == Zeros(zeros) + decoded
  {
    buffer := new int[zeros + |decoded|](_ => 0);
    for i := 0 to |decoded|
      invariant forall j :: 0 <= j < zeros ==> buffer[j] == 0
      invariant forall j :: 0 <= j < i ==> buffer[zeros + j] == decoded[j]
    {
      buffer[zeros + i] := decoded[i];
    }
  }

  /** decodeBase58: nothing for a foreign character, else leading zeros and the number's bytes. */
  method DecodeBase58(value: string) returns (result: Option<array<int>>)
    ensures result.Some? <==> Decode(value).Some?
    ensures result.Some? ==> fresh(result.value) && result.value[..] == Decode(value).value
  {
    hide Digits, Number, DigitsOfText, LeadingZeros;
    var number := ReadNumber(value);
    if number.None? {
      return None;
    }
    var decoded := NumberBytes(number.value);
    var leadingZeros := CountOnes(value);
    var buffer := Padded(leadingZeros, decoded);
    result := Some(buffer);
  }

  function Reversed(s: string): (r: string)
    ensures |r| == |s| && forall i :: 0 <= i < |s| ==> r[i] == s[|s| - 1 - i]
  {
    seq(|s|, i requires 0 <= i < |s| => s[|s| - 1 - i])
  }

  /** for left, right := 0, len-1; left < right: swap. */
  method ReverseInPlace(encoded: array<char>)
    modifies encoded
    ensures encoded[..] == Reversed(old(encoded[..]))
  {
    var n := encoded.Length;
    var left, right := 0, n - 1;
    while left < right
      invariant 0 <= left <= n && right == n - 1 - left && left <= right + 2
      invariant forall k :: 0 <= k < left ==> encoded[k] == old(encoded[n - 1 - k]) && encoded[n - 1 - k] == old(encoded[k])
      invariant forall k :: left <= k <= right ==> encoded[k] == old(encoded[k])
      decreases right - left
    {
      encoded[left], encoded[right] := encoded[right], encoded[left];
      left, right := left + 1, right - 1;
    }
    assert forall k :: 0 <= k < n ==> encoded[k] == old(encoded[n - 1 - k]);
  }

  /** SetBytes. */
  method NumberOf(bytes: seq<int>) returns (number: nat)
    requires Bytes(bytes)
    ensures number == Number(bytes, 256)
  {
    number := 0;
    for i := 0 to |bytes|
      invariant Bytes(bytes[..i]) && number == Number(bytes[..i], 256)
    {
      NumberStep(bytes, i, 256);
      number := number * 256 + bytes[i];
    }
    assert bytes[..|bytes|] == bytes;
  }

  lemma ReversedAppend(s: string, c: char)
    ensures Reversed(s + [c]) == [c] + Reversed(s)
  {
  }

  lemma TextOfAppend(a: seq<int>, b: seq<int>)
    requires InBase(a, 58) && InBase(b, 58)
    ensures InBase(a + b, 58) && TextOf(a + b) == TextOf(a) + TextOf(b)
  {
  }

  /** The remainders of repeated division, least significant first. */
  method LittleEndianText(n: nat) returns (encoded: string)
    ensures Reversed(encoded) == TextOf(Digits(n, 58))
  {
    encoded := "";
    var number := n;
    while number > 0
      invariant TextOf(Digits(n, 58)) == TextOf(Digits(number, 58)) + Reversed(encoded)
    {
      DigitsStep(number, 58);
      var remainder := number % 58;
      AlphabetSpells(remainder);
      TextOfAppend(Digits(number / 58, 58), [remainder]);
      ReversedAppend(encoded, ALPHABET[remainder]);
      assert TextOf([remainder]) == [ALPHABET[remainder]];
      encoded := encoded + [ALPHABET[remainder]];
      number := number / 58;
    }
  }

  lemma ZerosText(n: nat)
    ensures InBase(Zeros(n), 58) && TextOf(Zeros(n)) == seq(n, _ => '1')
  {
  }

  /** encodeBase58Check. */
  method EncodeBase58Check(check: Checksum, payload: seq<int>) returns (text: string)
    requires Bytes(payload)
    ensures text == EncodeCheck(check, payload)
  {
    var bytes := payload + CheckBytes(check, payload);
    var number := NumberOf(bytes);
    var encoded := LittleEndianText(number);
    ghost var digits := encoded;
    var zeros := 0;
    AlphabetSpells(0);
    while zeros < |bytes| && bytes[zeros] == 0
      invariant zeros <= |bytes| && encoded == digits + seq(zeros, _ => '1')
      invariant forall i :: 0 <= i < zeros ==> bytes[i] == 0
    {
      encoded := encoded + [ALPHABET[0]];
      zeros := zeros + 1;
    }
    LeadingZerosAre(bytes, zeros);
    var buffer := new char[|encoded|](i requires 0 <= i < |encoded| => encoded[i]);
    assert buffer[..] == encoded;
    ReverseInPlace(buffer);
    text := buffer[..];
    assert Reversed(encoded) == seq(zeros, _ => '1') + Reversed(digits);
    ZerosText(zeros);
    TextOfAppend(Zeros(zeros), Digits(number, 58));
  }
}
