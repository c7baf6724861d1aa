// TRON addresses: the Base58Check codec over an uninterpreted four-byte checksum, and the two
// normal forms of an address, Base58Check text and lower-case hexadecimal.
module Address {
  import opened Prelude
  import opened Text
  import opened Amounts
  import opened Base58

  const ALPHABET: string := "123456789" + "ABCDEFGH" + "JKLMN" + "PQRSTUVWXYZ" + "abcdefghijk" + "mnopqrstuvwxyz"

  // ---------- the alphabet ----------

  /** The character of a digit; the alphabet skips 0, I, O and l. */
  function CharOf(d: int): char
    requires 0 <= d < 58
  {
    if d < 9 then ('1' as int + d) as char
    else if d < 17 then ('A' as int + d - 9) as char
    else if d < 22 then ('J' as int + d - 17) as char
    else if d < 33 then ('P' as int + d - 22) as char
    else if d < 44 then ('a' as int + d - 33) as char
    else ('m' as int + d - 44) as char
  }

  function DigitOf(c: char): Option<int> {
    if '1' <= c <= '9' then Some(c as int - '1' as int)
    else if 'A' <= c <= 'H' then Some(c as int - 'A' as int + 9)
    else if 'J' <= c <= 'N' then Some(c as int - 'J' as int + 17)
    else if 'P' <= c <= 'Z' then Some(c as int - 'P' as int + 22)
    else if 'a' <= c <= 'k' then Some(c as int - 'a' as int + 33)
    else if 'm' <= c <= 'z' then Some(c as int - 'm' as int + 44)
    else None
  }

  lemma AlphabetSpells(d: int)
    requires 0 <= d < 58
    ensures |ALPHABET| == 58 && ALPHABET[d] == CharOf(d)
  {
    if d < 9 {
      assert ALPHABET[d] == "123456789"[d];
    } else if d < 17 {
      assert ALPHABET[d] == "ABCDEFGH"[d - 9];
    } else if d < 22 {
      assert ALPHABET[d] == "JKLMN"[d - 17];
    } else if d < 33 {
      assert ALPHABET[d] == "PQRSTUVWXYZ"[d - 22];
    } else if d < 44 {
      assert ALPHABET[d] == "abcdefghijk"[d - 33];
    } else {
      assert ALPHABET[d] == "mnopqrstuvwxyz"[d - 44];
    }
  }

  /** The alphabet is the digits and letters in the order of their codes, without 0, I, O and l. */
  lemma AlphabetExact()
    ensures |ALPHABET| == 58 && forall i, j :: 0 <= i < j < 58 ==> ALPHABET[i] < ALPHABET[j]
    ensures forall c :: c in ALPHABET <==>
              '1' <= c <= '9' || ('A' <= c <= 'Z' && c != 'I' && c != 'O') || ('a' <= c <= 'z' && c != 'l')
  {
    AlphabetSpells(0);
    forall d | 0 <= d < 58 ensures ALPHABET[d] == CharOf(d) {
      AlphabetSpells(d);
    }
    forall c | DigitOf(c).Some? ensures c in ALPHABET {
      DigitChar(c);
      assert ALPHABET[DigitOf(c).value] == c;
    }
  }

  lemma CharDigit(d: int)
    requires 0 <= d < 58
    ensures DigitOf(CharOf(d)) == Some(d)
  {
  }

  lemma DigitChar(c: char)
    requires DigitOf(c).Some?
    ensures 0 <= DigitOf(c).value < 58 && CharOf(DigitOf(c).value) == c
  {
  }

  predicate InAlphabet(s: string) {
    forall i :: 0 <= i < |s| ==> DigitOf(s[i]).Some?
  }

  function DigitsOfText(s: string): (ds: seq<int>)
    requires InAlphabet(s)
    ensures InBase(ds, 58) && |ds| == |s|
  {
    assert forall i :: 0 <= i < |s| ==> 0 <= DigitOf(s[i]).value < 58 by {
      forall i | 0 <= i < |s| ensures 0 <= DigitOf(s[i]).value < 58 {
        DigitChar(s[i]);
      }
    }
    seq(|s|, i requires 0 <= i < |s| => DigitOf(s[i]).value)
  }

  function TextOf(ds: seq<int>): (s: string)
    requires InBase(ds, 58)
    ensures InAlphabet(s) && |s| == |ds|
  {
    assert forall i :: 0 <= i < |ds| ==> DigitOf(CharOf(ds[i])).Some? by {
      forall i | 0 <= i < |ds| ensures DigitOf(CharOf(ds[i])).Some? {
        CharDigit(ds[i]);
      }
    }
    seq(|ds|, i requires 0 <= i < |ds| => CharOf(ds[i]))
  }

  lemma DigitsBack(ds: seq<int>)
    requires InBase(ds, 58)
    ensures DigitsOfText(TextOf(ds)) == ds
  {
    forall i | 0 <= i < |ds| ensures DigitsOfText(TextOf(ds))[i] == ds[i] {
      CharDigit(ds[i]);
    }
  }

  lemma TextBack(s: string)
    requires InAlphabet(s)
    ensures TextOf(DigitsOfText(s)) == s
  {
    forall i | 0 <= i < |s| ensures TextOf(DigitsOfText(s))[i] == s[i] {
      DigitChar(s[i]);
    }
  }

  // ---------- the codec ----------

  predicate Bytes(bs: seq<int>) {
    InBase(bs, 256)
  }

  function Encode(bs: seq<int>): string
    requires Bytes(bs)
  {
    TextOf(Convert(bs, 256, 58))
  }

  function Decode(s: string): (r: Option<seq<int>>)
    ensures r.Some? ==> Bytes(r.value)
  {
    if InAlphabet(s) then Some(Convert(DigitsOfText(s), 58, 256)) else None
  }

  /** Every byte string survives encoding, leading zeros included. */
  lemma DecodeEncode(bs: seq<int>)
    requires Bytes(bs)
    ensures Decode(Encode(bs)) == Some(bs)
  {
    DigitsBack(Convert(bs, 256, 58));
    ConvertBack(bs, 256, 58);
  }

  /** Every text over the alphabet survives decoding. */
  lemma EncodeDecode(s: string)
    requires InAlphabet(s)
    ensures Encode(Decode(s).value) == s
  {
    ConvertBack(DigitsOfText(s), 58, 256);
    TextBack(s);
  }

  /** The first four bytes of the double digest, taken as some function of the payload. */
  type Checksum = seq<int> -> (byte, byte, byte, byte)

  function CheckBytes(check: Checksum, payload: seq<int>): (bs: seq<int>)
    ensures Bytes(bs) && |bs| == 4
  {
    var c := check(payload);
    [c.0, c.1, c.2, c.3]
  }

  function EncodeCheck(check: Checksum, payload: seq<int>): string
    requires Bytes(payload)
  {
    Encode(payload + CheckBytes(check, payload))
  }

  predicate AddressPayload(p: seq<int>) {
    Bytes(p) && |p| == 21 && p[0] == 0x41
  }

  lemma PowersOf58()
    ensures Power(58, 33) == 15599970876632771988160814054146447252125923204784443097088
    ensures Power(58, 34) == 58 * 15599970876632771988160814054146447252125923204784443097088
  {
    assert Power(58, 5) == 656356768;
    PowerAdds(58, 5, 5);
    PowerAdds(58, 10, 1);
    assert Power(58, 1) == 58;
    PowerAdds(58, 11, 11);
    PowerAdds(58, 22, 11);
  }

  lemma PowersOf256()
    ensures Power(256, 24) == 0x1_0000_0000_0000_0000_0000_0000_0000_0000_0000_0000_0000_0000
  {
    assert Power(256, 4) == 0x1_0000_0000;
    PowerAdds(256, 4, 4);
    PowerAdds(256, 8, 8);
    PowerAdds(256, 16, 8);
  }

  /** Every address encodes to exactly 34 characters. */
  lemma EncodedLength(check: Checksum, p: seq<int>)
    requires AddressPayload(p)
    ensures |EncodeCheck(check, p)| == 34
  {
    var bs := p + CheckBytes(check, p);
    assert bs[0] == 0x41;
    LeadingDigit(bs, 256);
    PowersOf58();
    PowersOf256();
    DigitCount(Number(bs, 256), 58, 33);
    assert LeadingZeros(bs) == 0;
  }

  // ---------- hexadecimal ----------

  function HexChar(d: int): char
    requires 0 <= d < 16
  {
    if d < 10 then ('0' as int + d) as char else ('a' as int + d - 10) as char
  }

  function NibbleOf(c: char): Option<int> {
    if '0' <= c <= '9' then Some(c as int - '0' as int)
    else if 'a' <= c <= 'f' then Some(c as int - 'a' as int + 10)
    else None
  }

  /** hex.EncodeToString. */
  function HexText(bs: seq<int>): (s: string)
    requires Bytes(bs)
    ensures |s| == 2 * |bs|
  {
    if bs == [] then ""
    else
      var b := bs[|bs| - 1];
      HexText(bs[..|bs| - 1]) + [HexChar(b / 16), HexChar(b % 16)]
  }

  predicate LowerHex(s: string) {
    |s| % 2 == 0 && forall i :: 0 <= i < |s| ==> NibbleOf(s[i]).Some?
  }

  /** hex.DecodeString on lower-case text of even length. */
  function HexBytes(s: string): (bs: seq<int>)
    requires LowerHex(s)
    ensures Bytes(bs) && 2 * |bs| == |s|
  {
    if s == "" then []
    else HexBytes(s[..|s| - 2]) + [16 * NibbleOf(s[|s| - 2]).value + NibbleOf(s[|s| - 1]).value]
  }

  lemma Nibbles(b: int)
    requires 0 <= b < 256
    ensures 0 <= b / 16 < 16 && NibbleOf(HexChar(b / 16)) == Some(b / 16) && NibbleOf(HexChar(b % 16)) == Some(b % 16)
  {
  }

  lemma NibblesBack(c: char, d: char)
    requires NibbleOf(c).Some? && NibbleOf(d).Some?
    ensures
      var b := 16 * NibbleOf(c).value + NibbleOf(d).value;
      0 <= b < 256 && HexChar(b / 16) == c && HexChar(b % 16) == d
  {
  }

  lemma HexPair(s: string, c: char, d: char)
    requires LowerHex(s) && NibbleOf(c).Some? && NibbleOf(d).Some?
    ensures LowerHex(s + [c, d]) && HexBytes(s + [c, d]) == HexBytes(s) + [16 * NibbleOf(c).value + NibbleOf(d).value]
  {
    hide NibbleOf;
    assert (s + [c, d])[..|s|] == s;
  }

  /** One more byte: its two characters decode to it. */
  lemma HexByte(text: string, bytes: seq<int>, b: int)
    requires 0 <= b < 256 && LowerHex(text) && HexBytes(text) == bytes
    ensures LowerHex(text + [HexChar(b / 16), HexChar(b % 16)])
    ensures HexBytes(text + [HexChar(b / 16), HexChar(b % 16)]) == bytes + [b]
  {
    hide NibbleOf, HexChar, LowerHex, HexBytes;
    Nibbles(b);
    HexPair(text, HexChar(b / 16), HexChar(b % 16));
    assert 16 * (b / 16) + b % 16 == b;
  }

  lemma {:induction false} HexRoundTrip(bs: seq<int>)
    requires Bytes(bs)
    ensures LowerHex(HexText(bs)) && HexBytes(HexText(bs)) == bs
  {
    hide NibbleOf, HexChar;
    if bs != [] {
      var init, b := bs[..|bs| - 1], bs[|bs| - 1];
      HexRoundTrip(init);
      HexByte(HexText(init), init, b);
      assert bs == init + [b];
    }
  }

  lemma {:induction false} HexBack(s: string)
    requires LowerHex(s)
    ensures HexText(HexBytes(s)) == s
  {
    hide NibbleOf, HexChar;
    if s != "" {
      var init, c, d := s[..|s| - 2], s[|s| - 2], s[|s| - 1];
      HexBack(init);
      NibblesBack(c, d);
      HexPair(init, c, d);
      assert s == init + [c, d];
      var b := 16 * NibbleOf(c).value + NibbleOf(d).value;
      assert (HexBytes(init) + [b])[..|HexBytes(init)|] == HexBytes(init);
    }
  }

  // ---------- the two normal forms ----------

  /** NormalizeAddress: a trimmed, 34 character Base58Check address with the right prefix and checksum. */
  function NormalizeAddress(check: Checksum, value: string): Option<string> {
    var v := TrimSpace(value);
    if |v| != 34 then None
    else
      var d := Decode(v);
      if d.None? || |d.value| != 25 || d.value[0] != 0x41 then None
      else if CheckBytes(check, d.value[..21]) != d.value[21..] then None
      else Some(v)
  }

  function NormalizeAddressHex(check: Checksum, value: string): Option<string> {
    var v := TrimSpace(value);
    if |v| == 34 then
      if NormalizeAddress(check, v).None? then None
      else
        var d := Decode(v);
        if d.None? || |d.value| != 25 then None else Some(HexText(d.value[..21]))
    else
      var lower := Lower(v);
      if |lower| != 42 || lower[..2] != "41" || !LowerHex(lower) then None else Some(lower)
  }

  function NormalizeAddressBase58(check: Checksum, value: string): Option<string> {
    var v := TrimSpace(value);
    if |v| == 34 then NormalizeAddress(check, v)
    else
      var h := NormalizeAddressHex(check, v);
      if h.None? || !LowerHex(h.value) then None else Some(EncodeCheck(check, HexBytes(h.value)))
  }

  /** Lower-case hexadecimal with the network prefix. */
  predicate HexAddress(h: string) {
    LowerHex(h) && |h| == 42 && h[..2] == "41"
  }

  predicate Base58Address(check: Checksum, b: string) {
    NormalizeAddress(check, b) == Some(b)
  }

  lemma HexAddressPayload(h: string)
    requires HexAddress(h)
    ensures AddressPayload(HexBytes(h))
  {
    HexPrefix(h, 2);
    assert h[..2] == "41";
    assert HexBytes("41") == [0x41] by {
      assert "41"[..0] == "";
    }
  }

  lemma {:induction false} HexPrefix(h: string, n: nat)
    requires LowerHex(h) && n <= |h| && n % 2 == 0
    ensures LowerHex(h[..n]) && HexBytes(h[..n]) == HexBytes(h)[..n / 2]
    decreases |h| - n
  {
    if n == |h| {
      assert h[..n] == h;
    } else {
      var init := h[..|h| - 2];
      HexPrefixStep(h, n);
    }
  }

  lemma {:induction false} HexPrefixStep(h: string, n: nat)
    requires LowerHex(h) && n < |h| && n % 2 == 0
    ensures LowerHex(h[..n]) && HexBytes(h[..n]) == HexBytes(h)[..n / 2]
    decreases |h|
  {
    var init := h[..|h| - 2];
    assert HexBytes(h) == HexBytes(init) + [HexBytes(h)[|h| / 2 - 1]];
    assert init[..n] == h[..n];
    if n < |init| {
      HexPrefixStep(init, n);
    } else {
      assert init[..n] == init;
    }
  }

  lemma TextNotSpaced(s: string)
    requires InAlphabet(s) || LowerHex(s)
    ensures TrimSpace(s) == s
  {
    TrimKeeps(s);
  }

  lemma LowerHexLower(h: string)
    requires LowerHex(h)
    ensures Lower(h) == h
  {
    forall i | 0 <= i < |h| ensures Lower(h)[i] == h[i] {
      assert NibbleOf(h[i]).Some?;
    }
  }

  /** From hexadecimal to Base58Check and back: 34 accepted characters, and the same address again. */
  lemma HexToBase58(check: Checksum, h: string)
    requires HexAddress(h)
    ensures NormalizeAddressHex(check, h) == Some(h)
    ensures NormalizeAddressBase58(check, h).Some?
    ensures
      var b := NormalizeAddressBase58(check, h).value;
      |b| == 34 && Base58Address(check, b) && NormalizeAddressHex(check, b) == Some(h)
  {
    TextNotSpaced(h);
    LowerHexLower(h);
    HexAddressPayload(h);
    var p := HexBytes(h);
    var bs := p + CheckBytes(check, p);
    var b := EncodeCheck(check, p);
    EncodedLength(check, p);
    DecodeEncode(bs);
    TextNotSpaced(b);
    assert bs[..21] == p && bs[21..] == CheckBytes(check, p);
    HexBack(h);
  }

  /** From Base58Check to hexadecimal and back. */
  lemma Base58ToHex(check: Checksum, b: string)
    requires Base58Address(check, b)
    ensures |b| == 34 && NormalizeAddressBase58(check, b) == Some(b)
    ensures NormalizeAddressHex(check, b).Some?
    ensures
      var h := NormalizeAddressHex(check, b).value;
      HexAddress(h) && NormalizeAddressBase58(check, h) == Some(b)
  {
    TextNotSpaced(b);
    var d := Decode(b).value;
    var p := d[..21];
    var h := HexText(p);
    HexRoundTrip(p);
    HexTextPrefix(p);
    TextNotSpaced(h);
    LowerHexLower(h);
    assert d == p + CheckBytes(check, p);
    EncodeDecode(b);
  }

  lemma {:induction false} HexTextPrefix(p: seq<int>)
    requires Bytes(p) && p != [] && p[0] == 0x41
    ensures HexText(p)[..2] == "41"
  {
    if |p| == 1 {
      assert HexText(p[..0]) == "";
      assert HexText(p) == [HexChar(4), HexChar(1)];
    } else {
      HexTextPrefix(p[..|p| - 1]);
      assert HexText(p)[..2] == HexText(p[..|p| - 1])[..2];
    }
  }

  /** Each address has one hexadecimal and one Base58Check form. */
  lemma FormsCorrespond(check: Checksum, h: string, b: string)
    requires HexAddress(h) && Base58Address(check, b)
    ensures NormalizeAddressBase58(check, h) == Some(b) <==> NormalizeAddressHex(check, b) == Some(h)
  {
    HexToBase58(check, h);
    Base58ToHex(check, b);
  }
}
