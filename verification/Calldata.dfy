// The TRC20 transfer call: selector, padded destination, 256-bit amount; what the validator expects
// is what the builder asks for, and an accepted data field names one destination and one amount.
module Calldata {
  import opened Prelude
  import opened Text
  import opened Base58
  import opened Address
  import Amounts

  const SELECTOR: seq<int> := [0xa9, 0x05, 0x9c, 0xbb]

  predicate Destination(d: seq<int>) {
    Bytes(d) && |d| == 20
  }

  // ---------- fixed-width numbers ----------

  /** FillBytes: the k low-order base-256 digits, most significant first. */
  function Fill(n: nat, k: nat): (bs: seq<int>)
    ensures Bytes(bs) && |bs| == k
    decreases k
  {
    if k == 0 then [] else Fill(n / 256, k - 1) + [n % 256]
  }

  lemma {:induction false} FillNumber(n: nat, k: nat)
    requires n < Amounts.Power(256, k)
    ensures Number(Fill(n, k), 256) == n
    decreases k
  {
    if k > 0 {
      MulSwap(256, Amounts.Power(256, k - 1));
      DivBounds(n, 256, 0, Amounts.Power(256, k - 1));
      FillNumber(n / 256, k - 1);
      DivMod(n, 256);
      assert Fill(n, k)[..k - 1] == Fill(n / 256, k - 1);
    }
  }

  lemma {:induction false} NumberFill(bs: seq<int>)
    requires Bytes(bs)
    ensures Fill(Number(bs, 256), |bs|) == bs && Number(bs, 256) < Amounts.Power(256, |bs|)
  {
    if bs != [] {
      var init, last := bs[..|bs| - 1], bs[|bs| - 1];
      NumberFill(init);
      DivStep(Number(init, 256), last, 256);
      assert bs == init + [last];
      MulLe(Number(init, 256) + 1, Amounts.Power(256, |bs| - 1), 256);
    }
  }

  lemma PowerOfWord()
    ensures Amounts.Power(256, 32) == TWO_256
  {
    PowersOf256();
    assert Amounts.Power(256, 4) == 0x1_0000_0000;
    Amounts.PowerAdds(256, 4, 4);
    Amounts.PowerAdds(256, 24, 8);
  }

  // ---------- the call ----------

  /** The 64-byte parameter the builder sends. */
  function Parameter(destination: seq<int>, amount: nat): seq<int> {
    Zeros(12) + destination + Fill(amount, 32)
  }

  /** The 68-byte data the validator expects. */
  function Data(destination: seq<int>, amount: nat): seq<int> {
    SELECTOR + Parameter(destination, amount)
  }

  /** ABI decoding of transfer(address,uint256), padding included. */
  function DecodeData(data: seq<int>): Option<(seq<int>, nat)>
    requires Bytes(data)
  {
    if |data| == 68 && data[..4] == SELECTOR && data[4..16] == Zeros(12) then Some((data[16..36], Number(data[36..], 256))) else None
  }

  lemma DataShape(destination: seq<int>, amount: nat)
    requires Destination(destination)
    ensures
      var data := Data(destination, amount);
      && Bytes(data) && |data| == 68 && data[..4] == SELECTOR && data[4..16] == Zeros(12)
      && data[16..36] == destination && data[36..] == Fill(amount, 32) && data[4..] == Parameter(destination, amount)
  {
    hide Fill, Zeros;
    var padding, word := Zeros(12), Fill(amount, 32);
    ZeroBytes(12);
    Concatenation(SELECTOR, padding, destination, word);
    assert Data(destination, amount) == SELECTOR + padding + destination + word;
    assert Data(destination, amount)[4..] == Parameter(destination, amount);
  }

  lemma ZeroBytes(n: nat)
    ensures Bytes(Zeros(n)) && |Zeros(n)| == n
  {
  }

  lemma Concatenation(a: seq<int>, b: seq<int>, c: seq<int>, d: seq<int>)
    requires Bytes(a) && Bytes(b) && Bytes(c) && Bytes(d) && |a| == 4 && |b| == 12 && |c| == 20 && |d| == 32
    ensures
      var s := a + b + c + d;
      Bytes(s) && |s| == 68 && s[..4] == a && s[4..16] == b && s[16..36] == c && s[36..] == d
  {
  }

  /** The data decodes to its destination and amount, and no other data does. */
  lemma DataExact(destination: seq<int>, amount: nat, data: seq<int>)
    requires Destination(destination) && amount < TWO_256 && Bytes(data)
    ensures Bytes(Data(destination, amount))
    ensures DecodeData(data) == Some((destination, amount)) <==> data == Data(destination, amount)
  {
    DataShape(destination, amount);
    PowerOfWord();
    FillNumber(amount, 32);
    if DecodeData(data) == Some((destination, amount)) {
      NumberFill(data[36..]);
      assert data == data[..4] + data[4..16] + data[16..36] + data[36..];
      assert data == SELECTOR + (Zeros(12) + destination + Fill(amount, 32));
    }
  }

  /** The builder's parameter is the validator's data without the selector. */
  lemma BuilderAgrees(destination: seq<int>, amount: nat)
    requires Destination(destination)
    ensures Data(destination, amount)[4..] == Parameter(destination, amount) && |Parameter(destination, amount)| == 64
  {
    DataShape(destination, amount);
  }

  /** strings.EqualFold, for hexadecimal text. */
  predicate EqualFold(a: string, b: string) {
    Lower(a) == Lower(b)
  }

  /** A data field is accepted exactly when it spells a call to this destination with this amount. */
  lemma AcceptedExactly(field: string, destination: seq<int>, amount: nat)
    requires Destination(destination) && amount < TWO_256
    ensures Bytes(Data(destination, amount))
    ensures EqualFold(field, HexText(Data(destination, amount)))
       <==> LowerHex(Lower(field)) && DecodeData(HexBytes(Lower(field))) == Some((destination, amount))
  {
    DataShape(destination, amount);
    var data := Data(destination, amount);
    HexRoundTrip(data);
    LowerHexLower(HexText(data));
    if LowerHex(Lower(field)) {
      DataExact(destination, amount, HexBytes(Lower(field)));
      HexBack(Lower(field));
    }
  }

  // ---------- the buffers ----------

  /** amount.FillBytes(buffer[offset..]), from the last byte down. */
  method FillBytes(buffer: array<int>, offset: nat, amount: nat)
    requires offset + 32 == buffer.Length
    modifies buffer
    ensures buffer[..offset] == old(buffer[..offset]) && buffer[offset..] == Fill(amount, 32)
  {
    var rest: nat := amount;
    for i := 0 to 32
      invariant buffer[..offset] == old(buffer[..offset])
      invariant Fill(amount, 32) == Fill(rest, 32 - i) + buffer[buffer.Length - i..]
    {
      var at := buffer.Length - 1 - i;
      assert Fill(rest, 32 - i) == Fill(rest / 256, 31 - i) + [rest % 256];
      ghost var tail := buffer[at + 1..];
      buffer[at] := rest % 256;
      assert buffer[at..] == [rest % 256] + tail;
      rest := rest / 256;
    }
  }

  /** The validator's expected data: selector, destination after twelve zero bytes, amount. */
  method ExpectedData(destination: seq<int>, amount: nat) returns (buffer: array<int>)
    requires Destination(destination)
    ensures fresh(buffer) && buffer[..] == Data(destination, amount)
  {
    buffer := new int[68](_ => 0);
    for i := 0 to 4
      invariant forall j :: 0 <= j < i ==> buffer[j] == SELECTOR[j]
      invariant forall j :: i <= j < 68 ==> buffer[j] == 0
    {
      buffer[i] := SELECTOR[i];
    }
    for i := 0 to 20
      invariant forall j :: 0 <= j < 4 ==> buffer[j] == SELECTOR[j]
      invariant forall j :: 4 <= j < 16 ==> buffer[j] == 0
      invariant forall j :: 0 <= j < i ==> buffer[16 + j] == destination[j]
    {
      buffer[16 + i] := destination[i];
    }
    assert buffer[..36] == SELECTOR + Zeros(12) + destination;
    FillBytes(buffer, 36, amount);
    assert buffer[..] == buffer[..36] + buffer[36..];
    assert Data(destination, amount) == SELECTOR + Zeros(12) + destination + Fill(amount, 32);
  }

  /** The builder's parameter. */
  method BuildParameter(destination: seq<int>, amount: nat) returns (buffer: array<int>)
    requires Destination(destination)
    ensures fresh(buffer) && buffer[..] == Data(destination, amount)[4..]
  {
    buffer := new int[64](_ => 0);
    for i := 0 to 20
      invariant forall j :: 0 <= j < 12 ==> buffer[j] == 0
      invariant forall j :: 0 <= j < i ==> buffer[12 + j] == destination[j]
    {
      buffer[12 + i] := destination[i];
    }
    assert buffer[..32] == Zeros(12) + destination;
    FillBytes(buffer, 32, amount);
    assert buffer[..] == buffer[..32] + buffer[32..];
    BuilderAgrees(destination, amount);
  }

  /** onlyJSONFields: no field outside the allowed names. */
  method OnlyFields<V>(fields: map<string, V>, allowed: seq<string>) returns (only: bool)
    ensures only <==> forall field :: field in fields ==> field in allowed
  {
    var names: set<string> := {};
    for i := 0 to |allowed|
      invariant names == set j | 0 <= j < i :: allowed[j]
    {
      names := names + {allowed[i]};
    }
    var todo := fields.Keys;
    while todo != {}
      invariant todo <= fields.Keys
      invariant forall field :: field in fields && field !in todo ==> field in allowed
      decreases todo
    {
      var field :| field in todo;
      if field !in names {
        return false;
      }
      todo := todo - {field};
    }
    return true;
  }
}
