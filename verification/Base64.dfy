/** Standard base64 with padding, section 4 of RFC 4648, with the leniency of Go's decoder: line breaks are skipped
    and unused trailing bits are ignored. */
module Base64 {
  import opened Options

  type Byte = b: int | 0 <= b < 256

  function Symbol(v: int): char
    requires 0 <= v < 64
  {
    if v < 26 then 'A' + v as char
    else if v < 52 then 'a' + (v - 26) as char
    else if v < 62 then '0' + (v - 52) as char
    else if v == 62 then '+'
    else '/'
  }

  function ValueOf(c: char): (v: Option<int>)
    ensures v.Some? ==> 0 <= v.value < 64
  {
    if 'A' <= c <= 'Z' then Some((c - 'A') as int)
    else if 'a' <= c <= 'z' then Some((c - 'a') as int + 26)
    else if '0' <= c <= '9' then Some((c - '0') as int + 52)
    else if c == '+' then Some(62)
    else if c == '/' then Some(63)
    else None
  }

  /** The test vectors of section 10 of RFC 4648, and one with the last two symbols of the alphabet. */
  lemma TestVectors()
    ensures Encode([102]) == "Zg==" && Encode([102, 111]) == "Zm8=" && Encode([102, 111, 111]) == "Zm9v"
    ensures Encode([102, 111, 111, 98, 97, 114]) == "Zm9vYmFy" && Encode([251, 255, 191]) == "+/+/"
  {
    assert [102, 111, 111][3..] == [] && [251, 255, 191][3..] == [];
    assert [102, 111, 111, 98, 97, 114][3..] == [98, 97, 114] && [98, 97, 114][3..] == [];
    assert Encode([98, 97, 114]) == "YmFy";
  }

  lemma SymbolRoundTrip(v: int)
    requires 0 <= v < 64
    ensures ValueOf(Symbol(v)) == Some(v)
    ensures Symbol(v) != '=' && Symbol(v) != '\r' && Symbol(v) != '\n'
  {
  }

  /** Three bytes as four symbols. */
  function EncodeGroup(x: Byte, y: Byte, z: Byte): (text: string)
    ensures |text| == 4
  {
    [Symbol(x / 4), Symbol(x % 4 * 16 + y / 16), Symbol(y % 16 * 4 + z / 64), Symbol(z % 64)]
  }

  function DecodeGroup(text: string): (data: Option<seq<Byte>>)
    requires |text| == 4
  {
    var a :- ValueOf(text[0]);
    var b :- ValueOf(text[1]);
    var c :- ValueOf(text[2]);
    var d :- ValueOf(text[3]);
    Some([a * 4 + b / 16, b % 16 * 16 + c / 4, c % 4 * 64 + d])
  }

  function Encode(data: seq<Byte>): string {
    if data == [] then ""
    else if |data| == 1 then [Symbol(data[0] / 4), Symbol(data[0] % 4 * 16), '=', '=']
    else if |data| == 2 then
      [Symbol(data[0] / 4), Symbol(data[0] % 4 * 16 + data[1] / 16), Symbol(data[1] % 16 * 4), '=']
    else EncodeGroup(data[0], data[1], data[2]) + Encode(data[3..])
  }

  function WithoutLineBreaks(text: string): string {
    if text == [] then []
    else if text[0] == '\r' || text[0] == '\n' then WithoutLineBreaks(text[1..])
    else [text[0]] + WithoutLineBreaks(text[1..])
  }

  /** The last four symbols, with one or two of them padding. */
  function DecodePadded(text: string): Option<seq<Byte>>
    requires |text| == 4
  {
    var a :- ValueOf(text[0]);
    var b :- ValueOf(text[1]);
    if text[2] == '=' then Some([a * 4 + b / 16])
    else
      var c :- ValueOf(text[2]);
      Some([a * 4 + b / 16, b % 16 * 16 + c / 4])
  }

  /** Four symbols at a time; padding ends the text. */
  function DecodeQuanta(text: string): Option<seq<Byte>> {
    if text == "" then Some([])
    else if |text| < 4 then None
    else if |text| == 4 && text[3] == '=' then DecodePadded(text)
    else
      var group :- DecodeGroup(text[..4]);
      var rest :- DecodeQuanta(text[4..]);
      Some(group + rest)
  }

  function Decode(text: string): Option<seq<Byte>> { DecodeQuanta(WithoutLineBreaks(text)) }

  lemma {:induction false} NoLineBreaks(text: string)
    requires '\r' !in text && '\n' !in text
    ensures WithoutLineBreaks(text) == text
  {
    if text != [] { NoLineBreaks(text[1..]); }
  }

  lemma {:induction false} EncodedSymbols(data: seq<Byte>)
    ensures '\r' !in Encode(data) && '\n' !in Encode(data)
    ensures Encode(data) == "" <==> data == []
  {
    if |data| >= 3 { EncodedSymbols(data[3..]); }
    if |data| >= 1 {
      SymbolRoundTrip(data[0] / 4);
      SymbolRoundTrip(data[0] % 4 * 16);
    }
    if |data| >= 2 {
      SymbolRoundTrip(data[0] % 4 * 16 + data[1] / 16);
      SymbolRoundTrip(data[1] % 16 * 4);
    }
    if |data| >= 3 {
      SymbolRoundTrip(data[1] % 16 * 4 + data[2] / 64);
      SymbolRoundTrip(data[2] % 64);
    }
  }

  lemma {:induction false} QuantaRoundTrip(data: seq<Byte>)
    ensures DecodeQuanta(Encode(data)) == Some(data)
  {
    if data == [] {
    } else if |data| == 1 {
      LastOne(data);
    } else if |data| == 2 {
      LastTwo(data);
    } else {
      QuantaRoundTrip(data[3..]);
      FirstThree(data);
    }
  }

  lemma LastOne(data: seq<Byte>)
    requires |data| == 1
    ensures DecodeQuanta(Encode(data)) == Some(data)
  {
    hide Symbol, ValueOf;
    var x := data[0];
    SymbolRoundTrip(x / 4);
    SymbolRoundTrip(x % 4 * 16);
    assert x / 4 * 4 + x % 4 * 16 / 16 == x;
    assert data == [x];
  }

  lemma LastTwo(data: seq<Byte>)
    requires |data| == 2
    ensures DecodeQuanta(Encode(data)) == Some(data)
  {
    hide Symbol, ValueOf;
    var x, y := data[0], data[1];
    SymbolRoundTrip(x / 4);
    SymbolRoundTrip(x % 4 * 16 + y / 16);
    SymbolRoundTrip(y % 16 * 4);
    Splice(x, y, 0);
    assert data == [x, y];
  }

  lemma GroupRoundTrip(x: Byte, y: Byte, z: Byte)
    ensures DecodeGroup(EncodeGroup(x, y, z)) == Some([x, y, z])
    ensures EncodeGroup(x, y, z)[3] != '='
  {
    hide Symbol, ValueOf;
    SymbolRoundTrip(x / 4);
    SymbolRoundTrip(x % 4 * 16 + y / 16);
    SymbolRoundTrip(y % 16 * 4 + z / 64);
    SymbolRoundTrip(z % 64);
    Splice(x, y, z);
  }

  lemma GroupThenRest(group: string, text: string, data: seq<Byte>, rest: seq<Byte>)
    requires |group| == 4 && group[3] != '=' && DecodeGroup(group) == Some(data) && DecodeQuanta(text) == Some(rest)
    ensures DecodeQuanta(group + text) == Some(data + rest)
  {
    hide DecodeGroup, DecodePadded;
    assert (group + text)[..4] == group && (group + text)[4..] == text && (group + text)[3] == group[3];
  }

  lemma FirstThree(data: seq<Byte>)
    requires |data| >= 3 && DecodeQuanta(Encode(data[3..])) == Some(data[3..])
    ensures DecodeQuanta(Encode(data)) == Some(data)
  {
    hide EncodeGroup, Encode, DecodeQuanta, DecodeGroup;
    EncodeSplit(data);
    ThreeAndRest(data);
    GroupRoundTrip(data[0], data[1], data[2]);
    GroupThenRest(EncodeGroup(data[0], data[1], data[2]), Encode(data[3..]), [data[0], data[1], data[2]], data[3..]);
  }

  lemma EncodeSplit(data: seq<Byte>)
    requires |data| >= 3
    ensures Encode(data) == EncodeGroup(data[0], data[1], data[2]) + Encode(data[3..])
  {
    hide EncodeGroup;
  }

  lemma ThreeAndRest(data: seq<Byte>)
    requires |data| >= 3
    ensures [data[0], data[1], data[2]] + data[3..] == data
  {
  }

  /** The bits of three bytes, cut into four groups of six, go back together. */
  lemma Splice(x: Byte, y: Byte, z: Byte)
    ensures x / 4 * 4 + (x % 4 * 16 + y / 16) / 16 == x
    ensures (x % 4 * 16 + y / 16) % 16 * 16 + (y % 16 * 4 + z / 64) / 4 == y
    ensures (y % 16 * 4 + z / 64) % 4 * 64 + z % 64 == z
    ensures (y % 16 * 4) / 4 == y % 16
  {
  }

  /** All symbols but the last p, which are padding. */
  ghost predicate Padded(text: string, p: nat) {
    && |text| % 4 == 0 && p <= 2 && p <= |text|
    && (forall k :: 0 <= k < |text| - p ==> ValueOf(text[k]).Some?)
    && (forall k :: |text| - p <= k < |text| ==> text[k] == '=')
  }

  lemma OneGroup(text: string)
    requires |text| == 4
    ensures DecodeGroup(text).Some? <==> Padded(text, 0)
    ensures text[3] == '=' ==> (DecodePadded(text).Some? <==> Padded(text, 1) || Padded(text, 2))
    ensures text[3] == '=' ==> !Padded(text, 0)
    ensures text[3] != '=' ==> !Padded(text, 1) && !Padded(text, 2)
  {
    assert ValueOf('=') == None;
    hide ValueOf;
  }

  lemma MoreGroups(text: string, p: nat)
    requires |text| > 4
    ensures Padded(text, p) <==> Padded(text[..4], 0) && Padded(text[4..], p)
  {
    hide ValueOf;
    assert forall k :: 4 <= k < |text| ==> text[k] == text[4..][k - 4];
  }

  /** Exactly whole groups of four symbols decode, of which the last may end in one or two padding characters. */
  lemma {:induction false} DecodesIffPadded(text: string)
    ensures DecodeQuanta(text).Some? <==> exists p :: Padded(text, p)
  {
    hide DecodeGroup, DecodePadded, Padded;
    if text == "" {
      assert Padded(text, 0) by { EmptyIsPadded(); }
    } else if |text| < 4 {
      forall p ensures !Padded(text, p) { ShortIsNot(text, p); }
    } else {
      OneGroup(text[..4]);
      if |text| == 4 {
        assert text[..4] == text && text[4..] == "" && DecodeQuanta(text[4..]) == Some([]);
        forall p | Padded(text, p) ensures p <= 2 { AtMostTwo(text, p); }
        assert (exists p :: Padded(text, p)) <==> Padded(text, 0) || Padded(text, 1) || Padded(text, 2);
      } else {
        DecodesIffPadded(text[4..]);
        forall p ensures Padded(text, p) <==> Padded(text[..4], 0) && Padded(text[4..], p) { MoreGroups(text, p); }
      }
    }
  }

  lemma EmptyIsPadded()
    ensures Padded("", 0)
  {
  }

  lemma ShortIsNot(text: string, p: nat)
    requires 0 < |text| < 4
    ensures !Padded(text, p)
  {
  }

  lemma AtMostTwo(text: string, p: nat)
    requires Padded(text, p)
    ensures p <= 2
  {
  }

  /** Decoding undoes encoding on all byte strings. */
  lemma Base64RoundTrip(data: seq<Byte>)
    ensures Decode(Encode(data)) == Some(data)
  {
    EncodedSymbols(data);
    NoLineBreaks(Encode(data));
    QuantaRoundTrip(data);
  }
}
