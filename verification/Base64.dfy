/** Base64 with padding, section 4 of RFC 4648, and the size that is computed without decoding. */
module Base64 {
  import opened Prelude

  type Byte = n: nat | n < 256

  type Sextet = n: nat | n < 64

  function Digit(n: Sextet): char {
    if n < 26 then 'A' + n as char
    else if n < 52 then 'a' + (n - 26) as char
    else if n < 62 then '0' + (n - 52) as char
    else if n == 62 then '+' else '/'
  }

  function Value(c: char): Option<Sextet> {
    if 'A' <= c <= 'Z' then Some((c - 'A') as nat)
    else if 'a' <= c <= 'z' then Some((c - 'a') as nat + 26)
    else if '0' <= c <= '9' then Some((c - '0') as nat + 52)
    else if c == '+' then Some(62)
    else if c == '/' then Some(63)
    else None
  }

  lemma {:induction false} DigitHasValue(n: Sextet)
    ensures Value(Digit(n)) == Some(n) && Digit(n) != '='
  {
  }

  lemma {:induction false} ValueHasDigit(c: char)
    ensures Value(c).Some? ==> Digit(Value(c).value) == c
  {
  }

  // ---- Three bytes are four sextets ------------------------------------------------------------

  function First(a: Byte): Sextet { a / 4 }

  function Second(a: Byte, b: Byte): Sextet { a % 4 * 16 + b / 16 }

  function Third(b: Byte, c: Byte): Sextet { b % 16 * 4 + c / 64 }

  function Fourth(c: Byte): Sextet { c % 64 }

  function ByteA(v: Sextet, w: Sextet): Byte { v * 4 + w / 16 }

  function ByteB(w: Sextet, x: Sextet): Byte { w % 16 * 16 + x / 4 }

  function ByteC(x: Sextet, y: Sextet): Byte { x % 4 * 64 + y }

  lemma {:induction false} SecondParts(a: Byte, b: Byte)
    ensures Second(a, b) / 16 == a % 4 && Second(a, b) % 16 == b / 16
  {
  }

  lemma {:induction false} ThirdParts(b: Byte, c: Byte)
    ensures Third(b, c) / 4 == b % 16 && Third(b, c) % 4 == c / 64
  {
  }

  lemma {:induction false} BytesBack(a: Byte, b: Byte, c: Byte)
    ensures ByteA(First(a), Second(a, b)) == a
    ensures ByteB(Second(a, b), Third(b, c)) == b
    ensures ByteC(Third(b, c), Fourth(c)) == c
  {
    SecondParts(a, b);
    ThirdParts(b, c);
  }

  lemma {:induction false} FirstByteBack(a: Byte)
    ensures ByteA(First(a), Second(a, 0)) == a && Second(a, 0) % 16 == 0
  {
    assert Second(a, 0) == a % 4 * 16;
  }

  lemma {:induction false} ByteAParts(v: Sextet, w: Sextet)
    ensures ByteA(v, w) / 4 == v && ByteA(v, w) % 4 == w / 16
  {
  }

  lemma {:induction false} ByteBParts(w: Sextet, x: Sextet)
    ensures ByteB(w, x) / 16 == w % 16 && ByteB(w, x) % 16 == x / 4
  {
  }

  lemma {:induction false} ByteCParts(x: Sextet, y: Sextet)
    ensures ByteC(x, y) / 64 == x % 4 && ByteC(x, y) % 64 == y
  {
  }

  lemma {:induction false} SextetsBack(v: Sextet, w: Sextet, x: Sextet, y: Sextet)
    ensures First(ByteA(v, w)) == v
    ensures Second(ByteA(v, w), ByteB(w, x)) == w
    ensures Third(ByteB(w, x), ByteC(x, y)) == x
    ensures Fourth(ByteC(x, y)) == y
  {
    ByteAParts(v, w);
    ByteBParts(w, x);
    ByteCParts(x, y);
  }

  // ---- Encoding and decoding -------------------------------------------------------------------

  function EncodeOne(a: Byte): string {
    [Digit(First(a)), Digit(Second(a, 0)), '=', '=']
  }

  function EncodeTwo(a: Byte, b: Byte): string {
    [Digit(First(a)), Digit(Second(a, b)), Digit(Third(b, 0)), '=']
  }

  function EncodeThree(a: Byte, b: Byte, c: Byte): string {
    [Digit(First(a)), Digit(Second(a, b)), Digit(Third(b, c)), Digit(Fourth(c))]
  }

  function Encode(bytes: seq<Byte>): string {
    if bytes == [] then ""
    else if |bytes| == 1 then EncodeOne(bytes[0])
    else if |bytes| == 2 then EncodeTwo(bytes[0], bytes[1])
    else EncodeThree(bytes[0], bytes[1], bytes[2]) + Encode(bytes[3..])
  }

  /** Unused bits before padding have to be zero. */
  function DecodeOne(p: char, q: char): Option<seq<Byte>> {
    match (Value(p), Value(q))
    case (Some(v), Some(w)) => if w % 16 == 0 then Some([ByteA(v, w)]) else None
    case _ => None
  }

  function DecodeTwo(p: char, q: char, r: char): Option<seq<Byte>> {
    match (Value(p), Value(q), Value(r))
    case (Some(v), Some(w), Some(x)) => if x % 4 == 0 then Some([ByteA(v, w), ByteB(w, x)]) else None
    case _ => None
  }

  function DecodeThree(p: char, q: char, r: char, s: char): Option<seq<Byte>> {
    match (Value(p), Value(q), Value(r), Value(s))
    case (Some(v), Some(w), Some(x), Some(y)) => Some([ByteA(v, w), ByteB(w, x), ByteC(x, y)])
    case _ => None
  }

  /** Padding is required, and allowed only in the last group. */
  function Decode(text: string): Option<seq<Byte>> {
    if text == "" then Some([])
    else if |text| < 4 then None
    else if |text| == 4 && text[3] == '=' then
      if text[2] == '=' then DecodeOne(text[0], text[1]) else DecodeTwo(text[0], text[1], text[2])
    else
      match (DecodeThree(text[0], text[1], text[2], text[3]), Decode(text[4..]))
      case (Some(first), Some(rest)) => Some(first + rest)
      case _ => None
  }

  lemma {:induction false} OneDecodes(a: Byte)
    ensures Decode(EncodeOne(a)) == Some([a])
  {
    DigitHasValue(First(a));
    DigitHasValue(Second(a, 0));
    FirstByteBack(a);
    DecodedOne(EncodeOne(a), First(a), Second(a, 0));
  }

  lemma {:induction false} DecodedOne(text: string, v: Sextet, w: Sextet)
    requires |text| == 4 && text[2] == text[3] == '='
    requires Value(text[0]) == Some(v) && Value(text[1]) == Some(w) && w % 16 == 0
    ensures Decode(text) == Some([ByteA(v, w)])
  {
  }

  lemma {:induction false} TwoDecodes(a: Byte, b: Byte)
    ensures Decode(EncodeTwo(a, b)) == Some([a, b])
  {
    DigitHasValue(First(a));
    DigitHasValue(Second(a, b));
    DigitHasValue(Third(b, 0));
    BytesBack(a, b, 0);
    ThirdParts(b, 0);
    DecodedTwo(EncodeTwo(a, b), First(a), Second(a, b), Third(b, 0));
  }

  lemma {:induction false} DecodedTwo(text: string, v: Sextet, w: Sextet, x: Sextet)
    requires |text| == 4 && text[2] != '=' && text[3] == '='
    requires Value(text[0]) == Some(v) && Value(text[1]) == Some(w) && Value(text[2]) == Some(x) && x % 4 == 0
    ensures Decode(text) == Some([ByteA(v, w), ByteB(w, x)])
  {
  }

  lemma {:induction false} ThreeDecodes(a: Byte, b: Byte, c: Byte)
    ensures
      var group := EncodeThree(a, b, c);
      DecodeThree(group[0], group[1], group[2], group[3]) == Some([a, b, c]) && group[3] != '='
  {
    DigitHasValue(First(a));
    DigitHasValue(Second(a, b));
    DigitHasValue(Third(b, c));
    DigitHasValue(Fourth(c));
    BytesBack(a, b, c);
  }

  lemma {:induction false} DecodeGroup(group: string, rest: string, first: seq<Byte>, others: seq<Byte>)
    requires |group| == 4 && group[3] != '=' && Decode(rest) == Some(others)
    requires DecodeThree(group[0], group[1], group[2], group[3]) == Some(first)
    ensures Decode(group + rest) == Some(first + others)
  {
    assert (group + rest)[4..] == rest;
  }

  lemma {:induction false} EncodeGroup(first: seq<Byte>, rest: seq<Byte>)
    requires |first| == 3
    ensures Encode(first + rest) == EncodeThree(first[0], first[1], first[2]) + Encode(rest)
  {
    assert (first + rest)[3..] == rest;
  }

  /** Decoding inverts encoding. */
  lemma {:induction false} EncodingDecodes(bytes: seq<Byte>)
    ensures Decode(Encode(bytes)) == Some(bytes)
  {
    if |bytes| == 1 {
      OneDecodes(bytes[0]);
      assert bytes == [bytes[0]];
    } else if |bytes| == 2 {
      TwoDecodes(bytes[0], bytes[1]);
      assert bytes == [bytes[0], bytes[1]];
    } else if |bytes| > 2 {
      var first, rest := bytes[..3], bytes[3..];
      ThreeDecodes(first[0], first[1], first[2]);
      assert [first[0], first[1], first[2]] == first && first + rest == bytes;
      EncodingDecodes(rest);
      EncodeGroup(first, rest);
      DecodeGroup(EncodeThree(first[0], first[1], first[2]), Encode(rest), first, rest);
    }
  }

  lemma {:induction false} OneEncodes(p: char, q: char)
    requires DecodeOne(p, q).Some?
    ensures EncodeOne(DecodeOne(p, q).value[0]) == [p, q, '=', '=']
  {
    var v, w := Value(p).value, Value(q).value;
    ValueHasDigit(p);
    ValueHasDigit(q);
    SextetsBack(v, w, 0, 0);
    ByteBParts(w, 0);
  }

  lemma {:induction false} TwoEncodes(p: char, q: char, r: char)
    requires DecodeTwo(p, q, r).Some?
    ensures EncodeTwo(DecodeTwo(p, q, r).value[0], DecodeTwo(p, q, r).value[1]) == [p, q, r, '=']
  {
    var v, w, x := Value(p).value, Value(q).value, Value(r).value;
    ValueHasDigit(p);
    ValueHasDigit(q);
    ValueHasDigit(r);
    SextetsBack(v, w, x, 0);
    ByteCParts(x, 0);
  }

  lemma {:induction false} ThreeEncodes(p: char, q: char, r: char, s: char)
    requires DecodeThree(p, q, r, s).Some?
    ensures
      var bytes := DecodeThree(p, q, r, s).value;
      |bytes| == 3 && EncodeThree(bytes[0], bytes[1], bytes[2]) == [p, q, r, s]
  {
    var v, w, x, y := Value(p).value, Value(q).value, Value(r).value, Value(s).value;
    ValueHasDigit(p);
    ValueHasDigit(q);
    ValueHasDigit(r);
    ValueHasDigit(s);
    SextetsBack(v, w, x, y);
  }

  lemma {:induction false} LastGroupEncodes(text: string)
    requires |text| == 4 && text[3] == '=' && Decode(text).Some?
    ensures Encode(Decode(text).value) == text
  {
    assert text == [text[0], text[1], text[2], text[3]];
    if text[2] == '=' {
      OneEncodes(text[0], text[1]);
    } else {
      TwoEncodes(text[0], text[1], text[2]);
    }
  }

  lemma {:induction false} GroupDecodes(text: string)
    requires Decode(text).Some? && text != "" && !(|text| == 4 && text[3] == '=')
    ensures |text| >= 4 && Decode(text[4..]).Some?
    ensures DecodeThree(text[0], text[1], text[2], text[3]).Some?
    ensures Decode(text).value == DecodeThree(text[0], text[1], text[2], text[3]).value + Decode(text[4..]).value
  {
  }

  /** Only the encoding of some bytes decodes, and to those bytes. */
  lemma {:induction false} OnlyEncodingsDecode(text: string)
    requires Decode(text).Some?
    ensures Encode(Decode(text).value) == text
  {
    if text == "" {
    } else if |text| == 4 && text[3] == '=' {
      LastGroupEncodes(text);
    } else {
      GroupDecodes(text);
      ThreeEncodes(text[0], text[1], text[2], text[3]);
      OnlyEncodingsDecode(text[4..]);
      EncodeGroup(DecodeThree(text[0], text[1], text[2], text[3]).value, Decode(text[4..]).value);
      assert text == [text[0], text[1], text[2], text[3]] + text[4..];
    }
  }

  // ---- The standard's own terms ----------------------------------------------------------------

  /** The digits are the standard's alphabet, in its order. */
  lemma {:induction false} DigitsAreTheAlphabet(n: Sextet)
    ensures Digit(0) == 'A' && Digit(25) == 'Z' && Digit(26) == 'a' && Digit(51) == 'z'
    ensures Digit(52) == '0' && Digit(61) == '9' && Digit(62) == '+' && Digit(63) == '/'
    ensures n < 61 && n != 25 && n != 51 ==> Digit(n + 1) as int == Digit(n) as int + 1
  {
  }

  /** The four digits of a group are those of its bytes read as one number. */
  lemma {:induction false} GroupIsOneNumber(a: Byte, b: Byte, c: Byte)
    ensures 65536 * a + 256 * b + c == 262144 * First(a) + 4096 * Second(a, b) + 64 * Third(b, c) + Fourth(c)
  {
  }

  lemma {:induction false} FirstGroup(rest: seq<Byte>)
    ensures Encode([102, 111, 111] + rest) == "Zm9v" + Encode(rest)
  {
    EncodeGroup([102, 111, 111], rest);
  }

  /** The examples of section 10 of RFC 4648. */
  lemma {:induction false} StandardExamples()
    ensures Encode([]) == ""
    ensures Encode([102]) == "Zg=="
    ensures Encode([102, 111]) == "Zm8="
    ensures Encode([102, 111, 111]) == "Zm9v"
    ensures Encode([102, 111, 111, 98]) == "Zm9vYg=="
    ensures Encode([102, 111, 111, 98, 97]) == "Zm9vYmE="
    ensures Encode([102, 111, 111, 98, 97, 114]) == "Zm9vYmFy"
  {
    FirstGroup([]);
    FirstGroup([98]);
    FirstGroup([98, 97]);
    FirstGroup([98, 97, 114]);
  }

  // ---- The size without decoding ---------------------------------------------------------------

  function TrailingPads(text: string): nat {
    if text == "" || text[|text| - 1] != '=' then 0 else 1 + TrailingPads(text[..|text| - 1])
  }

  /** Three bytes for every whole group, less the padding, and never below zero. */
  function Size(text: string): nat {
    var groups := |text| / 4 * 3;
    if groups < TrailingPads(text) then 0 else groups - TrailingPads(text)
  }

  lemma {:induction false} EndsInDigit(text: string, n: Sextet)
    requires text != "" && text[|text| - 1] == Digit(n)
    ensures TrailingPads(text) == 0
  {
    DigitHasValue(n);
  }

  lemma {:induction false} PadsOfLastGroup(bytes: seq<Byte>)
    requires 0 < |bytes| <= 3
    ensures |Encode(bytes)| == 4 && TrailingPads(Encode(bytes)) == 3 - |bytes|
  {
    var text := Encode(bytes);
    if |bytes| == 1 {
      assert text[..3] == [text[0], text[1], '='] && text[..3][..2] == [text[0], text[1]];
      EndsInDigit(text[..3][..2], Second(bytes[0], 0));
    } else if |bytes| == 2 {
      EndsInDigit(text[..3], Third(bytes[1], 0));
    } else {
      assert Encode(bytes[3..]) == "";
      EndsInDigit(text, Fourth(bytes[2]));
    }
  }

  lemma {:induction false} PadsOfSuffix(front: string, text: string)
    requires text != "" && TrailingPads(text) < |text|
    ensures TrailingPads(front + text) == TrailingPads(text)
    decreases |text|
  {
    var all := front + text;
    assert all[..|all| - 1] == front + text[..|text| - 1];
    if text[|text| - 1] == '=' {
      PadsOfSuffix(front, text[..|text| - 1]);
    }
  }

  /** Whole groups of at least one byte each that hold `n` bytes. */
  predicate HoldsBytes(text: string, n: nat) {
    && |text| % 4 == 0 && TrailingPads(text) <= 2 < |text|
    && |text| / 4 * 3 == n + TrailingPads(text)
  }

  lemma {:induction false} AddGroup(group: string, text: string, n: nat)
    requires |group| == 4 && HoldsBytes(text, n)
    ensures HoldsBytes(group + text, n + 3)
  {
    PadsOfSuffix(group, text);
    assert |group + text| / 4 == 1 + |text| / 4;
  }

  lemma {:induction false} EncodedShape(bytes: seq<Byte>)
    requires bytes != []
    ensures HoldsBytes(Encode(bytes), |bytes|)
  {
    if |bytes| <= 3 {
      PadsOfLastGroup(bytes);
    } else {
      EncodedShape(bytes[3..]);
      GroupAdded(bytes);
    }
  }

  lemma {:induction false} GroupAdded(bytes: seq<Byte>)
    requires |bytes| > 3 && HoldsBytes(Encode(bytes[3..]), |bytes[3..]|)
    ensures HoldsBytes(Encode(bytes), |bytes|)
  {
    hide HoldsBytes, TrailingPads;
    AddGroup(EncodeThree(bytes[0], bytes[1], bytes[2]), Encode(bytes[3..]), |bytes[3..]|);
  }

  /** The size computed from a text's length and padding is the number of bytes it decodes to. */
  lemma {:induction false} SizeIsDecodedLength(text: string)
    requires Decode(text).Some?
    ensures Size(text) == |Decode(text).value|
  {
    OnlyEncodingsDecode(text);
    var bytes := Decode(text).value;
    if bytes == [] {
      assert text == "";
    } else {
      EncodedShape(bytes);
    }
  }

  /** Decoding accepts exactly the encodings, each as what it encodes. */
  lemma {:induction false} DecodesExactlyEncodings(text: string, bytes: seq<Byte>)
    ensures Decode(text) == Some(bytes) <==> Encode(bytes) == text
  {
    EncodingDecodes(bytes);
    if Decode(text).Some? {
      OnlyEncodingsDecode(text);
    }
  }
}
