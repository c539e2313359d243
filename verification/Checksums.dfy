/** The checksum on the wire: hexadecimal in specs and statuses, base64 in the Content-MD5 header. */
module Checksums {
  import opened Basics

  type Byte = n: int | 0 <= n < 256

  /******* Hexadecimal (section 8 of RFC 4648, lower case when printed) *******/

  function HexChar(v: int): char
    requires 0 <= v < 16
  {
    if v < 10 then ('0' as int + v) as char else ('a' as int + v - 10) as char
  }

  function HexValue(c: char): (v: Option<int>)
    ensures v.Some? ==> 0 <= v.value < 16
  {
    if '0' <= c <= '9' then Some(c as int - '0' as int)
    else if 'a' <= c <= 'f' then Some(c as int - 'a' as int + 10)
    else if 'A' <= c <= 'F' then Some(c as int - 'A' as int + 10)
    else None
  }

  function HexEncode(data: seq<Byte>): (s: string)
    ensures |s| == 2 * |data|
  {
    if data == [] then "" else [HexChar(data[0] / 16), HexChar(data[0] % 16)] + HexEncode(data[1..])
  }

  function HexDecode(s: string): (r: Result<seq<Byte>>)
    ensures r.Ok? ==> |s| == 2 * |r.value|
  {
    if s == "" then Ok([])
    else if |s| == 1 then Error("odd length hex string")
    else
      var hi, lo := HexValue(s[0]), HexValue(s[1]);
      if hi.None? || lo.None? then Error("invalid byte")
      else
        var rest := HexDecode(s[2..]);
        if rest.Error? then rest else Ok([16 * hi.value + lo.value] + rest.value)
  }

  const HEX_DIGITS := "0123456789abcdef"

  /** Every byte is printed as two digits, the high one first. */
  lemma {:induction false} HexDigitsOf(data: seq<Byte>, i: nat)
    requires i < |data|
    ensures HexEncode(data)[2 * i] == HEX_DIGITS[data[i] / 16]
    ensures HexEncode(data)[2 * i + 1] == HEX_DIGITS[data[i] % 16]
  {
    if i > 0 {
      HexDigitsOf(data[1..], i - 1);
    }
  }

  predicate IsHexDigit(c: char) {
    LowerChar(c) in HEX_DIGITS
  }

  /** A checksum is an even number of hexadecimal digits, in either case. */
  lemma {:induction false} HexAccepts(s: string)
    ensures HexDecode(s).Ok? <==> |s| % 2 == 0 && forall i :: 0 <= i < |s| ==> IsHexDigit(s[i])
  {
    hide HexValue, IsHexDigit;
    if |s| > 1 {
      HexDigit(s[0]);
      HexDigit(s[1]);
      HexAccepts(s[2..]);
      assert s == [s[0], s[1]] + s[2..];
    }
  }

  lemma HexDigit(c: char)
    ensures HexValue(c).Some? <==> IsHexDigit(c)
  {
    if v: int :| HexValue(c) == Some(v) {
      assert HEX_DIGITS[v] == LowerChar(c);
    }
  }

  lemma {:induction false} HexRoundTrip(data: seq<Byte>)
    ensures HexDecode(HexEncode(data)) == Ok(data)
  {
    if data != [] {
      var s := HexEncode(data);
      assert s[2..] == HexEncode(data[1..]);
      HexRoundTrip(data[1..]);
      assert data == [data[0]] + data[1..];
    }
  }

  lemma LowerPair(s: string)
    requires |s| >= 2
    ensures Lower(s) == [LowerChar(s[0]), LowerChar(s[1])] + Lower(s[2..])
  {
    assert s[1..][1..] == s[2..];
  }

  lemma HexPair(a: char, b: char)
    requires HexValue(a).Some? && HexValue(b).Some?
    ensures var n := 16 * HexValue(a).value + HexValue(b).value;
            0 <= n < 256 && HexChar(n / 16) == LowerChar(a) && HexChar(n % 16) == LowerChar(b)
  {
  }

  /** Decoding and printing again normalises the case and nothing else. */
  lemma {:induction false} HexNormalises(s: string)
    requires HexDecode(s).Ok?
    ensures HexEncode(HexDecode(s).value) == Lower(s)
  {
    hide HexValue, HexChar, LowerChar, Lower;
    if s == "" {
      assert |Lower(s)| == 0;
    } else {
      HexNormalises(s[2..]);
      var data := HexDecode(s).value;
      assert data[1..] == HexDecode(s[2..]).value;
      HexPair(s[0], s[1]);
      LowerPair(s);
    }
  }

  /******* Base64 (section 4 of RFC 4648) *******/

  function Char64(v: int): char
    requires 0 <= v < 64
  {
    if v < 26 then ('A' as int + v) as char
    else if v < 52 then ('a' as int + v - 26) as char
    else if v < 62 then ('0' as int + v - 52) as char
    else if v == 62 then '+' else '/'
  }

  function Value64(c: char): (v: Option<int>)
    ensures v.Some? ==> 0 <= v.value < 64
  {
    if 'A' <= c <= 'Z' then Some(c as int - 'A' as int)
    else if 'a' <= c <= 'z' then Some(c as int - 'a' as int + 26)
    else if '0' <= c <= '9' then Some(c as int - '0' as int + 52)
    else if c == '+' then Some(62)
    else if c == '/' then Some(63)
    else None
  }

  lemma Value64OfChar(v: int)
    requires 0 <= v < 64
    ensures Value64(Char64(v)) == Some(v) && Char64(v) != '=' && Char64(v) != '\n' && Char64(v) != '\r'
  {
  }

  function Base64Encode(data: seq<Byte>): string {
    if data == [] then ""
    else if |data| == 1 then [Char64(data[0] / 4), Char64(data[0] % 4 * 16), '=', '=']
    else if |data| == 2 then
      [Char64(data[0] / 4), Char64(data[0] % 4 * 16 + data[1] / 16), Char64(data[1] % 16 * 4), '=']
    else Quad(data[0], data[1], data[2]) + Base64Encode(data[3..])
  }

  function Quad(a: Byte, b: Byte, c: Byte): string {
    [Char64(a / 4), Char64(a % 4 * 16 + b / 16), Char64(b % 16 * 4 + c / 64), Char64(c % 64)]
  }

  /** Line breaks are skipped, padding is required, and nothing may follow it. */
  function Base64Decode(s: string): Result<seq<Byte>> {
    DecodeQuads(Unbroken(s))
  }

  function Unbroken(s: string): string {
    if s == "" then "" else (if s[0] == '\n' || s[0] == '\r' then "" else [s[0]]) + Unbroken(s[1..])
  }

  function DecodeQuads(s: string): Result<seq<Byte>> {
    if s == "" then Ok([])
    else if |s| < 4 then Error("illegal base64 data")
    else
      var a, b, c, d := Value64(s[0]), Value64(s[1]), Value64(s[2]), Value64(s[3]);
      if a.None? || b.None? then Error("illegal base64 data")
      else if s[2] == '=' then
        if s[3] == '=' && |s| == 4 then Ok([First(a.value, b.value)]) else Error("illegal base64 data")
      else if c.None? then Error("illegal base64 data")
      else if s[3] == '=' then
        if |s| == 4 then Ok([First(a.value, b.value), Second(b.value, c.value)]) else Error("illegal base64 data")
      else if d.None? then Error("illegal base64 data")
      else
        var rest := DecodeQuads(s[4..]);
        if rest.Error? then rest
        else Ok([First(a.value, b.value), Second(b.value, c.value), Third(c.value, d.value)] + rest.value)
  }

  function First(a: int, b: int): Byte
    requires 0 <= a < 64 && 0 <= b < 64
  {
    a * 4 + b / 16
  }

  function Second(b: int, c: int): Byte
    requires 0 <= b < 64 && 0 <= c < 64
  {
    b % 16 * 16 + c / 4
  }

  function Third(c: int, d: int): Byte
    requires 0 <= c < 64 && 0 <= d < 64
  {
    c % 4 * 64 + d
  }

  lemma QuadArithmetic(a: Byte, b: Byte, c: Byte)
    ensures First(a / 4, a % 4 * 16 + b / 16) == a
    ensures Second(a % 4 * 16 + b / 16, b % 16 * 4 + c / 64) == b
    ensures Third(b % 16 * 4 + c / 64, c % 64) == c
  {
  }

  predicate OneLine(s: string) {
    forall i :: 0 <= i < |s| ==> s[i] != '\n' && s[i] != '\r'
  }

  lemma PaddedQuads(a: Byte, b: Byte)
    ensures DecodeQuads(Base64Encode([a])) == Ok([a]) && OneLine(Base64Encode([a]))
    ensures DecodeQuads(Base64Encode([a, b])) == Ok([a, b]) && OneLine(Base64Encode([a, b]))
  {
    hide Char64, Value64, First, Second;
    QuadArithmetic(a, 0, 0);
    QuadArithmetic(a, b, 0);
    Value64OfChar(a / 4);
    Value64OfChar(a % 4 * 16);
    Value64OfChar(a % 4 * 16 + b / 16);
    Value64OfChar(b % 16 * 4);
  }

  lemma {:induction false} QuadsRoundTrip(data: seq<Byte>)
    ensures DecodeQuads(Base64Encode(data)) == Ok(data) && OneLine(Base64Encode(data))
  {
    hide Char64, Value64, DecodeQuads, Quad;
    if data == [] {
      EmptyQuads();
    } else if |data| == 1 {
      PaddedQuads(data[0], 0);
      assert data == [data[0]];
    } else if |data| == 2 {
      PaddedQuads(data[0], data[1]);
      assert data == [data[0], data[1]];
    } else {
      FullQuad(data[0], data[1], data[2], Base64Encode(data[3..]));
      QuadsRoundTrip(data[3..]);
      assert data == [data[0], data[1], data[2]] + data[3..];
    }
  }

  lemma EmptyQuads()
    ensures DecodeQuads("") == Ok([])
  {
  }

  lemma FullQuad(a: Byte, b: Byte, c: Byte, rest: string)
    ensures var s := Quad(a, b, c) + rest;
            DecodeQuads(s) == (if DecodeQuads(rest).Error? then DecodeQuads(rest)
                               else Ok([a, b, c] + DecodeQuads(rest).value))
            && |Quad(a, b, c)| == 4 && OneLine(Quad(a, b, c))
  {
    hide Char64, Value64, First, Second, Third;
    QuadArithmetic(a, b, c);
    Value64OfChar(a / 4);
    Value64OfChar(a % 4 * 16 + b / 16);
    Value64OfChar(b % 16 * 4 + c / 64);
    Value64OfChar(c % 64);
    var s := Quad(a, b, c) + rest;
    assert s[4..] == rest;
  }

  lemma {:induction false} NothingBroken(s: string)
    requires OneLine(s)
    ensures Unbroken(s) == s
  {
    if s != "" {
      NothingBroken(s[1..]);
    }
  }

  lemma Base64RoundTrip(data: seq<Byte>)
    ensures Base64Decode(Base64Encode(data)) == Ok(data)
  {
    QuadsRoundTrip(data);
    NothingBroken(Base64Encode(data));
  }

  /** The alphabet: upper case, lower case, digits, plus and slash, in the order of their codes. */
  lemma Alphabet()
    ensures Char64(0) == 'A' && Char64(26) == 'a' && Char64(52) == '0' && Char64(62) == '+' && Char64(63) == '/'
    ensures forall v :: 0 <= v < 61 && v !in {25, 51} ==> Char64(v + 1) as int == Char64(v) as int + 1
  {
  }

  function At(data: seq<Byte>, i: nat): Byte {
    if i < |data| then data[i] else 0
  }

  /** Three bytes, or what is left of them, are one number; its four digits to the base 64 are printed, the highest
      first, and a character without a byte to it is an equals sign. */
  lemma {:induction false} Base64Groups(data: seq<Byte>, i: nat) returns (w: int, x: int, y: int, z: int)
    requires 3 * i < |data|
    ensures 0 <= w < 64 && 0 <= x < 64 && 0 <= y < 64 && 0 <= z < 64
    ensures 262144 * w + 4096 * x + 64 * y + z
            == 65536 * At(data, 3 * i) + 256 * At(data, 3 * i + 1) + At(data, 3 * i + 2)
    ensures var s := Base64Encode(data);
            |s| == (|data| + 2) / 3 * 4 && s[4 * i] == Char64(w) && s[4 * i + 1] == Char64(x)
            && s[4 * i + 2] == (if 3 * i + 1 < |data| then Char64(y) else '=')
            && s[4 * i + 3] == (if 3 * i + 2 < |data| then Char64(z) else '=')
  {
    hide Char64;
    Base64Length(data);
    if i > 0 {
      w, x, y, z := Base64Groups(data[3..], i - 1);
    } else {
      var a, b, c := At(data, 0), At(data, 1), At(data, 2);
      w, x, y, z := a / 4, a % 4 * 16 + b / 16, b % 16 * 4 + c / 64, c % 64;
    }
  }

  lemma {:induction false} Base64Length(data: seq<Byte>)
    ensures |Base64Encode(data)| == (|data| + 2) / 3 * 4
  {
    hide Char64;
    if |data| > 2 {
      Base64Length(data[3..]);
    }
  }

  /** A character of the alphabet. */
  predicate In64(c: char) {
    exists v :: 0 <= v < 64 && Char64(v) == c
  }

  lemma InAlphabet(c: char)
    ensures Value64(c).Some? <==> In64(c)
  {
    if v: int :| Value64(c) == Some(v) {
      assert Char64(v) == c;
    }
  }

  predicate Fits64(s: string, i: nat)
    requires i < |s|
  {
    In64(s[i]) || (s[i] == '=' && (i == |s| - 1 || (i == |s| - 2 && s[i + 1] == '=')))
  }

  /** A header in one line has four characters a group, all of them in the alphabet, but for one or two equals signs at
      the very end. */
  lemma Base64Accepts(s: string)
    requires OneLine(s)
    ensures Base64Decode(s).Ok? <==> |s| % 4 == 0 && forall i :: 0 <= i < |s| ==> Fits64(s, i)
  {
    NothingBroken(s);
    QuadsAccept(s);
  }

  lemma {:induction false} QuadsAccept(s: string)
    ensures DecodeQuads(s).Ok? <==> |s| % 4 == 0 && forall i :: 0 <= i < |s| ==> Fits64(s, i)
  {
    hide Value64, In64, First, Second, Third;
    if |s| >= 4 {
      FirstQuad(s);
      if |s| > 4 {
        QuadsAccept(s[4..]);
        LaterQuads(s);
      }
    }
  }

  lemma LaterQuads(s: string)
    requires |s| > 4
    ensures (forall i :: 4 <= i < |s| ==> Fits64(s, i))
            <==> forall i :: 0 <= i < |s[4..]| ==> Fits64(s[4..], i)
  {
    hide In64;
    forall i | 4 <= i < |s| ensures Fits64(s, i) <==> Fits64(s[4..], i - 4) {
    }
    if forall i :: 4 <= i < |s| ==> Fits64(s, i) {
      forall i | 0 <= i < |s[4..]| ensures Fits64(s[4..], i) {
        assert Fits64(s, i + 4);
      }
    }
  }

  lemma FirstQuad(s: string)
    requires |s| >= 4
    ensures DecodeQuads(s).Ok?
            <==> Fits64(s, 0) && Fits64(s, 1) && Fits64(s, 2) && Fits64(s, 3)
                 && (|s| > 4 ==> DecodeQuads(s[4..]).Ok?)
  {
    hide Value64, In64, First, Second, Third;
    InAlphabet(s[0]);
    InAlphabet(s[1]);
    InAlphabet(s[2]);
    InAlphabet(s[3]);
    NoPadding();
  }

  lemma NoPadding()
    ensures Value64('=').None?
  {
  }

  /** A line break anywhere in the header is as good as none. */
  lemma LineBreaks(before: string, c: char, after: string)
    requires c == '\n' || c == '\r'
    ensures Base64Decode(before + [c] + after) == Base64Decode(before + after)
  {
    hide DecodeQuads;
    BreakSkipped(before, c, after);
  }

  lemma {:induction false} BreakSkipped(before: string, c: char, after: string)
    requires c == '\n' || c == '\r'
    ensures Unbroken(before + [c] + after) == Unbroken(before + after)
  {
    var s, t := before + [c] + after, before + after;
    if before == "" {
      assert s[0] == c && s[1..] == after == t;
    } else {
      assert s[0] == before[0] && s[1..] == before[1..] + [c] + after;
      assert t[0] == before[0] && t[1..] == before[1..] + after;
      BreakSkipped(before[1..], c, after);
    }
  }

  /******* End to end *******/

  /** The Content-MD5 header a client sends for a checksum. */
  function Header(md5: string): Result<string> {
    match HexDecode(md5)
    case Error(message) => Error(message)
    case Ok(data) => Ok(Base64Encode(data))
  }

  /** The checksum a server writes down for a Content-MD5 header. */
  function FromHeader(header: string): Result<string> {
    match Base64Decode(header)
    case Error(message) => Error(message)
    case Ok(data) => Ok(HexEncode(data))
  }

  /** For every byte string, what the client prints, decodes and encodes is what the server decodes and prints. */
  lemma SurvivesWire(data: seq<Byte>)
    ensures Header(HexEncode(data)).Ok? && FromHeader(Header(HexEncode(data)).value) == Ok(HexEncode(data))
  {
    HexRoundTrip(data);
    Base64RoundTrip(data);
  }

  /** For any text in the spec that is a checksum at all, the recorded checksum is the text exactly when the text is in
      lower case. */
  lemma RecordedAsSpecified(md5: string)
    requires Header(md5).Ok?
    ensures FromHeader(Header(md5).value) == Ok(Lower(md5))
    ensures FromHeader(Header(md5).value) == Ok(md5) <==> Lower(md5) == md5
  {
    Base64RoundTrip(HexDecode(md5).value);
    HexNormalises(md5);
  }
}
