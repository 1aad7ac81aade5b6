/** The two spellings of a funding outpoint, `hash#index` text and 36 packed bytes, and the
    canonical text both are brought to before outpoints are compared or bound. */
module OutpointText {
  import opened Wrappers

  type byte = x: int | 0 <= x < 256
  const U32_MAX := 0xFFFF_FFFF
  const U64_MAX := 0xFFFF_FFFF_FFFF_FFFF

  /** What an outpoint text denotes. */
  datatype Point = Point(hash: seq<byte>, index: nat)

  function Digit(c: char): (d: nat)
    ensures d <= 16
  {
    if '0' <= c <= '9' then (c - '0') as nat
    else if 'a' <= c <= 'f' then (c - 'a') as nat + 10
    else if 'A' <= c <= 'F' then (c - 'A') as nat + 10
    else 16
  }

  function DigitChar(d: nat): char
    requires d < 16
  {
    if d < 10 then '0' + d as char else 'a' + (d - 10) as char
  }

  /** Pairs of hex digits; None on an odd length or another character. */
  function HexDecode(s: string): Option<seq<byte>> {
    if s == "" then Some([])
    else if |s| == 1 || Digit(s[0]) == 16 || Digit(s[1]) == 16 then None
    else match HexDecode(s[2..])
      case None => None
      case Some(rest) => Some([Digit(s[0]) * 16 + Digit(s[1])] + rest)
  }

  function HexEncode(bytes: seq<byte>): (s: string)
    ensures '#' !in s
  {
    if bytes == [] then "" else [DigitChar(bytes[0] / 16), DigitChar(bytes[0] % 16)] + HexEncode(bytes[1..])
  }

  function StripPrefix(s: string): string {
    if "0x" <= s then s[2..] else s
  }

  function Bytes(s: string): Option<seq<byte>> {
    HexDecode(StripPrefix(s))
  }

  /** Digits read left to right onto `acc`; None on a foreign digit or beyond 64 bits. */
  function Digits(s: string, radix: nat, acc: nat): Option<nat> {
    if s == "" then Some(acc)
    else if Digit(s[0]) >= radix || acc * radix + Digit(s[0]) > U64_MAX then None
    else Digits(s[1..], radix, acc * radix + Digit(s[0]))
  }

  /** Unsigned parsing as the standard library does it: one leading plus is allowed, an
      empty string or a bare sign is not. */
  function Unsigned(s: string, radix: nat): Option<nat> {
    var digits := if s != "" && s[0] == '+' then s[1..] else s;
    if digits == "" then None else Digits(digits, radix, 0)
  }

  function Number(s: string): Option<nat> {
    if "0x" <= s then Unsigned(s[2..], 16) else Unsigned(s, 10)
  }

  function FindHash(s: string): (i: nat)
    ensures i <= |s| && '#' !in s[..i] && (i < |s| ==> s[i] == '#')
  {
    if s == "" || s[0] == '#' then 0 else assert s[0] !in ['#']; FindHash(s[1..]) + 1
  }

  function LittleEndian(bytes: seq<byte>): nat {
    if bytes == [] then 0 else bytes[0] + 256 * LittleEndian(bytes[1..])
  }

  /** The hash text is kept as written; packed bytes are rendered in lower case. */
  function ParseOutpoint(value: string): Option<(string, nat)> {
    var i := FindHash(value);
    if i < |value| then
      match (Bytes(value[..i]), Number(value[i + 1..]))
      case (Some(hash), Some(index)) => if |hash| == 32 then Some((value[..i], index)) else None
      case _ => None
    else match Bytes(value)
      case Some(bytes) =>
        if |bytes| == 36 then Some(("0x" + HexEncode(bytes[..32]), LittleEndian(bytes[32..]))) else None
      case None => None
  }

  function Decimal(n: nat): (s: string)
    ensures s != ""
  {
    if n < 10 then [DigitChar(n)] else Decimal(n / 10) + [DigitChar(n % 10)]
  }

  function Print(p: Point): string {
    "0x" + HexEncode(p.hash) + "#" + Decimal(p.index)
  }

  /** The outpoint a text denotes, if it is a spelling of one. */
  function Meaning(value: string): Option<Point> {
    match ParseOutpoint(value)
    case Some((hash, index)) =>
      if index <= U32_MAX && Bytes(hash).Some? then Some(Point(Bytes(hash).value, index)) else None
    case None => None
  }

  function Canonical(value: string): Option<string> {
    match Meaning(value)
    case Some(p) => Some(Print(p))
    case None => None
  }

  lemma {:induction false} HexRoundTrip(bytes: seq<byte>)
    ensures HexDecode(HexEncode(bytes)) == Some(bytes)
  {
    if bytes != [] {
      HexRoundTrip(bytes[1..]);
      assert Digit(DigitChar(bytes[0] / 16)) == bytes[0] / 16 && Digit(DigitChar(bytes[0] % 16)) == bytes[0] % 16;
      assert HexEncode(bytes)[2..] == HexEncode(bytes[1..]);
      assert [bytes[0]] + bytes[1..] == bytes;
    }
  }

  lemma {:induction false} DigitsAppend(s: string, c: char, radix: nat, acc: nat)
    ensures Digits(s + [c], radix, acc) == match Digits(s, radix, acc)
      case None => None
      case Some(n) => Digits([c], radix, n)
    decreases |s|
  {
    if s != "" {
      assert (s + [c])[1..] == s[1..] + [c];
      if !(Digit(s[0]) >= radix || acc * radix + Digit(s[0]) > U64_MAX) {
        DigitsAppend(s[1..], c, radix, acc * radix + Digit(s[0]));
      }
    }
  }

  lemma {:induction false} DecimalRoundTrip(n: nat)
    requires n <= U64_MAX
    ensures Digits(Decimal(n), 10, 0) == Some(n)
    ensures '0' <= Decimal(n)[0] <= '9'
    ensures |Decimal(n)| > 1 ==> Decimal(n)[0] != '0'
  {
    if n < 10 {
      assert Decimal(n) == [DigitChar(n)];
      assert Digits("", 10, n) == Some(n);
    } else {
      DecimalRoundTrip(n / 10);
      DigitsAppend(Decimal(n / 10), DigitChar(n % 10), 10, 0);
      assert Digits("", 10, n) == Some(n);
      assert n / 10 < 10 ==> Decimal(n / 10) == [DigitChar(n / 10)];
    }
  }

  lemma NumberOfDecimal(n: nat)
    requires n <= U64_MAX
    ensures Number(Decimal(n)) == Some(n)
  {
    DecimalRoundTrip(n);
    assert |Decimal(n)| > 1 ==> Decimal(n)[0] != "0x"[0];
  }

  lemma {:induction false} DigitsFit(s: string, radix: nat, acc: nat)
    requires acc <= U64_MAX
    ensures Digits(s, radix, acc).Some? ==> Digits(s, radix, acc).value <= U64_MAX
    decreases |s|
  {
    if s != "" && acc * radix + Digit(s[0]) <= U64_MAX { DigitsFit(s[1..], radix, acc * radix + Digit(s[0])); }
  }

  lemma NumberFits(s: string)
    ensures Number(s).Some? ==> Number(s).value <= U64_MAX
  {
    var hex := if |s| >= 2 then s[2..] else s;
    DigitsFit(hex, 16, 0);
    DigitsFit(s, 10, 0);
    if hex != "" { DigitsFit(hex[1..], 16, 0); }
    if s != "" { DigitsFit(s[1..], 10, 0); }
  }

  lemma {:induction false} FindHashAt(a: string, b: string)
    requires '#' !in a
    ensures FindHash(a + "#" + b) == |a|
    decreases a
  {
    if a != "" {
      assert (a + "#" + b)[1..] == a[1..] + "#" + b;
      FindHashAt(a[1..], b);
    }
  }

  /** Printing and parsing an outpoint gives it back. */
  lemma PrintRoundTrip(p: Point)
    requires |p.hash| == 32 && p.index <= U32_MAX
    ensures Meaning(Print(p)) == Some(p)
  {
    var hash, index := "0x" + HexEncode(p.hash), Decimal(p.index);
    FindHashAt(hash, index);
    assert Print(p)[..|hash|] == hash && Print(p)[|hash| + 1..] == index;
    HexRoundTrip(p.hash);
    assert hash[2..] == HexEncode(p.hash);
    NumberOfDecimal(p.index);
  }

  lemma MeaningIsPoint(value: string)
    requires Meaning(value).Some?
    ensures |Meaning(value).value.hash| == 32 && Meaning(value).value.index <= U32_MAX
  {
    var i := FindHash(value);
    if i >= |value| {
      var hash := Bytes(value).value[..32];
      HexRoundTrip(hash);
      assert ("0x" + HexEncode(hash))[2..] == HexEncode(hash);
    }
  }

  /** The canonical text of a spelling is a spelling of the same point and its own
      canonical text. */
  lemma CanonicalIsIdempotent(value: string)
    requires Canonical(value).Some?
    ensures Canonical(Canonical(value).value) == Canonical(value)
    ensures Meaning(Canonical(value).value) == Meaning(value)
  {
    MeaningIsPoint(value);
    PrintRoundTrip(Meaning(value).value);
  }

  /** Two spellings have one canonical text exactly when they denote one point. */
  lemma CanonicalIff(a: string, b: string)
    requires Canonical(a).Some? && Canonical(b).Some?
    ensures Canonical(a) == Canonical(b) <==> Meaning(a) == Meaning(b)
  {
    CanonicalIsIdempotent(a);
    CanonicalIsIdempotent(b);
  }

  function LittleEndianBytes(n: nat, width: nat): (bytes: seq<byte>)
    ensures |bytes| == width
  {
    if width == 0 then [] else [n % 256] + LittleEndianBytes(n / 256, width - 1)
  }

  function Power256(width: nat): nat {
    if width == 0 then 1 else 256 * Power256(width - 1)
  }

  lemma {:induction false} LittleEndianRoundTrip(n: nat, width: nat)
    requires n < Power256(width)
    ensures LittleEndian(LittleEndianBytes(n, width)) == n
    decreases width
  {
    if width > 0 { LittleEndianRoundTrip(n / 256, width - 1); }
  }

  /** The packed spelling of a point means that point, so it canonicalises to its text. */
  lemma PackedMeansPoint(p: Point)
    requires |p.hash| == 32 && p.index <= U32_MAX
    ensures Canonical("0x" + HexEncode(p.hash + LittleEndianBytes(p.index, 4))) == Some(Print(p))
  {
    var bytes := p.hash + LittleEndianBytes(p.index, 4);
    var packed := "0x" + HexEncode(bytes);
    assert packed[2..] == HexEncode(bytes);
    HexRoundTrip(bytes);
    assert '#' !in packed;
    assert Power256(4) == 256 * (256 * (256 * (256 * Power256(0))));
    LittleEndianRoundTrip(p.index, 4);
    assert bytes[..32] == p.hash && bytes[32..] == LittleEndianBytes(p.index, 4);
    HexRoundTrip(p.hash);
    assert ("0x" + HexEncode(p.hash))[2..] == HexEncode(p.hash);
  }

  // Other spellings.

  function UpperChar(d: nat): char
    requires d < 16
  {
    if d < 10 then '0' + d as char else 'A' + (d - 10) as char
  }

  function UpperEncode(bytes: seq<byte>): (s: string)
    ensures '#' !in s && 'x' !in s
  {
    if bytes == [] then "" else [UpperChar(bytes[0] / 16), UpperChar(bytes[0] % 16)] + UpperEncode(bytes[1..])
  }

  lemma {:induction false} UpperRoundTrip(bytes: seq<byte>)
    ensures HexDecode(UpperEncode(bytes)) == Some(bytes)
  {
    if bytes != [] {
      UpperRoundTrip(bytes[1..]);
      assert Digit(UpperChar(bytes[0] / 16)) == bytes[0] / 16 && Digit(UpperChar(bytes[0] % 16)) == bytes[0] % 16;
      assert UpperEncode(bytes)[2..] == UpperEncode(bytes[1..]);
      assert [bytes[0]] + bytes[1..] == bytes;
    }
  }

  /** Upper-case digits without the prefix mean the same point. */
  lemma UpperMeansPoint(p: Point)
    requires |p.hash| == 32 && p.index <= U32_MAX
    ensures Canonical(UpperEncode(p.hash) + "#" + Decimal(p.index)) == Some(Print(p))
  {
    var hash, index := UpperEncode(p.hash), Decimal(p.index);
    FindHashAt(hash, index);
    assert (hash + "#" + index)[..|hash|] == hash && (hash + "#" + index)[|hash| + 1..] == index;
    UpperRoundTrip(p.hash);
    assert |hash| < 2 || hash[1] in hash;
    NumberOfDecimal(p.index);
  }
}
