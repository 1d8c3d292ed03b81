/** urllib.parse.quote(text, safe=''), used to put a publisher id into a URL
    path: the text is encoded as UTF-8 and every octet other than an
    unreserved character (section 2.3 of RFC 3986) becomes a
    percent-encoded triple "%HH" with upper-case hex digits (section 2.1 of
    RFC 3986). Decoding (percent-decoding, then UTF-8) is the partner that
    shows nothing is lost. */
module UrlQuote {
  import opened Values

  type Byte = x: int | 0 <= x < 256

  /** The integers that are Unicode scalar values, i.e. that Dafny's char can hold. */
  predicate IsScalar(v: int) {
    0 <= v < 0xD800 || 0xE000 <= v < 0x11_0000
  }

  // ----- UTF-8 -----

  function Utf8Char(c: char): (bs: seq<Byte>)
    ensures 1 <= |bs| <= 4
  {
    var v := c as int;
    if v < 0x80 then [v]
    else if v < 0x800 then [0xC0 + v / 64, 0x80 + v % 64]
    else if v < 0x1_0000 then [0xE0 + v / 4096, 0x80 + (v / 64) % 64, 0x80 + v % 64]
    else [0xF0 + v / 262144, 0x80 + (v / 4096) % 64, 0x80 + (v / 64) % 64, 0x80 + v % 64]
  }

  /** str.encode('utf-8'). */
  function Utf8Encode(s: string): seq<Byte> {
    if s == [] then [] else Utf8Char(s[0]) + Utf8Encode(s[1..])
  }

  predicate IsContinuation(b: Byte) {
    0x80 <= b < 0xC0
  }

  /** The first character of a UTF-8 byte string and the number of bytes it takes. */
  function DecodeFirst(bs: seq<Byte>): (r: Option<(char, nat)>)
    ensures r.Some? ==> 1 <= r.value.1 <= |bs|
  {
    if bs == [] then None
    else
      var b0: int := bs[0];
      if b0 < 0x80 then Some((b0 as char, 1))
      else if 0xC0 <= b0 < 0xE0 && |bs| >= 2 && IsContinuation(bs[1]) then
        var v := (b0 - 0xC0) * 64 + (bs[1] as int - 0x80);
        if IsScalar(v) then Some((v as char, 2)) else None
      else if 0xE0 <= b0 < 0xF0 && |bs| >= 3 && IsContinuation(bs[1]) && IsContinuation(bs[2]) then
        var v := (b0 - 0xE0) * 4096 + (bs[1] as int - 0x80) * 64 + (bs[2] as int - 0x80);
        if IsScalar(v) then Some((v as char, 3)) else None
      else if 0xF0 <= b0 < 0xF8 && |bs| >= 4 && IsContinuation(bs[1]) && IsContinuation(bs[2]) && IsContinuation(bs[3]) then
        var v := (b0 - 0xF0) * 262144 + (bs[1] as int - 0x80) * 4096 + (bs[2] as int - 0x80) * 64 + (bs[3] as int - 0x80);
        if IsScalar(v) then Some((v as char, 4)) else None
      else None
  }

  /** bytes.decode('utf-8'), None where the bytes are not UTF-8. */
  function Utf8Decode(bs: seq<Byte>): Option<string>
    decreases |bs|
  {
    if bs == [] then Some([])
    else
      match DecodeFirst(bs)
      case None => None
      case Some(first) =>
        match Utf8Decode(bs[first.1..])
        case None => None
        case Some(rest) => Some([first.0] + rest)
  }

  lemma SplitBy64(v: int)
    requires v >= 0
    ensures v == (v / 64) * 64 + v % 64
    ensures v / 4096 == (v / 64) / 64
    ensures v / 262144 == (v / 4096) / 64
  {
  }

  lemma DecodeFirstOfChar(c: char, rest: seq<Byte>)
    ensures DecodeFirst(Utf8Char(c) + rest) == Some((c, |Utf8Char(c)|))
  {
    var v := c as int;
    var bs := Utf8Char(c) + rest;
    SplitBy64(v);
    SplitBy64(v / 64);
    SplitBy64(v / 4096);
    if v < 0x80 {
    } else if v < 0x800 {
      assert (bs[0] as int - 0xC0) * 64 + (bs[1] as int - 0x80) == v;
    } else if v < 0x1_0000 {
      assert (bs[0] as int - 0xE0) * 4096 + (bs[1] as int - 0x80) * 64 + (bs[2] as int - 0x80) == v;
    } else {
      assert (bs[0] as int - 0xF0) * 262144 + (bs[1] as int - 0x80) * 4096 + (bs[2] as int - 0x80) * 64 + (bs[3] as int - 0x80) == v;
    }
  }

  lemma {:induction false} Utf8RoundTrip(s: string)
    ensures Utf8Decode(Utf8Encode(s)) == Some(s)
  {
    if s != [] {
      var bs := Utf8Encode(s);
      DecodeFirstOfChar(s[0], Utf8Encode(s[1..]));
      assert bs[|Utf8Char(s[0])|..] == Utf8Encode(s[1..]);
      Utf8RoundTrip(s[1..]);
      assert [s[0]] + s[1..] == s;
    }
  }

  // ----- percent-encoding -----

  /** The unreserved characters of section 2.3 of RFC 3986, quote's always-safe set. */
  predicate IsUnreserved(c: char) {
    ('A' <= c <= 'Z') || ('a' <= c <= 'z') || ('0' <= c <= '9') || c == '-' || c == '.' || c == '_' || c == '~'
  }

  predicate IsHexDigit(c: char) {
    ('0' <= c <= '9') || ('A' <= c <= 'F') || ('a' <= c <= 'f')
  }

  function HexValue(c: char): (d: int)
    requires IsHexDigit(c)
    ensures 0 <= d < 16
  {
    if '0' <= c <= '9' then c as int - '0' as int
    else if 'A' <= c <= 'F' then c as int - 'A' as int + 10
    else c as int - 'a' as int + 10
  }

  const HexDigits := "0123456789ABCDEF"

  function EscapeByte(b: Byte): (s: string)
    ensures |s| == 1 || |s| == 3
  {
    if b < 128 && IsUnreserved(b as char) then [b as char] else ['%', HexDigits[b / 16], HexDigits[b % 16]]
  }

  function QuoteBytes(bs: seq<Byte>): string {
    if bs == [] then "" else EscapeByte(bs[0]) + QuoteBytes(bs[1..])
  }

  /** quote(s, safe=''): a single path segment of unreserved characters and
      %HH triples, which decoding turns back into s. */
  function Quote(s: string): (q: string)
    ensures WellEscaped(q) && '/' !in q
    ensures Unquote(q) == Some(s)
  {
    var q := QuoteBytes(Utf8Encode(s));
    QuoteBytesWellEscaped(Utf8Encode(s));
    WellEscapedHasNoSlash(q);
    UnescapeQuoteBytes(Utf8Encode(s));
    Utf8RoundTrip(s);
    q
  }

  /** Every character is unreserved or part of a "%HH" triple. */
  predicate WellEscaped(s: string)
    decreases |s|
  {
    s == []
    || (IsUnreserved(s[0]) && WellEscaped(s[1..]))
    || (|s| >= 3 && s[0] == '%' && IsHexDigit(s[1]) && IsHexDigit(s[2]) && WellEscaped(s[3..]))
  }

  /** Percent-decoding to octets; None for a malformed triple or a character beyond one octet. */
  function Unescape(s: string): Option<seq<Byte>>
    decreases |s|
  {
    if s == [] then Some([])
    else if s[0] == '%' then
      if |s| >= 3 && IsHexDigit(s[1]) && IsHexDigit(s[2]) then
        match Unescape(s[3..])
        case None => None
        case Some(rest) => Some([HexValue(s[1]) * 16 + HexValue(s[2])] + rest)
      else None
    else if s[0] as int < 256 then
      match Unescape(s[1..])
      case None => None
      case Some(rest) => Some([s[0] as int] + rest)
    else None
  }

  /** unquote(): percent-decoding followed by UTF-8 decoding. */
  function Unquote(s: string): Option<string> {
    match Unescape(s)
    case None => None
    case Some(bs) => Utf8Decode(bs)
  }

  lemma NibbleRoundTrip(d: int)
    requires 0 <= d < 16
    ensures IsHexDigit(HexDigits[d]) && HexValue(HexDigits[d]) == d
  {
    if d < 10 {
      assert HexDigits[d] as int == '0' as int + d;
    } else {
      assert HexDigits[d] as int == 'A' as int + d - 10;
    }
  }

  lemma HexDigitsRoundTrip(b: Byte)
    ensures IsHexDigit(HexDigits[b / 16]) && IsHexDigit(HexDigits[b % 16])
    ensures HexValue(HexDigits[b / 16]) * 16 + HexValue(HexDigits[b % 16]) == b
  {
    NibbleRoundTrip(b / 16);
    NibbleRoundTrip(b % 16);
  }

  lemma {:induction false} QuoteBytesWellEscaped(bs: seq<Byte>)
    ensures WellEscaped(QuoteBytes(bs))
  {
    if bs != [] {
      var s := QuoteBytes(bs);
      QuoteBytesWellEscaped(bs[1..]);
      var e := EscapeByte(bs[0]);
      if |e| == 1 {
        assert s[1..] == QuoteBytes(bs[1..]);
      } else {
        HexDigitsRoundTrip(bs[0]);
        assert s[3..] == QuoteBytes(bs[1..]);
      }
    }
  }

  lemma {:induction false} UnescapeQuoteBytes(bs: seq<Byte>)
    ensures Unescape(QuoteBytes(bs)) == Some(bs)
  {
    if bs != [] {
      var s := QuoteBytes(bs);
      UnescapeQuoteBytes(bs[1..]);
      var e := EscapeByte(bs[0]);
      if |e| == 1 {
        assert s[1..] == QuoteBytes(bs[1..]);
      } else {
        HexDigitsRoundTrip(bs[0]);
        assert s[3..] == QuoteBytes(bs[1..]);
      }
      assert [bs[0]] + bs[1..] == bs;
    }
  }

  lemma {:induction false} WellEscapedHasNoSlash(s: string)
    requires WellEscaped(s)
    ensures '/' !in s
    decreases |s|
  {
    if s != [] {
      if IsUnreserved(s[0]) && WellEscaped(s[1..]) {
        WellEscapedHasNoSlash(s[1..]);
        assert s == [s[0]] + s[1..];
      } else {
        WellEscapedHasNoSlash(s[3..]);
        assert s == s[..3] + s[3..];
      }
    }
  }

  /** A text made only of unreserved characters is left as it is. */
  lemma {:induction false} QuoteKeepsUnreserved(s: string)
    requires forall i :: 0 <= i < |s| ==> IsUnreserved(s[i])
    ensures Quote(s) == s
  {
    if s != [] {
      QuoteKeepsUnreserved(s[1..]);
      var bs := Utf8Encode(s);
      assert bs == [s[0] as int] + Utf8Encode(s[1..]);
      assert bs[1..] == Utf8Encode(s[1..]);
      assert QuoteBytes(bs) == EscapeByte(bs[0]) + QuoteBytes(bs[1..]);
      assert [s[0]] + s[1..] == s;
    }
  }
}
