/** Percent-encoding as done by Python's urllib.parse.quote(s) with its default
    safe="/": the string is encoded as UTF-8 and every byte that is not an
    unreserved character of section 2.3 of RFC 3986 (letters, digits, "-", ".",
    "_", "~") and not "/" becomes "%" followed by two upper-case hexadecimal
    digits (section 2.1 of RFC 3986). requests.utils.quote is the same function. */
module PercentEncoding {
  import opened Wrappers
  import opened Utf8

  predicate IsUnreserved(c: char) {
    ('A' <= c <= 'Z') || ('a' <= c <= 'z') || ('0' <= c <= '9') || c == '_' || c == '.' || c == '-' || c == '~'
  }

  /** What quote leaves as it is: the unreserved characters and the default safe "/". */
  predicate IsSafe(c: char) {
    IsUnreserved(c) || c == '/'
  }

  predicate IsUpperHex(c: char) {
    ('0' <= c <= '9') || ('A' <= c <= 'F')
  }

  function HexDigit(n: int): (c: char)
    requires 0 <= n < 16
    ensures IsUpperHex(c)
  {
    if n < 10 then ('0' as int + n) as char else ('A' as int + n - 10) as char
  }

  /** Value of a hexadecimal digit; section 2.1 of RFC 3986 makes both cases equivalent. */
  function HexValue(c: char): Option<int> {
    if '0' <= c <= '9' then Some(c as int - '0' as int)
    else if 'A' <= c <= 'F' then Some(c as int - 'A' as int + 10)
    else if 'a' <= c <= 'f' then Some(c as int - 'a' as int + 10)
    else None
  }

  function ByteChar(b: byte): char { b as int as char }

  function QuoteByte(b: byte): string {
    if IsSafe(ByteChar(b)) then [ByteChar(b)]
    else ['%', HexDigit(b as int / 16), HexDigit(b as int % 16)]
  }

  function QuoteBytes(bs: seq<byte>): string {
    if bs == [] then "" else QuoteByte(bs[0]) + QuoteBytes(bs[1..])
  }

  /** urllib.parse.quote(s) with safe="/". */
  function Quote(s: string): string {
    QuoteBytes(Encode(s))
  }

  /** The number of bytes that quote escapes. */
  function EscapedCount(bs: seq<byte>): nat {
    if bs == [] then 0 else (if IsSafe(ByteChar(bs[0])) then 0 else 1) + EscapedCount(bs[1..])
  }

  /** Percent-decoding to bytes: "%XY" is the byte XY, an ASCII character stands
      for itself; "%" without two hexadecimal digits, or a non-ASCII character, is
      malformed. */
  function PercentDecode(t: string): Option<seq<byte>>
    decreases |t|
  {
    if t == [] then Some([])
    else if t[0] == '%' then
      if |t| >= 3 && HexValue(t[1]).Some? && HexValue(t[2]).Some? then
        match PercentDecode(t[3..])
        case None => None
        case Some(rest) => Some([(HexValue(t[1]).value * 16 + HexValue(t[2]).value) as byte] + rest)
      else None
    else if t[0] as int < 0x80 then
      match PercentDecode(t[1..])
      case None => None
      case Some(rest) => Some([t[0] as int as byte] + rest)
    else None
  }

  lemma HexRoundTrip(n: int)
    requires 0 <= n < 16
    ensures HexValue(HexDigit(n)) == Some(n)
  {
  }

  lemma DecodeQuoteByte(b: byte, rest: string)
    ensures PercentDecode(QuoteByte(b) + rest) ==
      match PercentDecode(rest)
      case None => None
      case Some(r) => Some([b] + r)
  {
    var t := QuoteByte(b) + rest;
    if IsSafe(ByteChar(b)) {
      assert t[1..] == rest;
    } else {
      HexRoundTrip(b as int / 16);
      HexRoundTrip(b as int % 16);
      assert t[3..] == rest;
    }
  }

  /** Round trip: percent-decoding what quote produced gives back the UTF-8 bytes. */
  lemma {:induction false} DecodeQuoteBytes(bs: seq<byte>)
    ensures PercentDecode(QuoteBytes(bs)) == Some(bs)
  {
    if bs != [] {
      DecodeQuoteByte(bs[0], QuoteBytes(bs[1..]));
      DecodeQuoteBytes(bs[1..]);
      assert [bs[0]] + bs[1..] == bs;
    }
  }

  lemma QuoteRoundTrip(s: string)
    ensures PercentDecode(Quote(s)) == Some(Encode(s))
    ensures Decode(PercentDecode(Quote(s)).value) == Some(s)
  {
    DecodeQuoteBytes(Encode(s));
    DecodeEncode(s);
  }

  /** Alphabet and escapes: the output holds safe characters and "%" only, and
      every "%" starts an escape of two upper-case hexadecimal digits, so it never
      contains a query delimiter such as "&", "=", "?", "#" or a space, nor a
      lower-case escape such as "%2a". */
  lemma {:induction false} QuoteBytesAlphabet(bs: seq<byte>)
    ensures forall i :: 0 <= i < |QuoteBytes(bs)| ==>
      IsSafe(QuoteBytes(bs)[i]) || QuoteBytes(bs)[i] == '%'
    ensures forall i :: 0 <= i < |QuoteBytes(bs)| && QuoteBytes(bs)[i] == '%' ==>
      i + 2 < |QuoteBytes(bs)| && IsUpperHex(QuoteBytes(bs)[i + 1]) && IsUpperHex(QuoteBytes(bs)[i + 2])
  {
    if bs != [] {
      QuoteBytesAlphabet(bs[1..]);
      var h, t := QuoteByte(bs[0]), QuoteBytes(bs[1..]);
      assert QuoteBytes(bs) == h + t;
      forall i | 0 <= i < |h + t|
        ensures IsSafe((h + t)[i]) || (h + t)[i] == '%'
        ensures (h + t)[i] == '%' ==> i + 2 < |h + t| && IsUpperHex((h + t)[i + 1]) && IsUpperHex((h + t)[i + 2])
      {
        if i >= |h| {
          assert (h + t)[i] == t[i - |h|];
          if t[i - |h|] == '%' {
            assert (h + t)[i + 1] == t[i - |h| + 1] && (h + t)[i + 2] == t[i - |h| + 2];
          }
        }
      }
    }
  }

  /** For instance a space becomes "%20", and "é" (UTF-8 C3 A9) becomes "%C3%A9". */
  lemma QuoteExamples()
    ensures Quote("a b") == "a%20b"
    ensures Quote("\U{e9}") == "%C3%A9"
  {
    assert Encode("a b") == [0x61, 0x20, 0x62] by {
      assert Encode("a b") == EncodeChar('a') + Encode("a b"[1..]);
      assert Encode(" b") == EncodeChar(' ') + Encode(" b"[1..]);
    }
    assert QuoteBytes([0x61, 0x20, 0x62]) == QuoteByte(0x61) + QuoteBytes([0x20, 0x62]);
    assert QuoteBytes([0x20, 0x62]) == QuoteByte(0x20) + QuoteBytes([0x62]);
    assert QuoteBytes([0x62]) == QuoteByte(0x62) + QuoteBytes([]);
    assert Encode("\U{e9}") == [0xC3, 0xA9] by {
      assert Encode("\U{e9}") == EncodeChar('\U{e9}') + Encode([]);
    }
    assert QuoteBytes([0xC3, 0xA9]) == QuoteByte(0xC3) + QuoteBytes([0xA9]);
    assert QuoteBytes([0xA9]) == QuoteByte(0xA9) + QuoteBytes([]);
  }

  /** So quote's output can stand as a query parameter value. */
  lemma QuoteHasNoDelimiters(s: string)
    ensures forall i :: 0 <= i < |Quote(s)| ==>
      Quote(s)[i] !in {'&', '#', '=', '?', ' ', '+'}
  {
    QuoteBytesAlphabet(Encode(s));
  }

  /** Length: one character per kept byte, three per escaped byte. */
  lemma {:induction false} QuoteBytesLength(bs: seq<byte>)
    ensures |QuoteBytes(bs)| == |bs| + 2 * EscapedCount(bs)
  {
    if bs != [] {
      QuoteBytesLength(bs[1..]);
    }
  }

  /** A string made only of safe characters is left exactly as it is. */
  lemma {:induction false} QuoteSafeIdentity(s: string)
    requires forall i :: 0 <= i < |s| ==> IsSafe(s[i])
    ensures Quote(s) == s
  {
    if s != [] {
      QuoteSafeIdentity(s[1..]);
      assert Encode(s) == EncodeChar(s[0]) + Encode(s[1..]);
      assert EncodeChar(s[0]) == [s[0] as int as byte];
      assert s == [s[0]] + s[1..];
    }
  }
}
