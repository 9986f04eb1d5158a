/** Base64 with the standard alphabet and "=" padding (section 4 of RFC 4648),
    as Python's base64.b64encode produces it. */
module Base64 {
  import opened Wrappers
  import opened Utf8

  /** The 64-character alphabet: A-Z, a-z, 0-9, "+", "/". */
  function AlphabetChar(n: int): (c: char)
    requires 0 <= n < 64
    ensures InAlphabet(c)
  {
    if n < 26 then ('A' as int + n) as char
    else if n < 52 then ('a' as int + n - 26) as char
    else if n < 62 then ('0' as int + n - 52) as char
    else if n == 62 then '+'
    else '/'
  }

  predicate InAlphabet(c: char) {
    ('A' <= c <= 'Z') || ('a' <= c <= 'z') || ('0' <= c <= '9') || c == '+' || c == '/'
  }

  /** The inverse of AlphabetChar; None outside the alphabet (including "="). */
  function CharValue(c: char): (r: Option<int>)
    ensures r.Some? <==> InAlphabet(c)
    ensures r.Some? ==> 0 <= r.value < 64 && AlphabetChar(r.value) == c
  {
    if 'A' <= c <= 'Z' then Some(c as int - 'A' as int)
    else if 'a' <= c <= 'z' then Some(c as int - 'a' as int + 26)
    else if '0' <= c <= '9' then Some(c as int - '0' as int + 52)
    else if c == '+' then Some(62)
    else if c == '/' then Some(63)
    else None
  }

  lemma CharValueOfAlphabet(n: int)
    requires 0 <= n < 64
    ensures CharValue(AlphabetChar(n)) == Some(n)
  {
  }

  /** The four characters of a full three-byte group. */
  function EncodeGroup3(a: byte, b: byte, c: byte): string {
    [AlphabetChar(a as int / 4), AlphabetChar((a as int % 4) * 16 + b as int / 16),
     AlphabetChar((b as int % 16) * 4 + c as int / 64), AlphabetChar(c as int % 64)]
  }

  /** A final two-byte group: three characters and one "=". */
  function EncodeGroup2(a: byte, b: byte): string {
    [AlphabetChar(a as int / 4), AlphabetChar((a as int % 4) * 16 + b as int / 16),
     AlphabetChar((b as int % 16) * 4), '=']
  }

  /** A final one-byte group: two characters and "==". */
  function EncodeGroup1(a: byte): string {
    [AlphabetChar(a as int / 4), AlphabetChar((a as int % 4) * 16), '=', '=']
  }

  function Encode(bs: seq<byte>): string
    decreases |bs|
  {
    if |bs| == 0 then ""
    else if |bs| == 1 then EncodeGroup1(bs[0])
    else if |bs| == 2 then EncodeGroup2(bs[0], bs[1])
    else EncodeGroup3(bs[0], bs[1], bs[2]) + Encode(bs[3..])
  }

  /** Decodes one group of four characters; a group with padding must be last. */
  function DecodeGroup(g: string, last: bool): (r: Option<seq<byte>>)
    requires |g| == 4
  {
    var v0, v1, v2, v3 := CharValue(g[0]), CharValue(g[1]), CharValue(g[2]), CharValue(g[3]);
    if v0.None? || v1.None? then None
    else
      var x0, x1 := v0.value, v1.value;
      var a := (x0 * 4 + x1 / 16) as byte;
      if v2.Some? && v3.Some? then
        var x2, x3 := v2.value, v3.value;
        Some([a, ((x1 % 16) * 16 + x2 / 4) as byte, ((x2 % 4) * 64 + x3) as byte])
      else if last && v2.Some? && g[3] == '=' && v2.value % 4 == 0 then
        Some([a, ((x1 % 16) * 16 + v2.value / 4) as byte])
      else if last && g[2] == '=' && g[3] == '=' && x1 % 16 == 0 then
        Some([a])
      else None
  }

  /** Strict decoding: the length is a multiple of four, only alphabet characters,
      padding only at the very end and no stray bits in the last character. */
  function Decode(s: string): Option<seq<byte>>
    decreases |s|
  {
    if |s| == 0 then Some([])
    else if |s| < 4 then None
    else match DecodeGroup(s[..4], |s| == 4)
      case None => None
      case Some(g) =>
        match Decode(s[4..])
        case None => None
        case Some(rest) => Some(g + rest)
  }

  /** The bit arithmetic behind a group: the 6-bit values rebuild the bytes. */
  lemma Regroup(a: int, b: int, c: int)
    requires 0 <= a < 256 && 0 <= b < 256 && 0 <= c < 256
    ensures var n1 := (a % 4) * 16 + b / 16;
      var n2 := (b % 16) * 4 + c / 64;
      (a / 4) * 4 + n1 / 16 == a && (n1 % 16) * 16 + n2 / 4 == b && (n2 % 4) * 64 + c % 64 == c
  {
    var a1, a2 := a / 4, a % 4;
    var b1, b2 := b / 16, b % 16;
    var c1, c2 := c / 64, c % 64;
    assert a == a1 * 4 + a2 && b == b1 * 16 + b2 && c == c1 * 64 + c2;
    var n1 := a2 * 16 + b1;
    assert n1 / 16 == a2 && n1 % 16 == b1;
    var n2 := b2 * 4 + c1;
    assert n2 / 4 == b2 && n2 % 4 == c1;
  }

  lemma DecodeGroup3(a: byte, b: byte, c: byte, last: bool)
    ensures DecodeGroup(EncodeGroup3(a, b, c), last) == Some([a, b, c])
  {
    var n0, n1 := a as int / 4, (a as int % 4) * 16 + b as int / 16;
    var n2, n3 := (b as int % 16) * 4 + c as int / 64, c as int % 64;
    CharValueOfAlphabet(n0);
    CharValueOfAlphabet(n1);
    CharValueOfAlphabet(n2);
    CharValueOfAlphabet(n3);
    Regroup(a as int, b as int, c as int);
  }

  lemma DecodeGroup2(a: byte, b: byte)
    ensures DecodeGroup(EncodeGroup2(a, b), true) == Some([a, b])
  {
    var n0, n1, n2 := a as int / 4, (a as int % 4) * 16 + b as int / 16, (b as int % 16) * 4;
    CharValueOfAlphabet(n0);
    CharValueOfAlphabet(n1);
    CharValueOfAlphabet(n2);
    Regroup(a as int, b as int, 0);
  }

  lemma DecodeGroup1(a: byte)
    ensures DecodeGroup(EncodeGroup1(a), true) == Some([a])
  {
    CharValueOfAlphabet(a as int / 4);
    CharValueOfAlphabet((a as int % 4) * 16);
    Regroup(a as int, 0, 0);
  }

  lemma DecodeLast(g: string, bs: seq<byte>)
    requires |g| == 4 && DecodeGroup(g, true) == Some(bs)
    ensures Decode(g) == Some(bs)
  {
    assert g[..4] == g && g[4..] == [];
    assert bs + [] == bs;
  }

  lemma SplitShort(bs: seq<byte>)
    requires 1 <= |bs| <= 2
    ensures |bs| == 1 ==> bs == [bs[0]]
    ensures |bs| == 2 ==> bs == [bs[0], bs[1]]
  {
  }

  lemma SplitThree(bs: seq<byte>)
    requires |bs| >= 3
    ensures bs == [bs[0], bs[1], bs[2]] + bs[3..]
  {
  }

  lemma DecodeEncodeShort(bs: seq<byte>)
    requires 1 <= |bs| <= 2
    ensures Decode(Encode(bs)) == Some(bs)
  {
    if |bs| == 1 {
      DecodeGroup1(bs[0]);
      DecodeLast(EncodeGroup1(bs[0]), [bs[0]]);
      SplitShort(bs);
    } else {
      DecodeGroup2(bs[0], bs[1]);
      DecodeLast(EncodeGroup2(bs[0], bs[1]), [bs[0], bs[1]]);
      SplitShort(bs);
    }
  }

  lemma DecodeEncodeStep(bs: seq<byte>)
    requires |bs| >= 3 && Decode(Encode(bs[3..])) == Some(bs[3..])
    ensures Decode(Encode(bs)) == Some(bs)
  {
    var g, t := EncodeGroup3(bs[0], bs[1], bs[2]), Encode(bs[3..]);
    var s := g + t;
    assert Encode(bs) == s;
    assert s[..4] == g && s[4..] == t;
    DecodeGroup3(bs[0], bs[1], bs[2], |s| == 4);
    SplitThree(bs);
  }

  /** Round trip: decoding the Base64 text gives back exactly the bytes. */
  lemma {:induction false} DecodeEncode(bs: seq<byte>)
    ensures Decode(Encode(bs)) == Some(bs)
    decreases |bs|
  {
    if 1 <= |bs| <= 2 {
      DecodeEncodeShort(bs);
    } else if |bs| >= 3 {
      DecodeEncode(bs[3..]);
      DecodeEncodeStep(bs);
    }
  }

  lemma EncodeUnfold(bs: seq<byte>)
    requires |bs| >= 3
    ensures Encode(bs) == EncodeGroup3(bs[0], bs[1], bs[2]) + Encode(bs[3..])
  {
  }

  /** Length: four characters for every started group of three bytes. */
  lemma {:induction false} EncodeLength(bs: seq<byte>)
    ensures |Encode(bs)| == 4 * ((|bs| + 2) / 3)
    decreases |bs|
  {
    if |bs| == 0 {
    } else if |bs| == 1 {
      assert |EncodeGroup1(bs[0])| == 4;
    } else if |bs| == 2 {
      assert |EncodeGroup2(bs[0], bs[1])| == 4;
    } else {
      EncodeLength(bs[3..]);
      EncodeUnfold(bs);
      assert (|bs| + 2) / 3 == (|bs[3..]| + 2) / 3 + 1;
    }
  }

  /** s is alphabet characters followed by exactly pad "=" signs. */
  predicate PaddedAlphabet(s: string, pad: nat) {
    pad <= |s|
    && (forall i :: 0 <= i < |s| - pad ==> InAlphabet(s[i]))
    && (forall i :: |s| - pad <= i < |s| ==> s[i] == '=')
  }

  lemma PaddedAlphabetPrepend(g: string, t: string, pad: nat)
    requires |g| == 4 && InAlphabet(g[0]) && InAlphabet(g[1]) && InAlphabet(g[2]) && InAlphabet(g[3])
    requires PaddedAlphabet(t, pad)
    ensures PaddedAlphabet(g + t, pad)
  {
    forall i | 0 <= i < |g + t| ensures (g + t)[i] == if i < 4 then g[i] else t[i - 4] { }
  }

  lemma PaddedGroup1(a: byte)
    ensures PaddedAlphabet(EncodeGroup1(a), 2)
  {
    var s := EncodeGroup1(a);
    assert InAlphabet(s[0]) && InAlphabet(s[1]);
  }

  lemma PaddedGroup2(a: byte, b: byte)
    ensures PaddedAlphabet(EncodeGroup2(a, b), 1)
  {
    var s := EncodeGroup2(a, b);
    assert InAlphabet(s[0]) && InAlphabet(s[1]) && InAlphabet(s[2]);
  }

  lemma EncodeAlphabetOne(bs: seq<byte>)
    requires |bs| == 1
    ensures PaddedAlphabet(Encode(bs), 2)
  {
    PaddedGroup1(bs[0]);
  }

  lemma EncodeAlphabetTwo(bs: seq<byte>)
    requires |bs| == 2
    ensures PaddedAlphabet(Encode(bs), 1)
  {
    PaddedGroup2(bs[0], bs[1]);
  }

  /** The number of "=" signs for n bytes. */
  function Padding(n: nat): nat {
    (3 - n % 3) % 3
  }

  lemma PadStep(n: nat)
    requires n >= 3
    ensures Padding(n) == Padding(n - 3)
  {
    assert n % 3 == (n - 3) % 3;
  }

  lemma PaddedAlphabetSame(a: string, b: string, pad: nat)
    requires a == b && PaddedAlphabet(a, pad)
    ensures PaddedAlphabet(b, pad)
  {
  }

  lemma EncodeAlphabetStep(bs: seq<byte>, pad: nat)
    requires |bs| >= 3 && PaddedAlphabet(Encode(bs[3..]), pad)
    ensures PaddedAlphabet(Encode(bs), pad)
  {
    var g, t := EncodeGroup3(bs[0], bs[1], bs[2]), Encode(bs[3..]);
    EncodeUnfold(bs);
    PaddedAlphabetPrepend(g, t, pad);
    PaddedAlphabetSame(g + t, Encode(bs), pad);
  }

  /** Alphabet: alphabet characters followed by at most two "=", and "=" only
      when the byte count is not a multiple of three. */
  lemma {:induction false} EncodeAlphabet(bs: seq<byte>)
    ensures PaddedAlphabet(Encode(bs), Padding(|bs|))
    decreases |bs|
  {
    if |bs| == 0 {
    } else if |bs| == 1 {
      EncodeAlphabetOne(bs);
    } else if |bs| == 2 {
      EncodeAlphabetTwo(bs);
    } else {
      EncodeAlphabet(bs[3..]);
      PadStep(|bs|);
      EncodeAlphabetStep(bs, Padding(|bs|));
    }
  }
}
