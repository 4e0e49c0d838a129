/**
 * `encodeURIComponent`, as the contact page uses it: every character outside
 * the unreserved set A-Z a-z 0-9 - _ . ! ~ * ' ( ) is written as the
 * percent-encoded octets of its UTF-8 encoding (section 2.1 of RFC 3986, with
 * upper-case hexadecimal digits), and the rest are kept as they are.
 *
 * Characters are Unicode scalar values, so the lone surrogates for which the
 * library call throws cannot occur. The decoder is a reference for the encoder:
 * decoding an encoding gives back the original string.
 */
module UriComponent {
  import opened Wrappers

  type Byte = b: nat | b < 256

  /** The characters `encodeURIComponent` leaves as they are. */
  predicate IsUnreserved(c: char)
  {
    || ('A' <= c <= 'Z') || ('a' <= c <= 'z') || ('0' <= c <= '9')
    || c == '-' || c == '_' || c == '.' || c == '!' || c == '~' || c == '*' || c == '\'' || c == '(' || c == ')'
  }

  predicate IsUpperHex(c: char)
  {
    ('0' <= c <= '9') || ('A' <= c <= 'F')
  }

  // ---------------------------------------------------------------------------
  // UTF-8
  // ---------------------------------------------------------------------------

  /** The UTF-8 octets of one character (section 3 of RFC 3629). */
  function Utf8Char(c: char): (r: seq<Byte>)
    ensures 1 <= |r| <= 4
    ensures (|r| == 1) <==> (c as int < 0x80)
    ensures |r| == 1 ==> r[0] == c as int
    ensures |r| > 1 ==> r[0] >= 0xC0
  {
    var cp := c as int;
    if cp < 0x80 then [cp]
    else if cp < 0x800 then [0xC0 + cp / 64, 0x80 + cp % 64]
    else if cp < 0x10000 then [0xE0 + cp / 4096, 0x80 + (cp / 64) % 64, 0x80 + cp % 64]
    else [0xF0 + cp / 262144, 0x80 + (cp / 4096) % 64, 0x80 + (cp / 64) % 64, 0x80 + cp % 64]
  }

  function Utf8(s: string): seq<Byte>
  {
    if s == [] then [] else Utf8Char(s[0]) + Utf8(s[1..])
  }

  predicate IsContinuation(b: Byte)
  {
    0x80 <= b < 0xC0
  }

  predicate IsScalar(cp: int)
  {
    (0 <= cp < 0xD800) || (0xE000 <= cp < 0x11_0000)
  }

  /**
   * The first character of `bs` and how many octets it takes, if `bs` starts
   * with one. Overlong forms (a code point below the least one its length
   * encodes) and surrogates are refused, as section 3 of RFC 3629 requires.
   */
  function DecodeFirst(bs: seq<Byte>): (r: Option<(char, nat)>)
    ensures r.Some? ==> 1 <= r.value.1 <= |bs|
  {
    if bs == [] then None
    else if bs[0] < 0x80 then Some((bs[0] as char, 1))
    else if 0xC0 <= bs[0] < 0xE0 && |bs| >= 2 && IsContinuation(bs[1]) then
      var cp := (bs[0] as int - 0xC0) * 64 + (bs[1] as int - 0x80);
      if 0x80 <= cp then Some((cp as char, 2)) else None
    else if 0xE0 <= bs[0] < 0xF0 && |bs| >= 3 && IsContinuation(bs[1]) && IsContinuation(bs[2]) then
      var cp := (bs[0] as int - 0xE0) * 4096 + (bs[1] as int - 0x80) * 64 + (bs[2] as int - 0x80);
      if 0x800 <= cp && IsScalar(cp) then Some((cp as char, 3)) else None
    else if 0xF0 <= bs[0] < 0xF8 && |bs| >= 4 && IsContinuation(bs[1]) && IsContinuation(bs[2]) && IsContinuation(bs[3]) then
      var cp := (bs[0] as int - 0xF0) * 262144 + (bs[1] as int - 0x80) * 4096 + (bs[2] as int - 0x80) * 64 + (bs[3] as int - 0x80);
      if 0x10000 <= cp && IsScalar(cp) then Some((cp as char, 4)) else None
    else None
  }

  /** `%C0%80`, an overlong NUL, and `%ED%A0%80`, a surrogate, are not UTF-8. */
  lemma OverlongAndSurrogateRefused()
    ensures DecodeFirst([0xC0, 0x80]) == None
    ensures DecodeFirst([0xE0, 0x80, 0x80]) == None
    ensures DecodeFirst([0xED, 0xA0, 0x80]) == None
  {
  }

  /** Reads octets back into characters; fails on a sequence that is not UTF-8. */
  function Utf8Decode(bs: seq<Byte>): Option<string>
    decreases |bs|
  {
    if bs == [] then Some([])
    else match DecodeFirst(bs)
      case None => None
      case Some((c, n)) =>
        match Utf8Decode(bs[n..])
        case None => None
        case Some(rest) => Some([c] + rest)
  }

  /** One character's octets decode to that character. */
  lemma DecodeFirstOfChar(c: char, rest: seq<Byte>)
    ensures DecodeFirst(Utf8Char(c) + rest) == Some((c, |Utf8Char(c)|))
  {
    var cp := c as int;
    if cp < 0x80 {
    } else if cp < 0x800 {
      DecodeTwoOctets(c, rest);
    } else if cp < 0x10000 {
      DecodeThreeOctets(c, rest);
    } else {
      DecodeFourOctets(c, rest);
    }
  }

  lemma DecodeTwoOctets(c: char, rest: seq<Byte>)
    requires 0x80 <= c as int < 0x800
    ensures DecodeFirst(Utf8Char(c) + rest) == Some((c, 2))
  {
    var cp := c as int;
    var bs := Utf8Char(c) + rest;
    assert bs[0] == 0xC0 + cp / 64 && bs[1] == 0x80 + cp % 64;
    assert (bs[0] as int - 0xC0) * 64 + (bs[1] as int - 0x80) == cp;
  }

  lemma DecodeThreeOctets(c: char, rest: seq<Byte>)
    requires 0x800 <= c as int < 0x10000
    ensures DecodeFirst(Utf8Char(c) + rest) == Some((c, 3))
  {
    var cp := c as int;
    var bs := Utf8Char(c) + rest;
    var q := cp / 64;
    assert cp == q * 64 + cp % 64;
    assert cp / 4096 == q / 64;
    assert q == (q / 64) * 64 + q % 64;
    assert bs[0] == 0xE0 + cp / 4096 && bs[1] == 0x80 + q % 64 && bs[2] == 0x80 + cp % 64;
    assert (bs[0] as int - 0xE0) * 4096 + (bs[1] as int - 0x80) * 64 + (bs[2] as int - 0x80) == cp;
  }

  lemma DecodeFourOctets(c: char, rest: seq<Byte>)
    requires 0x10000 <= c as int
    ensures DecodeFirst(Utf8Char(c) + rest) == Some((c, 4))
  {
    var cp := c as int;
    var bs := Utf8Char(c) + rest;
    FourOctets(cp);
    assert bs[0] == 0xF0 + cp / 262144 && bs[1] == 0x80 + (cp / 4096) % 64;
    assert bs[2] == 0x80 + (cp / 64) % 64 && bs[3] == 0x80 + cp % 64;
  }

  lemma FourOctets(cp: int)
    requires 0x10000 <= cp < 0x11_0000
    ensures cp / 262144 < 8
    ensures (cp / 262144) * 262144 + ((cp / 4096) % 64) * 4096 + ((cp / 64) % 64) * 64 + cp % 64 == cp
  {
    var q := cp / 64;
    var p := q / 64;
    assert cp == q * 64 + cp % 64;
    assert q == p * 64 + q % 64;
    assert cp / 4096 == p;
    assert p == (p / 64) * 64 + p % 64;
    assert cp / 262144 == p / 64;
  }

  /** Decoding the UTF-8 octets of a string gives the string back. */
  lemma {:induction false} Utf8RoundTrip(s: string)
    ensures Utf8Decode(Utf8(s)) == Some(s)
  {
    if s != [] {
      var head := Utf8Char(s[0]);
      var bs := Utf8(s);
      assert bs == head + Utf8(s[1..]);
      DecodeFirstOfChar(s[0], Utf8(s[1..]));
      assert bs[|head|..] == Utf8(s[1..]);
      Utf8RoundTrip(s[1..]);
      assert Utf8Decode(bs) == Some([s[0]] + s[1..]);
      assert [s[0]] + s[1..] == s;
    }
  }

  // ---------------------------------------------------------------------------
  // Percent-encoding
  // ---------------------------------------------------------------------------

  function HexDigit(d: nat): (c: char)
    requires d < 16
    ensures IsUpperHex(c)
  {
    if d < 10 then ('0' as int + d) as char else ('A' as int + d - 10) as char
  }

  function HexValue(c: char): Option<nat>
  {
    if '0' <= c <= '9' then Some(c as int - '0' as int)
    else if 'A' <= c <= 'F' then Some(c as int - 'A' as int + 10)
    else if 'a' <= c <= 'f' then Some(c as int - 'a' as int + 10)
    else None
  }

  /** An unreserved octet as its character, any other as `%` and two upper-case hex digits. */
  function EncodeOctet(b: Byte): (r: string)
    ensures |r| == 1 || |r| == 3
    ensures |r| == 3 ==> r[0] == '%'
  {
    if b < 0x80 && IsUnreserved(b as char) then [b as char] else ['%', HexDigit(b / 16), HexDigit(b % 16)]
  }

  function PercentEncode(bs: seq<Byte>): string
  {
    if bs == [] then [] else EncodeOctet(bs[0]) + PercentEncode(bs[1..])
  }

  /** Reads `%XX` escapes and plain ASCII characters back into octets. */
  function PercentDecode(t: string): Option<seq<Byte>>
    decreases |t|
  {
    if t == [] then Some([])
    else if t[0] == '%' then
      if |t| < 3 || HexValue(t[1]).None? || HexValue(t[2]).None? then None
      else
        var b := HexValue(t[1]).value * 16 + HexValue(t[2]).value;
        if b >= 256 then None
        else match PercentDecode(t[3..])
          case None => None
          case Some(rest) => Some([b] + rest)
    else if t[0] as int < 0x80 then
      match PercentDecode(t[1..])
      case None => None
      case Some(rest) => Some([t[0] as int] + rest)
    else None
  }

  lemma DecodeOctet(b: Byte, rest: string)
    ensures PercentDecode(EncodeOctet(b) + rest) == match PercentDecode(rest) case None => None case Some(r) => Some([b] + r)
  {
    var e := EncodeOctet(b);
    if |e| == 1 {
      assert (e + rest)[1..] == rest;
    } else {
      assert (e + rest)[3..] == rest;
      assert HexValue(HexDigit(b / 16)) == Some(b / 16);
      assert HexValue(HexDigit(b % 16)) == Some(b % 16);
    }
  }

  lemma {:induction false} PercentRoundTrip(bs: seq<Byte>)
    ensures PercentDecode(PercentEncode(bs)) == Some(bs)
  {
    if bs != [] {
      var rest := PercentEncode(bs[1..]);
      PercentRoundTrip(bs[1..]);
      assert PercentDecode(rest) == Some(bs[1..]);
      DecodeOctet(bs[0], rest);
      assert PercentDecode(EncodeOctet(bs[0]) + rest) == Some([bs[0]] + bs[1..]);
      assert [bs[0]] + bs[1..] == bs;
    }
  }

  /** Every character of an encoding is unreserved, a `%`, or an upper-case hex digit. */
  lemma {:induction false} EncodingIsSafe(bs: seq<Byte>)
    ensures forall i | 0 <= i < |PercentEncode(bs)| :: IsUnreserved(PercentEncode(bs)[i]) || PercentEncode(bs)[i] == '%' || IsUpperHex(PercentEncode(bs)[i])
  {
    if bs != [] {
      EncodingIsSafe(bs[1..]);
      var e := EncodeOctet(bs[0]);
      var t := PercentEncode(bs[1..]);
      assert PercentEncode(bs) == e + t;
      forall i | 0 <= i < |e + t| ensures IsUnreserved((e + t)[i]) || (e + t)[i] == '%' || IsUpperHex((e + t)[i]) {
        if i >= |e| {
          assert (e + t)[i] == t[i - |e|];
        } else {
          OctetIsSafe(bs[0], i);
        }
      }
    }
  }

  lemma OctetIsSafe(b: Byte, i: nat)
    requires i < |EncodeOctet(b)|
    ensures IsUnreserved(EncodeOctet(b)[i]) || EncodeOctet(b)[i] == '%' || IsUpperHex(EncodeOctet(b)[i])
  {
  }

  // ---------------------------------------------------------------------------
  // The library call
  // ---------------------------------------------------------------------------

  /** `encodeURIComponent(s)` */
  function EncodeUriComponent(s: string): (r: string)
  {
    PercentEncode(Utf8(s))
  }

  /**
   * `decodeURIComponent(t)` for text of ASCII characters and `%XX` escapes: it
   * fails on a broken escape and on escaped octets that are not UTF-8, as the
   * library call throws. Unlike the library call it also refuses a non-ASCII
   * character left unescaped; no encoding holds one.
   */
  function DecodeUriComponent(t: string): Option<string>
  {
    match PercentDecode(t)
    case None => None
    case Some(bs) => Utf8Decode(bs)
  }

  /** Decoding an encoded component gives back the original text. */
  lemma UriComponentRoundTrip(s: string)
    ensures DecodeUriComponent(EncodeUriComponent(s)) == Some(s)
  {
    PercentRoundTrip(Utf8(s));
    Utf8RoundTrip(s);
  }

  /** An encoded component holds none of the characters that delimit a URI's query: no `&`, `=`, `?`, `#` or space. */
  lemma EncodedHasNoDelimiters(s: string)
    ensures forall i | 0 <= i < |EncodeUriComponent(s)| :: EncodeUriComponent(s)[i] !in {'&', '=', '?', '#', ' ', '\n'}
  {
    EncodingIsSafe(Utf8(s));
  }

  /** Unreserved text is left as it is. */
  lemma {:induction false} UnreservedUnchanged(s: string)
    requires forall i | 0 <= i < |s| :: IsUnreserved(s[i])
    ensures EncodeUriComponent(s) == s
  {
    if s != [] {
      UnreservedUnchanged(s[1..]);
      assert Utf8(s) == [s[0] as int] + Utf8(s[1..]);
      assert PercentEncode(Utf8(s)) == [s[0]] + PercentEncode(Utf8(s[1..]));
    }
  }

  lemma EncodeSpaceAndNewline()
    ensures EncodeUriComponent(" ") == "%20"
    ensures EncodeUriComponent("\n") == "%0A"
  {
    assert Utf8(" ") == [32];
    assert Utf8("\n") == [10];
  }
}
