/**
 * Base64 as the browser's `atob` decodes it: the forgiving-base64 decode of the
 * WHATWG Infra Standard, over the alphabet of section 4 of RFC 4648. White space
 * is skipped, one or two trailing `=` are dropped when the length is a multiple
 * of four, and leftover bits of a short last group are discarded. The encoder
 * is the padded one of RFC 4648, section 4; decoding undoes it.
 */
module Base64 {
  import opened Wrappers
  import opened SeqFacts

  type byte = x: int | 0 <= x < 256

  predicate IsBase64Char(c: char) {
    'A' <= c <= 'Z' || 'a' <= c <= 'z' || '0' <= c <= '9' || c == '+' || c == '/'
  }

  predicate AllBase64(s: string) {
    forall i :: 0 <= i < |s| ==> IsBase64Char(s[i])
  }

  /** The 6-bit value of an alphabet character (Table 1 of RFC 4648). */
  function CharValue(c: char): (v: nat)
    requires IsBase64Char(c)
    ensures v < 64
  {
    if 'A' <= c <= 'Z' then c as int - 'A' as int
    else if 'a' <= c <= 'z' then c as int - 'a' as int + 26
    else if '0' <= c <= '9' then c as int - '0' as int + 52
    else if c == '+' then 62
    else 63
  }

  /** The alphabet character of a 6-bit value; `CharValue` reads it back. */
  function ValueChar(v: nat): (c: char)
    requires v < 64
    ensures IsBase64Char(c) && CharValue(c) == v
  {
    if v < 26 then ('A' as int + v) as char
    else if v < 52 then ('a' as int + v - 26) as char
    else if v < 62 then ('0' as int + v - 52) as char
    else if v == 62 then '+'
    else '/'
  }

  /** ASCII white space as the Infra Standard defines it: TAB, LF, FF, CR and SPACE. */
  predicate IsAsciiWhitespace(c: char) {
    c == '\t' || c == '\n' || c == '\U{000C}' || c == '\r' || c == ' '
  }

  function RemoveWhitespace(s: string): string {
    if s == [] then []
    else (if IsAsciiWhitespace(s[0]) then [] else [s[0]]) + RemoveWhitespace(s[1..])
  }

  /** When the length is a multiple of four, one or two trailing `=` are removed. */
  function StripPadding(s: string): string {
    if |s| % 4 == 0 && |s| >= 2 && s[|s| - 1] == '=' && s[|s| - 2] == '=' then s[..|s| - 2]
    else if |s| % 4 == 0 && |s| >= 1 && s[|s| - 1] == '=' then s[..|s| - 1]
    else s
  }

  /** The text the decoder actually reads. */
  function Canonical(s: string): string {
    StripPadding(RemoveWhitespace(s))
  }

  /** The three bytes carried by four 6-bit values. */
  function Byte0(a: nat, b: nat): byte requires a < 64 && b < 64 { a * 4 + b / 16 }
  function Byte1(b: nat, c: nat): byte requires b < 64 && c < 64 { (b % 16) * 16 + c / 4 }
  function Byte2(c: nat, d: nat): byte requires c < 64 && d < 64 { (c % 4) * 64 + d }

  /**
   * Four characters give three bytes; a last group of three characters gives two
   * bytes and one of two characters gives one byte, the spare low bits dropped.
   */
  function DecodeGroups(s: string): (r: seq<byte>)
    requires AllBase64(s)
    requires |s| % 4 != 1
  {
    if |s| < 2 then []
    else
      var a, b := CharValue(s[0]), CharValue(s[1]);
      if |s| == 2 then [Byte0(a, b)]
      else
        var c := CharValue(s[2]);
        if |s| == 3 then [Byte0(a, b), Byte1(b, c)]
        else
          var d := CharValue(s[3]);
          [Byte0(a, b), Byte1(b, c), Byte2(c, d)] + DecodeGroups(s[4..])
  }

  /**
   * `atob`: the decoded bytes, or None where `atob` throws InvalidCharacterError
   * (a length of 1 modulo 4 after the clean-up, or a character outside the alphabet).
   */
  function Decode(s: string): (r: Option<seq<byte>>)
    ensures r.Some? <==> |Canonical(s)| % 4 != 1 && AllBase64(Canonical(s))
    ensures r.Some? ==> |r.value| == |Canonical(s)| * 3 / 4
  {
    var t := Canonical(s);
    if |t| % 4 == 1 || !AllBase64(t) then None
    else
      DecodeGroupsLength(t);
      Some(DecodeGroups(t))
  }

  /** Every four characters give three bytes, and a short last group one byte fewer than its characters. */
  lemma {:induction false} DecodeGroupsLength(s: string)
    requires AllBase64(s) && |s| % 4 != 1
    ensures |DecodeGroups(s)| == |s| * 3 / 4
  {
    if |s| >= 4 {
      assert AllBase64(s[4..]) by {
        forall i | 0 <= i < |s[4..]| ensures IsBase64Char(s[4..][i]) { assert s[4..][i] == s[i + 4]; }
      }
      DecodeGroupsLength(s[4..]);
      assert (|s| - 4) * 3 / 4 + 3 == |s| * 3 / 4;
    }
  }

  // ---------------------------------------------------------------- encoding

  /** The four 6-bit values that carry three bytes. */
  function Sextet0(x: byte): (v: nat) ensures v < 64 { x / 4 }
  function Sextet1(x: byte, y: byte): (v: nat) ensures v < 64 { (x % 4) * 16 + y / 16 }
  function Sextet2(y: byte, z: byte): (v: nat) ensures v < 64 { (y % 16) * 4 + z / 64 }
  function Sextet3(z: byte): (v: nat) ensures v < 64 { z % 64 }

  /** Splitting three bytes into four sextets and joining them again gives the bytes back. */
  lemma GroupRoundTrip(x: byte, y: byte, z: byte)
    ensures Byte0(Sextet0(x), Sextet1(x, y)) == x
    ensures Byte1(Sextet1(x, y), Sextet2(y, z)) == y
    ensures Byte2(Sextet2(y, z), Sextet3(z)) == z
  {
    var b := (x % 4) * 16 + y / 16;
    assert b / 16 == x % 4 && b % 16 == y / 16;
    var c := (y % 16) * 4 + z / 64;
    assert c / 4 == y % 16 && c % 4 == z / 64;
  }

  /** The four characters that encode three bytes. */
  function Quad(x: byte, y: byte, z: byte): (g: string)
    ensures |g| == 4 && AllBase64(g)
  {
    [ValueChar(Sextet0(x)), ValueChar(Sextet1(x, y)), ValueChar(Sextet2(y, z)), ValueChar(Sextet3(z))]
  }

  /** The two characters that encode a last single byte. */
  function Pair(x: byte): (g: string)
    ensures |g| == 2 && AllBase64(g)
  {
    [ValueChar(Sextet0(x)), ValueChar(Sextet1(x, 0))]
  }

  /** The three characters that encode a last pair of bytes. */
  function Triple(x: byte, y: byte): (g: string)
    ensures |g| == 3 && AllBase64(g)
  {
    [ValueChar(Sextet0(x)), ValueChar(Sextet1(x, y)), ValueChar(Sextet2(y, 0))]
  }

  /**
   * The alphabet characters of the padded encoding, without the `=` padding:
   * four for every three bytes, and two or three for a last short group.
   */
  function EncodeUnpadded(b: seq<byte>): (s: string)
    ensures |s| % 4 == (if |b| % 3 == 0 then 0 else |b| % 3 + 1)
    ensures AllBase64(s)
  {
    if |b| == 0 then []
    else if |b| == 1 then Pair(b[0])
    else if |b| == 2 then Triple(b[0], b[1])
    else
      var rest := EncodeUnpadded(b[3..]);
      GroupThen(Quad(b[0], b[1], b[2]), rest, |b|);
      Quad(b[0], b[1], b[2]) + rest
  }

  /** A group of four alphabet characters in front keeps the text in the alphabet and its length modulo 4. */
  lemma GroupThen(g: string, rest: string, n: nat)
    requires |g| == 4 && AllBase64(g) && AllBase64(rest) && n >= 3
    ensures AllBase64(g + rest) && |g + rest| % 4 == |rest| % 4 && (n - 3) % 3 == n % 3
  {
    var s := g + rest;
    forall i | 0 <= i < |s| ensures IsBase64Char(s[i]) {
      if i >= 4 { assert s[i] == rest[i - 4]; } else { assert s[i] == g[i]; }
    }
  }

  function Padding(b: seq<byte>): string {
    if |b| % 3 == 1 then "==" else if |b| % 3 == 2 then "=" else ""
  }

  /** The padded base64 encoding of section 4 of RFC 4648. */
  function Encode(b: seq<byte>): string {
    EncodeUnpadded(b) + Padding(b)
  }

  lemma DecodeOne(x: byte)
    ensures DecodeGroups(Pair(x)) == [x]
  {
    GroupRoundTrip(x, 0, 0);
  }

  lemma DecodeTwo(x: byte, y: byte)
    ensures DecodeGroups(Triple(x, y)) == [x, y]
  {
    GroupRoundTrip(x, y, 0);
  }

  lemma DecodeQuad(x: byte, y: byte, z: byte, rest: string)
    requires AllBase64(rest) && |rest| % 4 != 1
    ensures AllBase64(Quad(x, y, z) + rest) && |Quad(x, y, z) + rest| % 4 != 1
    ensures DecodeGroups(Quad(x, y, z) + rest) == [x, y, z] + DecodeGroups(rest)
  {
    var s := Quad(x, y, z) + rest;
    GroupThen(Quad(x, y, z), rest, 3);
    assert s[4..] == rest;
    GroupRoundTrip(x, y, z);
  }

  lemma {:induction false} DecodeGroupsEncode(b: seq<byte>)
    ensures DecodeGroups(EncodeUnpadded(b)) == b
  {
    if |b| < 3 {
      DecodeShortGroup(b);
    } else {
      DecodeGroupsEncode(b[3..]);
      DecodeGroupsEncodeStep(b);
    }
  }

  /** Fewer than three bytes are encoded by at most three characters that decode back to them. */
  lemma DecodeShortGroup(b: seq<byte>)
    requires |b| < 3
    ensures DecodeGroups(EncodeUnpadded(b)) == b
  {
    if |b| == 1 {
      DecodeOne(b[0]);
    } else if |b| == 2 {
      DecodeTwo(b[0], b[1]);
      assert [b[0], b[1]] == b;
    }
  }

  /** Decoding the first group gives the first three bytes back, in front of the rest. */
  lemma DecodeGroupsEncodeStep(b: seq<byte>)
    requires |b| >= 3
    requires DecodeGroups(EncodeUnpadded(b[3..])) == b[3..]
    ensures DecodeGroups(EncodeUnpadded(b)) == b
  {
    var t := b[3..];
    var rest := EncodeUnpadded(t);
    DecodeQuad(b[0], b[1], b[2], rest);
    calc {
      DecodeGroups(EncodeUnpadded(b));
      DecodeGroups(Quad(b[0], b[1], b[2]) + rest);
      [b[0], b[1], b[2]] + DecodeGroups(rest);
      [b[0], b[1], b[2]] + t;
      { FirstThreeThenRest(b); }
      b;
    }
  }

  lemma {:induction false} RemoveWhitespaceNoop(s: string)
    requires forall i :: 0 <= i < |s| ==> !IsAsciiWhitespace(s[i])
    ensures RemoveWhitespace(s) == s
  {
    if s != [] {
      RemoveWhitespaceNoop(s[1..]);
      assert [s[0]] + s[1..] == s;
    }
  }

  /** The encoding holds alphabet characters and `=` only, so no white space. */
  lemma EncodeNoWhitespace(b: seq<byte>)
    ensures RemoveWhitespace(Encode(b)) == Encode(b)
  {
    var u := EncodeUnpadded(b);
    var e := Encode(b);
    forall i | 0 <= i < |e| ensures !IsAsciiWhitespace(e[i]) {
      if i < |u| { assert e[i] == u[i]; }
    }
    RemoveWhitespaceNoop(e);
  }

  lemma StripNoPadding(u: string)
    requires |u| % 4 == 0 && AllBase64(u)
    ensures StripPadding(u) == u
  {
    if |u| > 0 { assert IsBase64Char(u[|u| - 1]); }
  }

  lemma StripOnePad(u: string)
    requires |u| % 4 == 3 && AllBase64(u)
    ensures StripPadding(u + "=") == u
  {
    var e := u + "=";
    assert |e| % 4 == 0 && e[|e| - 1] == '=';
    assert e[|e| - 2] == u[|u| - 1] && IsBase64Char(u[|u| - 1]);
    assert e[..|e| - 1] == u;
  }

  lemma StripTwoPads(u: string)
    requires |u| % 4 == 2
    ensures StripPadding(u + "==") == u
  {
    var e := u + "==";
    assert |e| % 4 == 0 && e[|e| - 1] == '=' && e[|e| - 2] == '=';
    assert e[..|e| - 2] == u;
  }

  /** The padding brings the length to a multiple of four, and only it is stripped. */
  lemma StripPaddingEncode(b: seq<byte>)
    ensures StripPadding(Encode(b)) == EncodeUnpadded(b)
  {
    var u := EncodeUnpadded(b);
    if |b| % 3 == 0 {
      assert Encode(b) == u + "" == u;
      StripNoPadding(u);
    } else if |b| % 3 == 2 {
      assert Encode(b) == u + "=";
      StripOnePad(u);
    } else {
      assert Encode(b) == u + "==";
      StripTwoPads(u);
    }
  }

  /** The decoder's clean-up strips exactly the padding the encoder added. */
  lemma CanonicalEncode(b: seq<byte>)
    ensures Canonical(Encode(b)) == EncodeUnpadded(b)
  {
    EncodeNoWhitespace(b);
    StripPaddingEncode(b);
  }

  /** `atob` undoes the padded encoding: the round trip of RFC 4648, section 4. */
  lemma DecodeEncode(b: seq<byte>)
    ensures Decode(Encode(b)) == Some(b)
  {
    CanonicalEncode(b);
    DecodeGroupsEncode(b);
  }

  // ---------------------------------------------------------------- binary strings

  /** A byte sequence as a string of code units 0 to 255, the form `atob` returns. */
  function BinaryString(b: seq<byte>): (s: string)
    ensures |s| == |b| && forall i :: 0 <= i < |b| ==> s[i] as int == b[i]
  {
    seq(|b|, i requires 0 <= i < |b| => b[i] as char)
  }

  /** `atob(s)`: the decoded bytes as a binary string, or None where it throws. */
  function Atob(s: string): (r: Option<string>)
    ensures r.Some? <==> Decode(s).Some?
    ensures r.Some? ==> r.value == BinaryString(Decode(s).value)
    ensures r.Some? ==> forall i :: 0 <= i < |r.value| ==> r.value[i] as int < 256
  {
    match Decode(s)
    case None => None
    case Some(b) => Some(BinaryString(b))
  }

  /** `atob` of an encoding gives back the encoded bytes, one code unit each. */
  lemma AtobEncode(b: seq<byte>)
    ensures Atob(Encode(b)) == Some(BinaryString(b))
  {
    DecodeEncode(b);
  }
}
