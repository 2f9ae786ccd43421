/**
 * The JavaScript string primitives the core relies on: `toLowerCase`, `trim`,
 * `startsWith`, `includes`, `split` with a one-character separator, `replace`
 * with a string pattern, and `parseInt(s, 10)`.
 */
module JsText {
  import opened Wrappers

  /** ECMAScript WhiteSpace and LineTerminator code points: what `trim` and `parseInt` skip. */
  predicate IsJsSpace(c: char) {
    c == '\t' || c == '\n' || c == '\U{000B}' || c == '\U{000C}' || c == '\r' || c == ' '
    || c == '\U{00A0}' || c == '\U{1680}' || ('\U{2000}' <= c <= '\U{200A}')
    || c == '\U{2028}' || c == '\U{2029}' || c == '\U{202F}' || c == '\U{205F}'
    || c == '\U{3000}' || c == '\U{FEFF}'
  }

  predicate IsDigit(c: char) {
    '0' <= c <= '9'
  }

  predicate AllDigits(s: string) {
    forall i :: 0 <= i < |s| ==> IsDigit(s[i])
  }

  function LowerChar(c: char): char {
    if 'A' <= c <= 'Z' then (c as int + 32) as char else c
  }

  /** `toLowerCase`, on the ASCII letters. */
  function Lower(s: string): string {
    seq(|s|, i requires 0 <= i < |s| => LowerChar(s[i]))
  }

  lemma LowerAppend(a: string, b: string)
    ensures Lower(a + b) == Lower(a) + Lower(b)
  {
  }

  /** A string with no upper-case ASCII letter is its own lower-case form. */
  lemma LowerNoUpper(s: string)
    requires forall i :: 0 <= i < |s| ==> !('A' <= s[i] <= 'Z')
    ensures Lower(s) == s
  {
  }

  predicate StartsWith(s: string, prefix: string) {
    |prefix| <= |s| && s[..|prefix|] == prefix
  }

  /** `trimStart`: drops the leading white space and keeps the rest as it is. */
  function TrimStart(s: string): (r: string)
    ensures |r| <= |s| && r == s[|s| - |r|..]
    ensures forall i :: 0 <= i < |s| - |r| ==> IsJsSpace(s[i])
    ensures r == [] || !IsJsSpace(r[0])
  {
    if s != [] && IsJsSpace(s[0]) then TrimStart(s[1..]) else s
  }

  /** `trimEnd`: drops the trailing white space and keeps the rest as it is. */
  function TrimEnd(s: string): (r: string)
    ensures |r| <= |s| && r == s[..|r|]
    ensures forall i :: |r| <= i < |s| ==> IsJsSpace(s[i])
    ensures r == [] || !IsJsSpace(r[|r| - 1])
  {
    if s != [] && IsJsSpace(s[|s| - 1]) then TrimEnd(s[..|s| - 1]) else s
  }

  function Trim(s: string): string {
    TrimEnd(TrimStart(s))
  }

  /** A string that neither starts nor ends with white space is its own trimmed form. */
  lemma TrimNoSpace(s: string)
    requires s == [] || (!IsJsSpace(s[0]) && !IsJsSpace(s[|s| - 1]))
    ensures Trim(s) == s
  {
  }

  // ---------------------------------------------------------------- split

  /** Glues the pieces back together with `sep` between them: the inverse of `Split`. */
  function Join(parts: seq<string>, sep: char): string
    requires |parts| >= 1
  {
    if |parts| == 1 then parts[0] else parts[0] + [sep] + Join(parts[1..], sep)
  }

  /** `split(sep)` for a one-character separator: the pieces between separators, empty ones kept. */
  function Split(s: string, sep: char): (parts: seq<string>)
    ensures |parts| >= 1
    ensures forall i :: 0 <= i < |parts| ==> sep !in parts[i]
    ensures Join(parts, sep) == s
  {
    if s == [] then [""]
    else
      var rest := Split(s[1..], sep);
      if s[0] == sep then [""] + rest
      else
        assert Join([[s[0]] + rest[0]] + rest[1..], sep) == [s[0]] + Join(rest, sep) by {
          if |rest| > 1 {
            assert ([[s[0]] + rest[0]] + rest[1..])[1..] == rest[1..];
          }
        }
        [[s[0]] + rest[0]] + rest[1..]
  }

  /** A string without the separator is a single piece. */
  lemma {:induction false} SplitNoSep(a: string, sep: char)
    requires sep !in a
    ensures Split(a, sep) == [a]
  {
    if a != [] {
      SplitNoSep(a[1..], sep);
      assert [a[0]] + a[1..] == a;
    }
  }

  /** The first separator ends the first piece. */
  lemma {:induction false} SplitAt(a: string, sep: char, b: string)
    requires sep !in a
    ensures Split(a + [sep] + b, sep) == [a] + Split(b, sep)
  {
    var s := a + [sep] + b;
    if a == [] {
      assert s[1..] == b;
    } else {
      assert s[1..] == a[1..] + [sep] + b;
      SplitAt(a[1..], sep, b);
      assert [a[0]] + a[1..] == a;
    }
  }

  /** `Split` undoes `Join` when no piece holds the separator. */
  lemma {:induction false} SplitJoin(parts: seq<string>, sep: char)
    requires |parts| >= 1
    requires forall i :: 0 <= i < |parts| ==> sep !in parts[i]
    ensures Split(Join(parts, sep), sep) == parts
  {
    if |parts| == 1 {
      SplitNoSep(parts[0], sep);
    } else {
      SplitJoin(parts[1..], sep);
      SplitAt(parts[0], sep, Join(parts[1..], sep));
      assert [parts[0]] + parts[1..] == parts;
    }
  }

  // ---------------------------------------------------------------- search and replace

  predicate OccursAt(s: string, pat: string, i: nat) {
    i + |pat| <= |s| && s[i..i + |pat|] == pat
  }

  function IndexOfFrom(s: string, pat: string, from: nat): (r: Option<nat>)
    requires from <= |s| + 1
    ensures r.Some? ==> from <= r.value && OccursAt(s, pat, r.value)
    ensures r.Some? ==> forall j :: from <= j < r.value ==> !OccursAt(s, pat, j)
    ensures r.None? ==> forall j :: from <= j ==> !OccursAt(s, pat, j)
    decreases |s| + 1 - from
  {
    if from + |pat| > |s| then None
    else if OccursAt(s, pat, from) then Some(from)
    else IndexOfFrom(s, pat, from + 1)
  }

  /** `indexOf(pat)`: the first position where `pat` occurs, if any. */
  function IndexOf(s: string, pat: string): (r: Option<nat>)
    ensures r.Some? ==> OccursAt(s, pat, r.value) && forall j :: 0 <= j < r.value ==> !OccursAt(s, pat, j)
    ensures r.None? ==> forall j :: !OccursAt(s, pat, j)
  {
    IndexOfFrom(s, pat, 0)
  }

  /** `includes(pat)`. */
  predicate Contains(s: string, pat: string) {
    IndexOf(s, pat).Some?
  }

  /**
   * `GetSubstitution` for a string pattern: in the replacement, `$$` stands for
   * `$`, `$&` for the matched text, `` $` `` for the text before the match and
   * `$'` for the text after it. A string pattern has no capture groups, so `$1`
   * or `$<` and every other `$` stay as they are.
   */
  function Expand(rep: string, before: string, matched: string, after: string): (r: string)
    ensures '$' !in rep ==> r == rep
  {
    if rep == [] then []
    else if rep[0] == '$' && |rep| >= 2 && rep[1] in "$&`'" then
      var piece := if rep[1] == '$' then "$" else if rep[1] == '&' then matched else if rep[1] == '`' then before else after;
      piece + Expand(rep[2..], before, matched, after)
    else
      assert '$' !in rep ==> '$' !in rep[1..] by {
        if '$' in rep[1..] { var k :| 0 <= k < |rep[1..]| && rep[1..][k] == '$'; assert rep[k + 1] == '$'; }
      }
      [rep[0]] + Expand(rep[1..], before, matched, after)
  }

  /** `$&` puts the matched text back, so replacing with it changes nothing. */
  lemma ExpandMatched(before: string, matched: string, after: string)
    ensures Expand("$&", before, matched, after) == matched
  {
    assert "$&"[2..] == [];
  }

  /**
   * `replace(pat, rep)` with a string pattern: only the first occurrence is
   * replaced, by the replacement with its `$` patterns expanded.
   */
  function ReplaceFirst(s: string, pat: string, rep: string): (r: string)
    ensures !Contains(s, pat) ==> r == s
    ensures Contains(s, pat) ==>
      var i := IndexOf(s, pat).value;
      var e := Expand(rep, s[..i], pat, s[i + |pat|..]);
      |r| == |s| - |pat| + |e| && r[..i] == s[..i] && r[i..i + |e|] == e && r[i + |e|..] == s[i + |pat|..]
    ensures Contains(s, pat) && '$' !in rep ==>
      var i := IndexOf(s, pat).value; r == s[..i] + rep + s[i + |pat|..]
  {
    match IndexOf(s, pat)
    case None => s
    case Some(i) => s[..i] + Expand(rep, s[..i], pat, s[i + |pat|..]) + s[i + |pat|..]
  }

  /** A replacement `$&` leaves the text as it was, where a literal insertion would not. */
  lemma ReplaceWithMatchedIsNoop(s: string, pat: string)
    ensures ReplaceFirst(s, pat, "$&") == s
  {
    match IndexOf(s, pat)
    case None =>
    case Some(i) =>
      ExpandMatched(s[..i], pat, s[i + |pat|..]);
      assert s[i..i + |pat|] == pat;
      assert s[..i] + pat + s[i + |pat|..] == s;
  }

  // ---------------------------------------------------------------- parseInt

  /** A JavaScript number as `parseInt` can produce it: NaN or an integer. */
  datatype JsNumber = NaN | Num(value: int)

  /** The longest prefix made of decimal digits. */
  function DigitPrefix(s: string): (r: string)
    ensures |r| <= |s| && r == s[..|r|]
    ensures AllDigits(r)
    ensures |r| < |s| ==> !IsDigit(s[|r|])
  {
    if s != [] && IsDigit(s[0]) then [s[0]] + DigitPrefix(s[1..]) else []
  }

  function DigitValue(c: char): nat
    requires IsDigit(c)
  {
    c as int - '0' as int
  }

  /** The value of a string of decimal digits, most significant first. */
  function DigitsValue(d: string): nat
    requires AllDigits(d)
  {
    if d == [] then 0 else DigitsValue(d[..|d| - 1]) * 10 + DigitValue(d[|d| - 1])
  }

  /**
   * `parseInt(s, 10)`: skip leading white space, take an optional sign, then the
   * longest run of digits; NaN when there is none. Trailing text is ignored.
   */
  function ParseInt(s: string): JsNumber {
    var t := TrimStart(s);
    var negative := t != [] && t[0] == '-';
    var u := if t != [] && (t[0] == '-' || t[0] == '+') then t[1..] else t;
    var z := DigitPrefix(u);
    if z == [] then NaN
    else
      var v: int := DigitsValue(z);
      Num(if negative then -v else v)
  }

  /** A value is truthy in JavaScript unless it is NaN or 0. */
  predicate Truthy(n: JsNumber) {
    n.Num? && n.value != 0
  }

  function DigitChar(d: nat): (c: char)
    requires d < 10
    ensures IsDigit(c) && DigitValue(c) == d
  {
    ('0' as int + d) as char
  }

  /** The decimal rendering of a natural number, as `String(n)` gives it. */
  function Decimal(n: nat): (s: string)
    ensures s != [] && AllDigits(s)
    ensures DigitsValue(s) == n
  {
    if n < 10 then [DigitChar(n)]
    else
      var s := Decimal(n / 10) + [DigitChar(n % 10)];
      assert s[..|s| - 1] == Decimal(n / 10);
      s
  }

  /** The digit prefix of a digit string followed by a non-digit is that digit string. */
  lemma DigitPrefixOf(d: string, rest: string)
    requires AllDigits(d)
    requires rest == [] || !IsDigit(rest[0])
    ensures DigitPrefix(d + rest) == d
  {
    var s := d + rest;
    var r := DigitPrefix(s);
    assert forall i :: 0 <= i < |d| ==> s[i] == d[i];
    assert |r| >= |d|;
    assert |r| <= |d| by {
      if |d| < |s| {
        assert s[|d|] == rest[0];
      }
    }
    assert s[..|d|] == d;
  }

  /** `parseInt` reads back what `Decimal` writes, whatever non-digit text follows. */
  lemma ParseIntDecimal(n: nat, rest: string)
    requires rest == [] || !IsDigit(rest[0])
    ensures ParseInt(Decimal(n) + rest) == Num(n)
  {
    var s := Decimal(n) + rest;
    assert !IsJsSpace(s[0]) && s[0] != '-' && s[0] != '+';
    DigitPrefixOf(Decimal(n), rest);
  }

  /** `parseInt(String(n))` is n. */
  lemma ParseIntOfDecimal(n: nat)
    ensures ParseInt(Decimal(n)) == Num(n)
  {
    ParseIntDecimal(n, []);
    assert Decimal(n) + [] == Decimal(n);
  }

  /** Text that starts with something other than white space, a sign or a digit is NaN. */
  lemma ParseIntNaN(s: string)
    requires s != [] && !IsJsSpace(s[0]) && !IsDigit(s[0]) && s[0] != '-' && s[0] != '+'
    ensures ParseInt(s) == NaN
  {
  }

  /** Digits and white-space-free text are untouched by `Trim` and `Lower`. */
  lemma DecimalIsPlain(n: nat)
    ensures Trim(Decimal(n)) == Decimal(n) && Lower(Decimal(n)) == Decimal(n)
  {
    var d := Decimal(n);
    assert IsDigit(d[0]) && IsDigit(d[|d| - 1]);
    TrimNoSpace(d);
    LowerNoUpper(d);
  }
}
