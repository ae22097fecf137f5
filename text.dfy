/**
 * The .NET string operations the plugin relies on: `Char.IsWhiteSpace`, `Trim`,
 * `Split(char)`, `string.Join`, `Replace(char, char)` and the `Convert.ToInt16`,
 * `Convert.ToUInt16`, `Convert.ToInt32`, `Convert.ToUInt32` and `Convert.ToBoolean`
 * parsers, over strings of Unicode scalar values.
 */
module Text {
  import opened Wrappers
  import opened Numeric

  /** `Char.IsWhiteSpace`: the Unicode White_Space characters. */
  predicate IsWhiteSpace(c: char) {
    ('\U{0009}' <= c <= '\U{000D}') || c == ' ' || c == '\U{0085}' || c == '\U{00A0}'
    || c == '\U{1680}' || ('\U{2000}' <= c <= '\U{200A}') || c == '\U{2028}' || c == '\U{2029}'
    || c == '\U{202F}' || c == '\U{205F}' || c == '\U{3000}'
  }

  /** The characters `Boolean.Parse` strips: white space and the null character. */
  predicate IsWhiteSpaceOrNull(c: char) {
    IsWhiteSpace(c) || c == '\0'
  }

  /** The white space that the integer parsers skip around a number (NumberStyles.Integer). */
  predicate IsNumberWhite(c: char) {
    ('\U{0009}' <= c <= '\U{000D}') || c == ' '
  }

  /** The number of leading characters of `s` that satisfy `white`. */
  function LeadingCount(s: string, white: char -> bool): (n: nat)
    ensures n <= |s|
    ensures forall k :: 0 <= k < n ==> white(s[k])
    ensures n < |s| ==> !white(s[n])
    decreases |s|
  {
    if |s| > 0 && white(s[0]) then
      var n := LeadingCount(s[1..], white);
      assert forall k :: 1 <= k < n + 1 ==> s[k] == s[1..][k - 1];
      n + 1
    else 0
  }

  /** The number of trailing characters of `s` that satisfy `white`. */
  function TrailingCount(s: string, white: char -> bool): (n: nat)
    ensures n <= |s|
    ensures forall k :: |s| - n <= k < |s| ==> white(s[k])
    ensures n < |s| ==> !white(s[|s| - n - 1])
    decreases |s|
  {
    if |s| > 0 && white(s[|s| - 1]) then
      var n := TrailingCount(s[..|s| - 1], white);
      assert forall k :: |s| - 1 - n <= k < |s| - 1 ==> s[k] == s[..|s| - 1][k];
      n + 1
    else 0
  }

  /**
   * Removes the characters that satisfy `white` from both ends, the leading
   * ones first: the result is the slice of `s` that starts after the leading
   * ones, and neither of its ends satisfies `white`.
   */
  function TrimBy(s: string, white: char -> bool): (r: string)
    ensures r == [] || (!white(r[0]) && !white(r[|r| - 1]))
    ensures LeadingCount(s, white) + |r| <= |s|
    ensures r == s[LeadingCount(s, white)..LeadingCount(s, white) + |r|]
  {
    var i := LeadingCount(s, white);
    var t := s[i..];
    var n := TrailingCount(t, white);
    var r := s[i..|s| - n];
    assert r != [] ==> r[0] == s[i] && r[|r| - 1] == t[|t| - n - 1];
    r
  }

  /** Trimming removes only characters that satisfy `white`, on either side of the slice it keeps. */
  lemma TrimRemovesOnlyWhite(s: string, white: char -> bool)
    ensures forall k :: 0 <= k < LeadingCount(s, white) ==> white(s[k])
    ensures forall k :: LeadingCount(s, white) + |TrimBy(s, white)| <= k < |s| ==> white(s[k])
  {
    var i := LeadingCount(s, white);
    var t := s[i..];
    var n := TrailingCount(t, white);
    assert |TrimBy(s, white)| == |s| - n - i;
    forall k | i + |TrimBy(s, white)| <= k < |s|
      ensures white(s[k])
    {
      assert s[k] == t[k - i];
    }
  }

  /** `String.Trim()`. */
  function Trim(s: string): string {
    TrimBy(s, IsWhiteSpace)
  }

  /** A string whose ends are not white space is its own trim. */
  lemma TrimOfTrimmed(s: string, white: char -> bool)
    requires s == [] || (!white(s[0]) && !white(s[|s| - 1]))
    ensures TrimBy(s, white) == s
  {
    assert s[0..] == s;
  }

  /** `String.Split(sep)`: the pieces between occurrences of `sep`, always at least one. */
  function Split(s: string, sep: char): (parts: seq<string>)
    ensures |parts| >= 1
    ensures forall k :: 0 <= k < |parts| ==> sep !in parts[k]
  {
    if s == [] then [""]
    else
      var rest := Split(s[1..], sep);
      if s[0] == sep then [""] + rest
      else [[s[0]] + rest[0]] + rest[1..]
  }

  /** `string.Join(sep, parts)`. */
  function Join(parts: seq<string>, sep: string): string {
    if |parts| == 0 then ""
    else if |parts| == 1 then parts[0]
    else parts[0] + sep + Join(parts[1..], sep)
  }

  /** Joining the pieces of a split with the separator gives back the original string. */
  lemma {:induction false} JoinSplit(s: string, sep: char)
    ensures Join(Split(s, sep), [sep]) == s
  {
    if s != [] {
      JoinSplit(s[1..], sep);
      var rest := Split(s[1..], sep);
      if s[0] == sep {
        assert Split(s, sep)[1..] == rest;
      } else {
        var parts := Split(s, sep);
        assert parts[1..] == rest[1..];
        if |rest| == 1 {
          assert Join(parts, [sep]) == [s[0]] + rest[0];
        } else {
          assert Join(rest, [sep]) == rest[0] + [sep] + Join(rest[1..], [sep]);
        }
      }
    }
  }

  /** A string without the separator splits into itself alone. */
  lemma {:induction false} SplitWithoutSeparator(s: string, sep: char)
    requires sep !in s
    ensures Split(s, sep) == [s]
  {
    if s != [] {
      assert sep !in s[1..];
      SplitWithoutSeparator(s[1..], sep);
      assert [s[0]] + s[1..] == s;
    }
  }

  /** Splitting `p + sep + t` with `sep` not in `p` yields `p` and then the pieces of `t`. */
  lemma {:induction false} SplitAfterPiece(p: string, t: string, sep: char)
    requires sep !in p
    ensures Split(p + [sep] + t, sep) == [p] + Split(t, sep)
  {
    var s := p + [sep] + t;
    if p == [] {
      assert s[1..] == t;
    } else {
      assert s[1..] == p[1..] + [sep] + t;
      assert sep !in p[1..];
      SplitAfterPiece(p[1..], t, sep);
      assert [p[0]] + p[1..] == p;
    }
  }

  /** Splitting a join of separator-free pieces gives back the pieces. */
  lemma {:induction false} SplitJoin(parts: seq<string>, sep: char)
    requires |parts| >= 1
    requires forall k :: 0 <= k < |parts| ==> sep !in parts[k]
    ensures Split(Join(parts, [sep]), sep) == parts
  {
    if |parts| == 1 {
      SplitWithoutSeparator(parts[0], sep);
    } else {
      SplitJoin(parts[1..], sep);
      SplitAfterPiece(parts[0], Join(parts[1..], [sep]), sep);
      assert [parts[0]] + parts[1..] == parts;
    }
  }

  /** The `k`-th piece of `s.Split(sep)`, or None where C# indexing would throw. */
  function Field(s: string, sep: char, k: nat): (r: Option<string>)
    ensures r.Some? <==> k < |Split(s, sep)|
  {
    var parts := Split(s, sep);
    if k < |parts| then Some(parts[k]) else None
  }

  /** `s.Replace(a, b)` for characters. */
  function ReplaceChar(s: string, a: char, b: char): (r: string)
    ensures |r| == |s|
    ensures forall k :: 0 <= k < |s| ==> r[k] == (if s[k] == a then b else s[k])
  {
    seq(|s|, k requires 0 <= k < |s| => if s[k] == a then b else s[k])
  }

  /** `string.Join(string.Empty, pieces)`. */
  function Concat(pieces: seq<string>): string {
    if pieces == [] then "" else pieces[0] + Concat(pieces[1..])
  }

  // ---------------------------------------------------------------------------
  // Number and boolean parsing (Convert.ToInt16 and friends, invariant culture)
  // ---------------------------------------------------------------------------

  predicate IsDigit(c: char) {
    '0' <= c <= '9'
  }

  predicate AllDigits(s: string) {
    forall k :: 0 <= k < |s| ==> IsDigit(s[k])
  }

  /** The value of a string of decimal digits, most significant first. */
  function DigitsValue(ds: string): nat
    requires AllDigits(ds)
  {
    if ds == [] then 0
    else DigitsValue(ds[..|ds| - 1]) * 10 + (ds[|ds| - 1] as int - '0' as int)
  }

  /** The decimal digits of `n` without leading zeros ("0" for zero). */
  function NatDigits(n: nat): (ds: string)
    ensures |ds| >= 1 && AllDigits(ds)
    decreases n
  {
    if n < 10 then ['0' + (n as char)]
    else NatDigits(n / 10) + ['0' + ((n % 10) as char)]
  }

  /** `n.ToString()` in the invariant culture. */
  function FormatInteger(n: int): string {
    if n < 0 then "-" + NatDigits(-n) else NatDigits(n)
  }

  /** The null character, which the number parser accepts at the very end of its input. */
  predicate IsNull(c: char) {
    c == '\0'
  }

  /** `s` without its run of trailing null characters. */
  function DropTrailingNulls(s: string): (r: string)
    ensures |r| <= |s| && r == s[..|r|]
    ensures forall k :: |r| <= k < |s| ==> s[k] == '\0'
    ensures r == [] || r[|r| - 1] != '\0'
  {
    s[..|s| - TrailingCount(s, IsNull)]
  }

  /**
   * The integer parse shared by the `Convert.ToIntNN(string)` family: white space
   * around the number, an optional leading sign, then one or more ASCII digits;
   * after the trailing white space any number of null characters may follow.
   * None stands for the FormatException the parser throws.
   */
  function ParseInteger(s: string): Option<int> {
    ParseSignedDigits(TrimBy(DropTrailingNulls(s), IsNumberWhite))
  }

  /** Null characters after a number and its trailing white space do not change what it parses as. */
  lemma ParseIgnoresTrailingNulls(s: string, n: nat)
    requires s == [] || s[|s| - 1] != '\0'
    ensures ParseInteger(s + seq(n, _ => '\0')) == ParseInteger(s)
  {
    var t := s + seq(n, _ => '\0');
    var d := TrailingCount(t, IsNull);
    assert forall k :: |s| <= k < |t| ==> IsNull(t[k]);
    TrailingNullRun(t, |s|);
    assert DropTrailingNulls(t) == s;
    assert DropTrailingNulls(s) == s by {
      assert s[..|s|] == s;
    }
  }

  /** A run of null characters from `i` to the end, with a non-null before it, is the whole trailing run. */
  lemma {:induction false} TrailingNullRun(t: string, i: nat)
    requires i <= |t| && (i == 0 || !IsNull(t[i - 1]))
    requires forall k :: i <= k < |t| ==> IsNull(t[k])
    ensures TrailingCount(t, IsNull) == |t| - i
    decreases |t|
  {
    if |t| > i {
      var u := t[..|t| - 1];
      assert forall k :: i <= k < |u| ==> IsNull(u[k]);
      assert i == 0 || !IsNull(u[i - 1]);
      TrailingNullRun(u, i);
    }
  }

  /** An optional sign followed by one or more ASCII digits, and nothing else. */
  function ParseSignedDigits(t: string): Option<int> {
    if |t| > 1 && (t[0] == '-' || t[0] == '+') && AllDigits(t[1..]) then
      var v: int := DigitsValue(t[1..]);
      Some(if t[0] == '-' then -v else v)
    else if |t| > 0 && AllDigits(t) then Some(DigitsValue(t))
    else None
  }

  lemma {:induction false} DigitsOfNat(n: nat)
    ensures DigitsValue(NatDigits(n)) == n
    decreases n
  {
    if n >= 10 {
      DigitsOfNat(n / 10);
      var ds := NatDigits(n);
      assert ds[..|ds| - 1] == NatDigits(n / 10);
    }
  }

  lemma FormattedIsTrimmed(n: int)
    ensures DropTrailingNulls(FormatInteger(n)) == FormatInteger(n)
    ensures TrimBy(FormatInteger(n), IsNumberWhite) == FormatInteger(n)
  {
    var f := FormatInteger(n);
    assert IsDigit(f[|f| - 1]);
    assert f[0] == '-' || IsDigit(f[0]);
    assert f[..|f|] == f;
    TrimOfTrimmed(f, IsNumberWhite);
  }

  lemma ParseSignedFormatted(n: int)
    ensures ParseSignedDigits(FormatInteger(n)) == Some(n)
  {
    var f := FormatInteger(n);
    if n < 0 {
      DigitsOfNat(-n);
      assert f[1..] == NatDigits(-n);
    } else {
      DigitsOfNat(n);
      assert IsDigit(f[0]);
    }
  }

  /** Parsing what `ToString` printed gives back the number. */
  lemma ParseFormatted(n: int)
    ensures ParseInteger(FormatInteger(n)) == Some(n)
  {
    FormattedIsTrimmed(n);
    ParseSignedFormatted(n);
  }

  /** `Convert.ToInt16(string)`: None for a malformed or out-of-range number. */
  function ParseInt16(s: string): (r: Option<int16>)
    ensures r.Some? ==> ParseInteger(s) == Some(r.value as int)
    ensures r.None? <==> ParseInteger(s).None? || !(-0x8000 <= ParseInteger(s).value < 0x8000)
  {
    match ParseInteger(s)
    case Some(v) => if -0x8000 <= v < 0x8000 then Some(v as int16) else None
    case None => None
  }

  /** `Convert.ToUInt16(string)`. */
  function ParseUInt16(s: string): (r: Option<uint16>)
    ensures r.Some? ==> ParseInteger(s) == Some(r.value as int)
    ensures r.None? <==> ParseInteger(s).None? || !(0 <= ParseInteger(s).value < 0x1_0000)
  {
    match ParseInteger(s)
    case Some(v) => if 0 <= v < 0x1_0000 then Some(v as uint16) else None
    case None => None
  }

  /** `Convert.ToInt32(string)`. */
  function ParseInt32(s: string): (r: Option<int32>)
    ensures r.Some? ==> ParseInteger(s) == Some(r.value as int)
    ensures r.None? <==> ParseInteger(s).None? || !(-0x8000_0000 <= ParseInteger(s).value < 0x8000_0000)
  {
    match ParseInteger(s)
    case Some(v) => if -0x8000_0000 <= v < 0x8000_0000 then Some(v as int32) else None
    case None => None
  }

  /** `Convert.ToUInt32(string)`. */
  function ParseUInt32(s: string): (r: Option<uint32>)
    ensures r.Some? ==> ParseInteger(s) == Some(r.value as int)
    ensures r.None? <==> ParseInteger(s).None? || !(0 <= ParseInteger(s).value < 0x1_0000_0000)
  {
    match ParseInteger(s)
    case Some(v) => if 0 <= v < 0x1_0000_0000 then Some(v as uint32) else None
    case None => None
  }

  function ToUpperAscii(c: char): char {
    if 'a' <= c <= 'z' then (c as int - 32) as char else c
  }

  predicate EqualsIgnoreCase(a: string, b: string) {
    |a| == |b| && forall k :: 0 <= k < |a| ==> ToUpperAscii(a[k]) == ToUpperAscii(b[k])
  }

  /** `Convert.ToBoolean(string)`: "True" or "False" in any letter case, with white space and nulls around it. */
  function ParseBool(s: string): Option<bool> {
    var t := TrimBy(s, IsWhiteSpaceOrNull);
    if EqualsIgnoreCase(t, "True") then Some(true)
    else if EqualsIgnoreCase(t, "False") then Some(false)
    else None
  }

  /** `b.ToString()`. */
  function FormatBool(b: bool): string {
    if b then "True" else "False"
  }

  lemma ParseTrue()
    ensures ParseBool("True") == Some(true)
  {
    TrimOfTrimmed("True", IsWhiteSpaceOrNull);
    assert EqualsIgnoreCase("True", "True");
  }

  lemma ParseFalse()
    ensures ParseBool("False") == Some(false)
  {
    TrimOfTrimmed("False", IsWhiteSpaceOrNull);
    assert !EqualsIgnoreCase("False", "True");
    assert EqualsIgnoreCase("False", "False");
  }

  /** `Convert.ToBoolean` reads back what `bool.ToString` writes. */
  lemma ParseFormattedBool(b: bool)
    ensures ParseBool(FormatBool(b)) == Some(b)
  {
    if b { ParseTrue(); } else { ParseFalse(); }
  }
}
