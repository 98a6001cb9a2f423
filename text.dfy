/** Character classes, decimal rendering and line splitting shared by the
    Rust host and the Python bridge. Strings are sequences of Unicode scalar
    values. */
module Text {
  import opened Wrappers

  // ---------------------------------------------------------------------
  // Decimal rendering of unsigned integers (`u64::to_string`, Python `str(int)`)
  // ---------------------------------------------------------------------

  predicate IsDigit(c: char) { '0' <= c <= '9' }

  function DigitChar(d: nat): (c: char)
    requires d < 10
    ensures IsDigit(c) && c as int - '0' as int == d
  {
    ('0' as int + d) as char
  }

  /** Decimal digits of `n`, most significant first, without leading zeros. */
  function NatToString(n: nat): (s: string)
    ensures |s| > 0
    ensures forall i :: 0 <= i < |s| ==> IsDigit(s[i])
    ensures |s| > 1 ==> s[0] != '0'
    decreases n
  {
    if n < 10 then [DigitChar(n)] else NatToString(n / 10) + [DigitChar(n % 10)]
  }

  function DigitValue(c: char): nat
    requires IsDigit(c)
  {
    c as int - '0' as int
  }

  /** Reads a string of decimal digits back as a number. */
  function ParseDecimal(s: string): nat
    requires forall i :: 0 <= i < |s| ==> IsDigit(s[i])
  {
    if s == [] then 0 else ParseDecimal(s[..|s| - 1]) * 10 + DigitValue(s[|s| - 1])
  }

  lemma {:induction false} NatToStringRoundTrip(n: nat)
    ensures ParseDecimal(NatToString(n)) == n
    decreases n
  {
    if n >= 10 {
      var s := NatToString(n);
      assert s[..|s| - 1] == NatToString(n / 10);
      NatToStringRoundTrip(n / 10);
    }
  }

  // ---------------------------------------------------------------------
  // Whitespace
  // ---------------------------------------------------------------------

  /** Rust's `char::is_whitespace`: the Unicode White_Space property. */
  predicate IsRustWhitespace(c: char) {
    || '\t' <= c <= '\r'
    || c == ' '
    || c == '\U{85}' || c == '\U{A0}' || c == '\U{1680}'
    || '\U{2000}' <= c <= '\U{200A}'
    || c == '\U{2028}' || c == '\U{2029}' || c == '\U{202F}' || c == '\U{205F}'
    || c == '\U{3000}'
  }

  /** Python's `str.isspace` for one character (what `str.strip()` removes):
      the Rust set plus the four separators U+001C..U+001F. */
  predicate IsPythonSpace(c: char) {
    IsRustWhitespace(c) || '\U{1C}' <= c <= '\U{1F}'
  }

  function TrimStart(s: string): string {
    if s != [] && IsRustWhitespace(s[0]) then TrimStart(s[1..]) else s
  }

  function TrimEnd(s: string): string {
    if s != [] && IsRustWhitespace(s[|s| - 1]) then TrimEnd(s[..|s| - 1]) else s
  }

  /** Rust's `str::trim`: both ends stripped of White_Space characters. */
  function Trim(s: string): string {
    TrimEnd(TrimStart(s))
  }

  /** True when every character is Rust whitespace (also when `s` is empty). */
  predicate IsRustBlank(s: string) {
    forall i :: 0 <= i < |s| ==> IsRustWhitespace(s[i])
  }

  /** True when Python's `str.strip()` would leave nothing. */
  predicate IsPythonBlank(s: string) {
    forall i :: 0 <= i < |s| ==> IsPythonSpace(s[i])
  }

  /** `trim_start` drops exactly the leading run of whitespace. */
  lemma {:induction false} TrimStartDropsLeadingWhitespace(s: string)
    ensures var r := TrimStart(s);
      && |r| <= |s| && r == s[|s| - |r|..]
      && (r == [] || !IsRustWhitespace(r[0]))
      && IsRustBlank(s[..|s| - |r|])
  {
    if s != [] && IsRustWhitespace(s[0]) {
      TrimStartDropsLeadingWhitespace(s[1..]);
      var r := TrimStart(s[1..]);
      assert s[1..][|s| - 1 - |r|..] == s[|s| - |r|..];
      assert s[..|s| - |r|] == [s[0]] + s[1..][..|s| - 1 - |r|];
    }
  }

  /** `trim_end` drops exactly the trailing run of whitespace. */
  lemma {:induction false} TrimEndDropsTrailingWhitespace(s: string)
    ensures var r := TrimEnd(s);
      && |r| <= |s| && r == s[..|r|]
      && (r == [] || !IsRustWhitespace(r[|r| - 1]))
      && IsRustBlank(s[|r|..])
  {
    if s != [] && IsRustWhitespace(s[|s| - 1]) {
      TrimEndDropsTrailingWhitespace(s[..|s| - 1]);
      var r := TrimEnd(s[..|s| - 1]);
      assert s[..|s| - 1][..|r|] == s[..|r|];
      assert s[|r|..] == s[..|s| - 1][|r|..] + [s[|s| - 1]];
    }
  }

  /** `trim` leaves an empty string exactly for the all-whitespace lines, and
      otherwise text that starts and ends with a non-whitespace character. */
  lemma {:induction false} TrimEmptyIffBlank(s: string)
    ensures Trim(s) == [] <==> IsRustBlank(s)
    ensures Trim(s) != [] ==> !IsRustWhitespace(Trim(s)[0]) && !IsRustWhitespace(Trim(s)[|Trim(s)| - 1])
  {
    TrimStartDropsLeadingWhitespace(s);
    var t := TrimStart(s);
    TrimEndDropsTrailingWhitespace(t);
    var r := TrimEnd(t);
    assert t == s[|s| - |t|..];
    if r == [] {
      assert forall i :: 0 <= i < |s| - |t| ==> s[i] == s[..|s| - |t|][i];
    } else {
      assert r[0] == t[0] == s[|s| - |t|];
    }
  }

  // ---------------------------------------------------------------------
  // Newline-terminated lines
  // ---------------------------------------------------------------------

  predicate SingleLine(s: string) { '\n' !in s }

  /** Each line followed by one newline. */
  function JoinLines(lines: seq<string>): (text: string)
    ensures lines != [] ==> |text| > 0 && text[|text| - 1] == '\n'
  {
    if lines == [] then "" else lines[0] + "\n" + JoinLines(lines[1..])
  }

  lemma {:induction false} JoinLinesSnoc(lines: seq<string>, last: string)
    ensures JoinLines(lines + [last]) == JoinLines(lines) + last + "\n"
  {
    if lines != [] {
      assert (lines + [last])[1..] == lines[1..] + [last];
      JoinLinesSnoc(lines[1..], last);
    } else {
      assert [last][1..] == [];
    }
  }

  /** Index of the first newline at or after `from`, if any. */
  function NextNewline(s: string, from: nat): (k: Option<nat>)
    requires from <= |s|
    ensures k.Some? ==> from <= k.value < |s| && s[k.value] == '\n' && SingleLine(s[from..k.value])
    ensures k.None? ==> SingleLine(s[from..])
    decreases |s| - from
  {
    if from == |s| then None
    else if s[from] == '\n' then Some(from)
    else
      var k := NextNewline(s, from + 1);
      assert s[from..] == [s[from]] + s[from + 1..];
      if k.Some? then assert s[from..k.value] == [s[from]] + s[from + 1..k.value]; k else k
  }

  /** Splits text into lines at each newline, dropping the terminators (a
      final piece without a terminator is kept when it is not empty). */
  function SplitLines(s: string): seq<string>
    decreases |s|
  {
    match NextNewline(s, 0)
    case None => if s == [] then [] else [s]
    case Some(k) => [s[..k]] + SplitLines(s[k + 1..])
  }

  /** Splitting undoes joining, as long as no line holds a newline itself. */
  lemma {:induction false} SplitJoinLines(lines: seq<string>)
    requires forall i :: 0 <= i < |lines| ==> SingleLine(lines[i])
    ensures SplitLines(JoinLines(lines)) == lines
  {
    if lines != [] {
      var s := JoinLines(lines);
      var l := lines[0];
      assert s == l + "\n" + JoinLines(lines[1..]);
      FirstNewline(l, JoinLines(lines[1..]));
      assert s[..|l|] == l;
      assert s[|l| + 1..] == JoinLines(lines[1..]);
      SplitJoinLines(lines[1..]);
    }
  }

  lemma {:induction false} FirstNewline(l: string, rest: string)
    requires SingleLine(l)
    ensures NextNewline(l + "\n" + rest, 0) == Some(|l|)
  {
    var s := l + "\n" + rest;
    assert s[|l|] == '\n';
    assert forall i :: 0 <= i < |l| ==> s[i] == l[i];
  }
}
