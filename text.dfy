/**
 * String helpers with JavaScript semantics: character classes used by the
 * source's regular expressions, `startsWith`/`endsWith`/`indexOf`, `join`,
 * `split`, the first-occurrence `replace`, number rendering and `parseInt`.
 */
module Text {
  import opened Wrappers

  /** `\w` in a JavaScript regular expression without the `u` flag. */
  predicate IsWordChar(c: char) {
    ('a' <= c <= 'z') || ('A' <= c <= 'Z') || ('0' <= c <= '9') || c == '_'
  }

  predicate IsDigit(c: char) { '0' <= c <= '9' }

  /** The characters that `.` does not match (line terminators). */
  predicate IsLineTerminator(c: char) {
    c == '\n' || c == '\r' || c == '\U{2028}' || c == '\U{2029}'
  }

  /** `StrWhiteSpaceChar` of ECMAScript: white space and line terminators, skipped by `parseInt`. */
  predicate IsJsWhitespace(c: char) {
    c == '\t' || c == '\U{000B}' || c == '\U{000C}' || c == ' ' || c == '\U{00A0}' || c == '\U{FEFF}'
    || c == '\U{1680}' || ('\U{2000}' <= c <= '\U{200A}') || c == '\U{202F}' || c == '\U{205F}'
    || c == '\U{3000}' || IsLineTerminator(c)
  }

  predicate NoLineTerminator(s: string) {
    forall i | 0 <= i < |s| :: !IsLineTerminator(s[i])
  }

  predicate StartsWith(s: string, p: string) {
    |p| <= |s| && s[..|p|] == p
  }

  predicate EndsWith(s: string, p: string) {
    |p| <= |s| && s[|s| - |p|..] == p
  }

  /** `needle` occurs in `s` starting at index `i`. */
  predicate OccursAt(s: string, needle: string, i: int) {
    0 <= i && i + |needle| <= |s| && s[i..i + |needle|] == needle
  }

  /** `s.indexOf(needle) >= 0`. */
  predicate Contains(s: string, needle: string) {
    exists i | 0 <= i <= |s| :: OccursAt(s, needle, i)
  }

  /** The index of the first occurrence of `needle` at or after `from`, as `indexOf` finds it. */
  function IndexOfFrom(s: string, needle: string, from: nat): (r: Option<nat>)
    requires from <= |s|
    decreases |s| - from
    ensures r.Some? ==> from <= r.value && OccursAt(s, needle, r.value)
    ensures r.Some? ==> forall i | from <= i < r.value :: !OccursAt(s, needle, i)
    ensures r.None? ==> forall i | from <= i :: !OccursAt(s, needle, i)
  {
    if |s| - from < |needle| then None
    else if s[from..from + |needle|] == needle then Some(from)
    else if from == |s| then None
    else IndexOfFrom(s, needle, from + 1)
  }

  /** The first occurrence of `needle`, or `None` where `indexOf` answers -1. */
  function IndexOf(s: string, needle: string): (r: Option<nat>)
    ensures r.Some? <==> Contains(s, needle)
    ensures r.Some? ==> OccursAt(s, needle, r.value) && forall i | 0 <= i < r.value :: !OccursAt(s, needle, i)
  {
    IndexOfFrom(s, needle, 0)
  }

  /**
   * `s.replace(needle, rep)` with a string pattern: only the first
   * occurrence is replaced; without one the string is returned unchanged.
   */
  function ReplaceFirst(s: string, needle: string, rep: string): (r: string)
    ensures !Contains(s, needle) ==> r == s
    ensures Contains(s, needle) ==>
      exists i :: OccursAt(s, needle, i) && (forall j | 0 <= j < i :: !OccursAt(s, needle, j)) && r == s[..i] + rep + s[i + |needle|..]
  {
    match IndexOf(s, needle)
    case None => s
    case Some(i) => s[..i] + rep + s[i + |needle|..]
  }

  /** `parts.join(sep)`. */
  function Join(parts: seq<string>, sep: string): string
  {
    if |parts| == 0 then ""
    else if |parts| == 1 then parts[0]
    else Join(parts[..|parts| - 1], sep) + sep + parts[|parts| - 1]
  }

  lemma JoinSingleton(p: string, sep: string)
    ensures Join([p], sep) == p
  {
  }

  /** `s.split(sep)` for a one-character separator: the pieces between separators, never empty. */
  function Split(s: string, sep: char): (r: seq<string>)
    ensures |r| >= 1
    ensures forall k | 0 <= k < |r| :: sep !in r[k]
  {
    SplitFrom(s, sep, "", 0)
  }

  function SplitFrom(s: string, sep: char, cur: string, i: nat): (r: seq<string>)
    requires i <= |s|
    requires sep !in cur
    decreases |s| - i
    ensures |r| >= 1
    ensures forall k | 0 <= k < |r| :: sep !in r[k]
  {
    if i == |s| then [cur]
    else if s[i] == sep then [cur] + SplitFrom(s, sep, "", i + 1)
    else SplitFrom(s, sep, cur + [s[i]], i + 1)
  }

  /** Joining the pieces of a split with the same separator gives back the string. */
  lemma {:induction false} SplitJoin(s: string, sep: char)
    ensures Join(Split(s, sep), [sep]) == s
  {
    SplitFromJoin(s, sep, "", 0);
  }

  lemma {:induction false} SplitFromJoin(s: string, sep: char, cur: string, i: nat)
    requires i <= |s|
    requires sep !in cur
    decreases |s| - i
    ensures Join(SplitFrom(s, sep, cur, i), [sep]) == cur + s[i..]
  {
    if i == |s| {
    } else if s[i] == sep {
      var rest := SplitFrom(s, sep, "", i + 1);
      SplitFromJoin(s, sep, "", i + 1);
      JoinCons(cur, rest, [sep]);
      assert s[i..] == [sep] + s[i + 1..];
    } else {
      SplitFromJoin(s, sep, cur + [s[i]], i + 1);
      assert s[i..] == [s[i]] + s[i + 1..];
    }
  }

  lemma {:induction false} JoinCons(p: string, rest: seq<string>, sep: string)
    requires |rest| >= 1
    ensures Join([p] + rest, sep) == p + sep + Join(rest, sep)
    decreases |rest|
  {
    if |rest| == 1 {
      assert [p] + rest == [p, rest[0]];
      assert ([p] + rest)[..1] == [p];
    } else {
      var q := [p] + rest;
      assert q[..|q| - 1] == [p] + rest[..|rest| - 1];
      JoinCons(p, rest[..|rest| - 1], sep);
    }
  }

  function DigitChar(d: nat): char
    requires d < 10
  {
    "0123456789"[d]
  }

  /** Decimal rendering of a natural number, as `String(n)` prints it. */
  function NatToString(n: nat): (r: string)
    decreases n
    ensures |r| >= 1
    ensures forall i | 0 <= i < |r| :: IsDigit(r[i])
  {
    if n < 10 then [DigitChar(n)] else NatToString(n / 10) + [DigitChar(n % 10)]
  }

  /** Decimal rendering of an integer with a leading `-` for negatives. */
  function IntToString(n: int): (r: string)
    ensures |r| >= 1
  {
    if n < 0 then "-" + NatToString(-n) else NatToString(n)
  }

  /** The value of a string of decimal digits. */
  function DigitsValue(s: string): nat
    requires forall i | 0 <= i < |s| :: IsDigit(s[i])
  {
    if |s| == 0 then 0
    else
      assert IsDigit(s[|s| - 1]);
      DigitsValue(s[..|s| - 1]) * 10 + (s[|s| - 1] as int - '0' as int)
  }

  /** Reading back the decimal rendering of `n` gives `n`. */
  lemma {:induction false} DigitsValueOfNatToString(n: nat)
    ensures DigitsValue(NatToString(n)) == n
    decreases n
  {
    var r := NatToString(n);
    if n < 10 {
      assert r[..0] == [];
    } else {
      DigitsValueOfNatToString(n / 10);
      assert r[..|r| - 1] == NatToString(n / 10);
    }
  }

  /** The longest prefix of `s` that is made of decimal digits. */
  function LeadingDigits(s: string): (r: string)
    ensures |r| <= |s| && r == s[..|r|]
    ensures forall i | 0 <= i < |r| :: IsDigit(r[i])
    ensures |r| < |s| ==> !IsDigit(s[|r|])
  {
    if |s| == 0 || !IsDigit(s[0]) then "" else [s[0]] + LeadingDigits(s[1..])
  }

  function SkipWhitespace(s: string): (r: string)
    ensures |r| <= |s| && r == s[|s| - |r|..]
    ensures |r| > 0 ==> !IsJsWhitespace(r[0])
  {
    if |s| > 0 && IsJsWhitespace(s[0]) then SkipWhitespace(s[1..]) else s
  }

  /**
   * `parseInt(s, 10)`: leading white space is skipped, an optional sign is
   * read, then the longest run of decimal digits; no digits is `NaN` (`None`).
   */
  function ParseIntJs(s: string): (r: Option<int>)
  {
    var t := SkipWhitespace(s);
    var neg := |t| > 0 && t[0] == '-';
    var body := if |t| > 0 && (t[0] == '-' || t[0] == '+') then t[1..] else t;
    var ds := LeadingDigits(body);
    if |ds| == 0 then None
    else if neg then Some(-(DigitsValue(ds) as int))
    else Some(DigitsValue(ds))
  }

  /** `parseInt` reads back the decimal rendering of any integer. */
  lemma ParseIntJsOfIntToString(n: int)
    ensures ParseIntJs(IntToString(n)) == Some(n)
  {
    var m: nat := if n < 0 then -n else n;
    var d := NatToString(m);
    var t := IntToString(n);
    SkipWhitespaceOfNumber(n);
    LeadingDigitsAll(d);
    DigitsValueOfNatToString(m);
    if n < 0 {
      assert t[0] == '-' && t[1..] == d;
    } else {
      assert t == d && t[0] != '-' && t[0] != '+';
    }
  }

  lemma SkipWhitespaceOfNumber(n: int)
    ensures SkipWhitespace(IntToString(n)) == IntToString(n)
  {
    var t := IntToString(n);
    assert t[0] == '-' || IsDigit(t[0]);
    assert !IsJsWhitespace(t[0]);
  }

  lemma {:induction false} LeadingDigitsAll(s: string)
    requires forall i | 0 <= i < |s| :: IsDigit(s[i])
    ensures LeadingDigits(s) == s
  {
    if |s| > 0 {
      LeadingDigitsAll(s[1..]);
    }
  }

  /**
   * `toLowerCase` restricted to what matters for searching ASCII keywords:
   * ASCII capitals and the Kelvin sign (U+212A) are the only characters whose
   * lower case is an ASCII letter.
   */
  function LowerChar(c: char): char {
    if 'A' <= c <= 'Z' then (c as int + 32) as char
    else if c == '\U{212A}' then 'k'
    else c
  }

  function Lower(s: string): (r: string)
    ensures |r| == |s|
    ensures forall i | 0 <= i < |s| :: r[i] == LowerChar(s[i])
  {
    seq(|s|, i requires 0 <= i < |s| => LowerChar(s[i]))
  }

  /** A slice is its first element followed by the rest. */
  lemma ConsSlice<T>(s: seq<T>, p: nat, k: nat)
    requires p < k <= |s|
    ensures s[p..k] == [s[p]] + s[p + 1..k]
  {
  }
}
