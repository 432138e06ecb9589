/**
 * `resolveAlias`: the alias template of a time-series field. Every match of
 * `$word` or `[[text]]` (shortest non-empty text) is replaced by the series
 * name, the column, a dot-separated segment of the name or a tag value;
 * everything else is copied.
 */
module Alias {
  import opened Wrappers
  import opened Wire
  import Text

  /** The end of the longest run of `\w` characters of `s` starting at `i`. */
  function WordRun(s: string, i: nat): (r: nat)
    requires i <= |s|
    decreases |s| - i
    ensures i <= r <= |s|
    ensures forall j | i <= j < r :: Text.IsWordChar(s[j])
    ensures r < |s| ==> !Text.IsWordChar(s[r])
  {
    if i < |s| && Text.IsWordChar(s[i]) then WordRun(s, i + 1) else i
  }

  /** A match of the alias pattern: its capture group, the matched text and where scanning resumes. */
  datatype Token = Token(group: string, matched: string, next: nat)

  /**
   * The match starting at `p`, if any: `$` and the longest run of word
   * characters after it, or `[[`, the shortest non-empty text and `]]`.
   */
  function TokenAt(s: string, p: nat): (r: Option<Token>)
    requires p < |s|
    ensures r.Some? ==> p < r.value.next <= |s| && r.value.matched == s[p..r.value.next]
    ensures r.Some? ==> |r.value.group| > 0
    ensures s[p] != '$' && s[p] != '[' ==> r.None?
    ensures s[p] == '$' ==> (r.Some? <==> p + 1 < |s| && Text.IsWordChar(s[p + 1]))
  {
    if s[p] == '$' && WordRun(s, p + 1) > p + 1 then
      var e := WordRun(s, p + 1);
      Some(Token(s[p + 1..e], s[p..e], e))
    else if p + 3 <= |s| && s[p..p + 2] == "[[" then
      match Text.IndexOfFrom(s, "]]", p + 3)
      case None => None
      case Some(k) => Some(Token(s[p + 2..k], s[p..k + 2], k + 2))
    else None
  }

  /** `series.tags[key]` for a present tags object: the value, or `undefined` for a missing key. */
  function TagValue(entries: seq<(string, string)>, key: string): (r: string)
    ensures (forall i | 0 <= i < |entries| :: entries[i].0 != key) ==> r == "undefined"
    ensures forall i | 0 <= i < |entries| && entries[i].0 == key && (forall j | 0 <= j < i :: entries[j].0 != key) ::
      r == entries[i].1
  {
    if |entries| == 0 then "undefined"
    else if entries[0].0 == key then entries[0].1
    else
      var r := TagValue(entries[1..], key);
      assert forall i | 1 <= i < |entries| :: entries[1..][i - 1] == entries[i];
      r
  }

  /** The keys of a tags object's entries are pairwise distinct. */
  predicate DistinctKeys(entries: seq<(string, string)>) {
    forall i, j | 0 <= i < j < |entries| :: entries[i].0 != entries[j].0
  }

  /**
   * With distinct keys, as a JSON object's entries have, the first entry
   * with the key is the only one, so `TagValue` is `series.tags[key]`.
   */
  lemma TagValueOfEntry(entries: seq<(string, string)>, j: nat)
    requires DistinctKeys(entries) && j < |entries|
    ensures TagValue(entries, entries[j].0) == entries[j].1
  {
    var key := entries[j].0;
    assert forall i | 0 <= i < j :: entries[i].0 != key;
  }

  /** What one match is replaced by. */
  function Replacement(series: Series, index: nat, t: Token): string {
    var g := t.group;
    if g == "m" || g == "measurement" then series.name
    else if g == "col" then (if index < |series.columns| then series.columns[index] else "undefined")
    else if Text.ParseIntJs(g).Some? then
      var n := Text.ParseIntJs(g).value;
      var segments := Text.Split(series.name, '.');
      if 0 <= n < |segments| then segments[n] else t.matched
    else if !Text.StartsWith(g, "tag_") then t.matched
    else if series.tags.None? then t.matched
    else TagValue(series.tags.value, g[4..])
  }

  /** The expansion of `alias[p..]`, scanning left to right as a global replace does. */
  function ExpandFrom(series: Series, alias: string, index: nat, p: nat): string
    requires p <= |alias|
    decreases |alias| - p
  {
    if p == |alias| then ""
    else
      match TokenAt(alias, p)
      case None => [alias[p]] + ExpandFrom(series, alias, index, p + 1)
      case Some(t) => Replacement(series, index, t) + ExpandFrom(series, alias, index, t.next)
  }

  /** `resolveAlias(series, alias, index)`. */
  function ResolveAlias(series: Series, alias: string, index: nat): string {
    ExpandFrom(series, alias, index, 0)
  }

  /** A character that cannot start a match is copied. */
  lemma LiteralStep(series: Series, alias: string, index: nat, p: nat)
    requires p < |alias| && alias[p] != '$' && alias[p] != '['
    ensures ExpandFrom(series, alias, index, p) == [alias[p]] + ExpandFrom(series, alias, index, p + 1)
  {
    assert TokenAt(alias, p).None?;
  }

  /** A template with no `$` and no `[[` passes through verbatim. */
  lemma {:induction false} PlainAliasUnchanged(series: Series, alias: string, index: nat)
    requires '$' !in alias && !Text.Contains(alias, "[[")
    ensures ResolveAlias(series, alias, index) == alias
  {
    PlainFrom(series, alias, index, 0);
  }

  lemma {:induction false} PlainFrom(series: Series, alias: string, index: nat, p: nat)
    requires p <= |alias|
    requires '$' !in alias && !Text.Contains(alias, "[[")
    decreases |alias| - p
    ensures ExpandFrom(series, alias, index, p) == alias[p..]
  {
    if p < |alias| {
      assert alias[p] != '$';
      assert !Text.OccursAt(alias, "[[", p);
      assert TokenAt(alias, p).None?;
      PlainFrom(series, alias, index, p + 1);
      Text.ConsSlice(alias, p, |alias|);
    }
  }

  /** A template that is one token from start to end expands to that token's replacement. */
  lemma WholeToken(series: Series, alias: string, index: nat)
    requires |alias| > 0 && TokenAt(alias, 0).Some? && TokenAt(alias, 0).value.next == |alias|
    ensures ResolveAlias(series, alias, index) == Replacement(series, index, TokenAt(alias, 0).value)
  {
    var t := TokenAt(alias, 0).value;
    assert ExpandFrom(series, alias, index, 0) == Replacement(series, index, t) + ExpandFrom(series, alias, index, t.next);
    assert ExpandFrom(series, alias, index, t.next) == "";
  }

  lemma DollarToken(alias: string, g: string)
    requires alias == "$" + g && |g| > 0
    requires forall i | 0 <= i < |g| :: Text.IsWordChar(g[i])
    ensures TokenAt(alias, 0) == Some(Token(g, alias, |alias|))
  {
    WordRunAll(alias, 1);
    assert alias[0] == '$' && WordRun(alias, 1) == |alias| > 1;
    assert alias[1..|alias|] == g && alias[0..|alias|] == alias;
  }

  lemma {:induction false} WordRunAll(s: string, i: nat)
    requires i <= |s|
    requires forall j | i <= j < |s| :: Text.IsWordChar(s[j])
    decreases |s| - i
    ensures WordRun(s, i) == |s|
  {
    if i < |s| {
      WordRunAll(s, i + 1);
    }
  }

  /** `$m` and `$measurement` give the series name. */
  lemma MeasurementToken(series: Series, index: nat)
    ensures ResolveAlias(series, "$m", index) == series.name
    ensures ResolveAlias(series, "$measurement", index) == series.name
  {
    DollarToken("$m", "m");
    WholeToken(series, "$m", index);
    DollarToken("$measurement", "measurement");
    WholeToken(series, "$measurement", index);
  }

  /** `[[m]]` is the bracketed spelling of `$m`. */
  lemma BracketMeasurement(series: Series, index: nat)
    ensures ResolveAlias(series, "[[m]]", index) == series.name
  {
    var s := "[[m]]";
    assert s[0..2] == "[[";
    assert Text.IndexOfFrom(s, "]]", 3) == Some(3) by {
      assert s[3..5] == "]]";
    }
    assert TokenAt(s, 0) == Some(Token("m", s, 5)) by {
      assert s[2..3] == "m" && s[0..5] == s;
    }
    WholeToken(series, s, index);
  }

  /** `$col` gives the column being named. */
  lemma ColumnToken(series: Series, index: nat)
    requires index < |series.columns|
    ensures ResolveAlias(series, "$col", index) == series.columns[index]
  {
    DollarToken("$col", "col");
    WholeToken(series, "$col", index);
  }

  /** A `tag_` group is not a number, so it is looked up among the tags when there are any. */
  lemma TagReplacement(series: Series, index: nat, t: Token, key: string)
    requires t.group == "tag_" + key
    ensures series.tags.Some? ==> Replacement(series, index, t) == TagValue(series.tags.value, key)
    ensures series.tags.None? ==> Replacement(series, index, t) == t.matched
  {
    var g := t.group;
    assert Text.ParseIntJs(g).None? by {
      assert Text.SkipWhitespace(g) == g by {
        assert !Text.IsJsWhitespace(g[0]);
      }
      assert !Text.IsDigit(g[0]) && g[0] != '-' && g[0] != '+';
    }
    assert g != "m" && g != "measurement" && g != "col";
    assert g[..4] == "tag_" && g[4..] == key;
  }

  /** `$tag_k` gives the value of tag `k`, and the text `undefined` when the series has no such tag. */
  lemma TagToken(series: Series, index: nat, key: string)
    requires |key| > 0 && forall i | 0 <= i < |key| :: Text.IsWordChar(key[i])
    requires series.tags.Some?
    ensures ResolveAlias(series, "$tag_" + key, index) == TagValue(series.tags.value, key)
  {
    var g := "tag_" + key;
    TagPrefix(key);
    DollarToken("$" + g, g);
    WholeToken(series, "$" + g, index);
    TagReplacement(series, index, TokenAt("$" + g, 0).value, key);
  }

  /** `$tag_k` for a tag the series does not carry gives the text `undefined`. */
  lemma MissingTag(series: Series, index: nat, key: string)
    requires |key| > 0 && forall i | 0 <= i < |key| :: Text.IsWordChar(key[i])
    requires series.tags.Some?
    requires forall i | 0 <= i < |series.tags.value| :: series.tags.value[i].0 != key
    ensures ResolveAlias(series, "$tag_" + key, index) == "undefined"
  {
    TagToken(series, index, key);
  }

  lemma TagPrefix(key: string)
    ensures "$tag_" + key == "$" + ("tag_" + key)
  {
  }

  /** On a series without tags a `$tag_k` token stays as written. */
  lemma TagTokenWithoutTags(series: Series, index: nat, key: string)
    requires |key| > 0 && forall i | 0 <= i < |key| :: Text.IsWordChar(key[i])
    requires series.tags.None?
    ensures ResolveAlias(series, "$tag_" + key, index) == "$tag_" + key
  {
    var g := "tag_" + key;
    TagPrefix(key);
    DollarToken("$" + g, g);
    WholeToken(series, "$" + g, index);
    TagReplacement(series, index, TokenAt("$" + g, 0).value, key);
  }

  /**
   * Any other group (not `m`, `measurement` or `col`, not a number and not
   * starting with `tag_`) leaves its match as written.
   */
  lemma OtherTokenLiteral(series: Series, index: nat, t: Token)
    requires t.group != "m" && t.group != "measurement" && t.group != "col"
    requires Text.ParseIntJs(t.group).None? && !Text.StartsWith(t.group, "tag_")
    ensures Replacement(series, index, t) == t.matched
  {
  }

  /** `$host` names no known group and no tag, so it stays as written, tags or not. */
  lemma HostTokenLiteral(series: Series, index: nat)
    ensures ResolveAlias(series, "$host", index) == "$host"
  {
    DollarToken("$host", "host");
    WholeToken(series, "$host", index);
    HostIsOther();
    OtherTokenLiteral(series, index, Token("host", "$host", 5));
  }

  lemma HostIsOther()
    ensures Text.ParseIntJs("host").None? && !Text.StartsWith("host", "tag_")
  {
    var g := "host";
    assert Text.SkipWhitespace(g) == g by {
      assert !Text.IsJsWhitespace(g[0]);
    }
    assert !Text.IsDigit(g[0]) && g[0] != '-' && g[0] != '+';
    assert g[..4] != "tag_" by { assert g[0] != 't'; }
  }

  /** A numeric group selects that dot-separated segment of the name, or stays as written past the last one. */
  lemma SegmentReplacement(series: Series, index: nat, t: Token, n: nat)
    requires t.group == Text.NatToString(n)
    ensures var segments := Text.Split(series.name, '.');
      Replacement(series, index, t) == if n < |segments| then segments[n] else t.matched
  {
    Text.ParseIntJsOfIntToString(n);
    var g := t.group;
    assert Text.IntToString(n) == g;
    assert Text.IsDigit(g[0]);
    assert g != "m" && g != "measurement" && g != "col";
  }

  /** `$1` gives the second dot-separated segment of the name, and stays as written past the last one. */
  lemma SegmentToken(series: Series, index: nat)
    ensures var segments := Text.Split(series.name, '.');
      ResolveAlias(series, "$1", index) == if 1 < |segments| then segments[1] else "$1"
  {
    DollarToken("$1", "1");
    WholeToken(series, "$1", index);
    OneDigit();
    SegmentReplacement(series, index, Token("1", "$1", 2), 1);
  }

  lemma OneDigit()
    ensures Text.NatToString(1) == "1"
  {
    assert Text.DigitChar(1) == '1';
  }
}
