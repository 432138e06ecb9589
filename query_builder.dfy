/**
 * The text builder of the visual editor: the SELECT list from the select
 * chains, the FROM target, the WHERE conditions, the GROUP BY section and
 * the trailing ORDER BY, LIMIT, OFFSET and tz clauses.
 */
module QueryBuilder {
  import opened Wrappers
  import opened Types
  import Text
  import Op = Operators

  // ---------------------------------------------------------------------
  // FROM

  /** A slash-delimited regular expression on one line: `/`, any characters but line terminators, `/`. */
  predicate IsRegexLiteral(s: string) {
    |s| >= 2 && s[0] == '/' && s[|s| - 1] == '/' && Text.NoLineTerminator(s[1..|s| - 1])
  }

  /** Strip one pair of surrounding double quotes, if there is one. */
  function UnquoteName(t: string): string {
    if |t| >= 2 && t[0] == '"' && t[|t| - 1] == '"' then t[1..|t| - 1] else t
  }

  /**
   * The measurement of the FROM target: a regular expression stays bare,
   * any other name is quoted, and a missing one is `"measurement"`.
   */
  function MeasurementText(m: string): (r: string)
    ensures m == "" ==> r == "\"measurement\""
    ensures m != "" ==> UnquoteName(r) == m
    ensures IsRegexLiteral(r) <==> m != "" && IsRegexLiteral(m)
  {
    if m != "" && !IsRegexLiteral(m) then "\"" + m + "\""
    else if m == "" then "\"measurement\""
    else m
  }

  /** The database of the FROM target: quoted, except the `$database` template variable. */
  function DatabaseText(db: Option<string>): (r: string)
    ensures db == Some("$database") ==> r == "$database"
    ensures db != Some("$database") ==> UnquoteName(r) == OptText(db) && |r| > 0 && r[0] == '"'
  {
    if db != Some("$database") then "\"" + OptText(db) + "\"" else "$database"
  }

  /** `database."rp".measurement`. */
  function FromText(q: Query): string {
    DatabaseText(q.database) + ".\"" + OptText(q.rp) + "\"." + MeasurementText(q.fromMeasurement)
  }

  // ---------------------------------------------------------------------
  // WHERE

  /** The operators whose value is written without quotes. */
  predicate IsRawOperator(op: string) {
    op == "=~" || op == "!~" || op == ">" || op == "<"
  }

  /** `s.replace(/c/g, rep)`: every occurrence of the character `c` replaced. */
  function ReplaceAllChar(s: string, c: char, rep: string): (r: string)
    ensures c !in s ==> r == s
  {
    if |s| == 0 then ""
    else (if s[0] == c then rep else [s[0]]) + ReplaceAllChar(s[1..], c, rep)
  }

  /** Backslashes doubled first, then single quotes escaped. */
  function EscapeValue(v: string): string {
    ReplaceAllChar(ReplaceAllChar(v, '\\', "\\\\"), '\'', "\\'")
  }

  /** Read an escaped literal back: a backslash takes the next character literally. */
  function UnescapeValue(t: string): string {
    if |t| == 0 then ""
    else if t[0] == '\\' && |t| >= 2 then [t[1]] + UnescapeValue(t[2..])
    else [t[0]] + UnescapeValue(t[1..])
  }

  lemma {:induction false} ReplaceAllCharAppend(a: string, b: string, c: char, rep: string)
    ensures ReplaceAllChar(a + b, c, rep) == ReplaceAllChar(a, c, rep) + ReplaceAllChar(b, c, rep)
  {
    if |a| == 0 {
      assert a + b == b;
    } else {
      assert (a + b)[1..] == a[1..] + b;
      ReplaceAllCharAppend(a[1..], b, c, rep);
    }
  }

  /** Escaping works character by character. */
  lemma EscapeCons(x: char, rest: string)
    ensures EscapeValue([x] + rest)
      == (if x == '\\' then "\\\\" else if x == '\'' then "\\'" else [x]) + EscapeValue(rest)
  {
    assert ([x] + rest)[1..] == rest;
    var once := ReplaceAllChar([x], '\\', "\\\\");
    assert ReplaceAllChar([x] + rest, '\\', "\\\\") == once + ReplaceAllChar(rest, '\\', "\\\\");
    ReplaceAllCharAppend(once, ReplaceAllChar(rest, '\\', "\\\\"), '\'', "\\'");
    if x == '\\' {
      assert once == "\\\\";
      assert ReplaceAllChar(once, '\'', "\\'") == "\\\\";
    } else if x == '\'' {
      assert once == "'";
      assert ReplaceAllChar(once, '\'', "\\'") == "\\'";
    } else {
      assert once == [x];
    }
  }

  /** Escaping loses nothing: the value can be read back from the quoted literal. */
  lemma {:induction false} UnescapeEscape(v: string)
    ensures UnescapeValue(EscapeValue(v)) == v
  {
    if |v| == 0 {
    } else {
      var x, rest := v[0], v[1..];
      assert v == [x] + rest;
      EscapeCons(x, rest);
      UnescapeEscape(rest);
      var t := EscapeValue(v);
      if x == '\\' {
        assert t[2..] == EscapeValue(rest);
      } else if x == '\'' {
        assert t[2..] == EscapeValue(rest);
      } else {
        assert t[1..] == EscapeValue(rest);
      }
    }
  }

  /** A missing operator is `=~` for a regular expression value and `=` otherwise. */
  function ConditionOperator(st: WhereStatement): (r: string)
    ensures st.operator != "" ==> r == st.operator
    ensures st.operator == "" ==> (r == "=~" <==> IsRegexLiteral(ParamText(st.value)))
    ensures st.operator == "" ==> r == "=~" || r == "="
  {
    if st.operator != "" then st.operator
    else if IsRegexLiteral(ParamText(st.value)) then "=~"
    else "="
  }

  /** The value as written after the operator: bare, or an escaped single-quoted literal. */
  function ConditionValue(op: string, v: string): (r: string)
    ensures IsRawOperator(op) ==> r == v
    ensures !IsRawOperator(op) ==>
      |r| >= 2 && r[0] == '\'' && r[|r| - 1] == '\'' && UnescapeValue(r[1..|r| - 1]) == v
  {
    UnescapeEscape(v);
    if IsRawOperator(op) then v
    else
      var r := "'" + EscapeValue(v) + "'";
      assert r[1..|r| - 1] == EscapeValue(v);
      r
  }

  /** `(connector || 'AND') + ' '` ahead of every condition but the first. */
  function ConnectorText(st: WhereStatement, index: nat): string {
    if index > 0 then (if st.connector != "" then st.connector else "AND") + " " else ""
  }

  /** `buildWhereCondition`: `connector "key" op value`. */
  function WhereCondition(st: WhereStatement, index: nat): string {
    ConnectorText(st, index) + Op.QuotedKey(st.key) + " " + ConditionOperator(st) + " "
    + ConditionValue(ConditionOperator(st), ParamText(st.value))
  }

  /**
   * The first condition starts with the quoted key; a later one with its
   * connector, `AND` when none is set, a space and the quoted key.
   */
  lemma WhereConditionStarts(st: WhereStatement, index: nat)
    ensures index == 0 ==> Text.StartsWith(WhereCondition(st, index), "\"")
    ensures index > 0 && st.connector != "" ==> Text.StartsWith(WhereCondition(st, index), st.connector + " \"")
    ensures index > 0 && st.connector == "" ==> Text.StartsWith(WhereCondition(st, index), "AND \"")
  {
    var op := ConditionOperator(st);
    var prefix := ConnectorText(st, index);
    var key := Op.QuotedKey(st.key);
    var value := ConditionValue(op, ParamText(st.value));
    assert key[0] == '"';
    QuotedAfterPrefix(prefix, key, op, value);
    if index == 0 {
      assert prefix == "";
      assert prefix + "\"" == "\"";
    }
  }

  lemma QuotedAfterPrefix(prefix: string, key: string, op: string, value: string)
    requires |key| > 0 && key[0] == '"'
    ensures Text.StartsWith(prefix + key + " " + op + " " + value, prefix + "\"")
  {
    assert (prefix + key + " " + op + " " + value)[..|prefix| + 1] == prefix + "\"";
  }

  /** The rendered conditions, in order. */
  function WhereTexts(ws: seq<WhereStatement>): (r: seq<string>)
    ensures |r| == |ws|
  {
    seq(|ws|, k requires 0 <= k < |ws| => WhereCondition(ws[k], k))
  }

  /** `(c0 c1 …) AND ` ahead of `$timeFilter`, or nothing without conditions. */
  function WhereClause(ws: seq<WhereStatement>): (r: string)
    ensures r == "" <==> |ws| == 0
    ensures |ws| > 0 ==> Text.StartsWith(r, "(") && Text.EndsWith(r, ") AND ")
  {
    if |ws| > 0 then
      var r := "(" + Text.Join(WhereTexts(ws), " ") + ") AND ";
      assert r[|r| - 6..] == ") AND ";
      r
    else ""
  }

  // ---------------------------------------------------------------------
  // SELECT

  /** A part that renders: its operator is registered, and a field part names a string. */
  predicate PartRenders(kind: string, params: seq<Param>) {
    Op.Lookup(kind).Some?
    && (Op.RendererOf(Op.Lookup(kind).value) == Op.FieldRenderer ==> |params| > 0 && params[0].PStr?)
  }

  /** Each part renders around the text of the parts before it. */
  function ChainText(parts: seq<SelectCondition>): (r: Result<string, Op.RenderError>)
    ensures r.Success? && |parts| > 0 ==> |r.value| > 0
    decreases |parts|
  {
    if |parts| == 0 then Success("")
    else
      var last := parts[|parts| - 1];
      var inner :- ChainText(parts[..|parts| - 1]);
      Op.RenderPart(last.kind, last.params, inner)
  }

  /** The chains' texts joined by `, `. */
  function SelectText(chains: seq<seq<SelectCondition>>): Result<string, Op.RenderError>
    decreases |chains|
  {
    if |chains| == 0 then Success("")
    else
      var pre :- SelectText(chains[..|chains| - 1]);
      var t :- ChainText(chains[|chains| - 1]);
      Success(if |chains| == 1 then t else pre + ", " + t)
  }

  /** Whether a part renders does not depend on the text it wraps. */
  lemma RenderPartSucceeds(kind: string, params: seq<Param>, text: string)
    ensures Op.RenderPart(kind, params, text).Success? <==> PartRenders(kind, params)
  {
  }

  predicate ChainRenders(parts: seq<SelectCondition>) {
    forall i | 0 <= i < |parts| :: PartRenders(parts[i].kind, parts[i].params)
  }

  lemma ChainRendersSnoc(parts: seq<SelectCondition>, init: seq<SelectCondition>)
    requires |parts| > 0 && init == parts[..|parts| - 1]
    ensures ChainRenders(parts) <==> ChainRenders(init) && PartRenders(parts[|parts| - 1].kind, parts[|parts| - 1].params)
  {
    assert forall i | 0 <= i < |init| :: init[i] == parts[i];
  }

  lemma ChainTextStep(parts: seq<SelectCondition>)
    requires |parts| > 0
    ensures ChainText(parts).Success?
      <==> ChainText(parts[..|parts| - 1]).Success? && PartRenders(parts[|parts| - 1].kind, parts[|parts| - 1].params)
  {
    var r := ChainText(parts[..|parts| - 1]);
    if r.Success? {
      RenderPartSucceeds(parts[|parts| - 1].kind, parts[|parts| - 1].params, r.value);
    }
  }

  /** A chain renders exactly when each of its parts does. */
  lemma {:induction false} ChainTextSucceeds(parts: seq<SelectCondition>)
    ensures ChainText(parts).Success? <==> ChainRenders(parts)
    decreases |parts|
  {
    if |parts| > 0 {
      var init := parts[..|parts| - 1];
      ChainTextSucceeds(init);
      ChainTextStep(parts);
      ChainRendersSnoc(parts, init);
    }
  }

  predicate ChainsRender(chains: seq<seq<SelectCondition>>) {
    forall i | 0 <= i < |chains| :: ChainRenders(chains[i])
  }

  lemma ChainsRenderSnoc(chains: seq<seq<SelectCondition>>, init: seq<seq<SelectCondition>>)
    requires |chains| > 0 && init == chains[..|chains| - 1]
    ensures ChainsRender(chains) <==> ChainsRender(init) && ChainRenders(chains[|chains| - 1])
  {
    assert forall i | 0 <= i < |init| :: init[i] == chains[i];
  }

  lemma SelectTextStep(chains: seq<seq<SelectCondition>>)
    requires |chains| > 0
    ensures SelectText(chains).Success?
      <==> SelectText(chains[..|chains| - 1]).Success? && ChainText(chains[|chains| - 1]).Success?
  {
  }

  /** The SELECT list renders exactly when every part of every chain does. */
  lemma {:induction false} SelectTextSucceeds(chains: seq<seq<SelectCondition>>)
    ensures SelectText(chains).Success? <==> ChainsRender(chains)
    decreases |chains|
  {
    if |chains| > 0 {
      var init := chains[..|chains| - 1];
      SelectTextSucceeds(init);
      ChainTextSucceeds(chains[|chains| - 1]);
      SelectTextStep(chains);
      ChainsRenderSnoc(chains, init);
    }
  }

  // ---------------------------------------------------------------------
  // GROUP BY and the trailing clauses

  /** The items rendered without inner text, `fill` after a space and the others after `, `. */
  function GroupbyText(g: seq<GroupbyCondition>): (r: Result<string, Op.RenderError>)
    ensures r.Success? ==> (r.value == "" <==> |g| == 0)
    decreases |g|
  {
    if |g| == 0 then Success("")
    else
      var last := g[|g| - 1];
      var pre :- GroupbyText(g[..|g| - 1]);
      var t :- Op.RenderPart(last.kind, last.params, "");
      Success(if |g| == 1 then t else pre + (if last.kind == "fill" then " " else ", ") + t)
  }

  lemma GroupbyTextStep(g: seq<GroupbyCondition>)
    requires |g| > 0
    ensures GroupbyText(g).Success?
      <==> GroupbyText(g[..|g| - 1]).Success? && PartRenders(g[|g| - 1].kind, g[|g| - 1].params)
  {
    RenderPartSucceeds(g[|g| - 1].kind, g[|g| - 1].params, "");
  }

  lemma AllItemsRenderSnoc(g: seq<GroupbyCondition>, init: seq<GroupbyCondition>)
    requires |g| > 0 && init == g[..|g| - 1]
    ensures (forall i | 0 <= i < |g| :: PartRenders(g[i].kind, g[i].params))
      <==> ((forall i | 0 <= i < |init| :: PartRenders(init[i].kind, init[i].params))
            && PartRenders(g[|g| - 1].kind, g[|g| - 1].params))
  {
    assert forall i | 0 <= i < |init| :: init[i] == g[i];
  }

  /** The GROUP BY section renders exactly when each item does. */
  lemma {:induction false} GroupbyTextSucceeds(g: seq<GroupbyCondition>)
    ensures GroupbyText(g).Success? <==> forall i | 0 <= i < |g| :: PartRenders(g[i].kind, g[i].params)
    decreases |g|
  {
    if |g| > 0 {
      var init, last := g[..|g| - 1], g[|g| - 1];
      GroupbyTextSucceeds(init);
      GroupbyTextStep(g);
      AllItemsRenderSnoc(g, init);
    }
  }

  /** ` GROUP BY …`, omitted when the section is empty. */
  function GroupbyClause(section: string): string {
    if |section| > 0 then " GROUP BY " + section else ""
  }

  /** ` ORDER BY time DESC` appended for a descending query. */
  function WithOrder(text: string, q: Query): string {
    if q.orderByTime == "DESC" then text + " ORDER BY time DESC" else text
  }

  /** ` LIMIT n` appended when a limit is set. */
  function WithLimit(text: string, q: Query): string {
    if q.limit != "" then text + " LIMIT " + q.limit else text
  }

  /** ` OFFSET n` appended when an offset is set. */
  function WithOffset(text: string, q: Query): string {
    if q.offset != "" then text + " OFFSET " + q.offset else text
  }

  /** ` tz('zone')` appended when a time zone is set. */
  function WithTz(text: string, q: Query): string {
    if q.tz != "" then text + " tz('" + q.tz + "')" else text
  }

  /** ORDER BY, LIMIT, OFFSET and tz, in that order, each only when set. */
  function WithTrailingClauses(text: string, q: Query): string {
    WithTz(WithOffset(WithLimit(WithOrder(text, q), q), q), q)
  }

  /**
   * `buildQuery`: a raw query is its own text; otherwise the text is
   * assembled from the editor state, and an unknown operator or a field
   * part without a string name makes the build fail.
   */
  function QueryText(q: Query): (r: Result<string, Op.RenderError>)
    ensures q.rawQuery ==> r == Success(q.queryText)
    ensures !q.rawQuery ==> (r.Success? <==>
      SelectText(q.selectConditions).Success? && GroupbyText(q.groupbyConditions).Success?)
  {
    if q.rawQuery then Success(q.queryText)
    else
      var sel :- SelectText(q.selectConditions);
      var section :- GroupbyText(q.groupbyConditions);
      Success(WithTrailingClauses(
        "SELECT " + sel + " FROM " + FromText(q) + " WHERE " + WhereClause(q.whereConditions)
        + "$timeFilter" + GroupbyClause(section), q))
  }

  // ---------------------------------------------------------------------
  // Failure propagation

  lemma {:induction false} ChainPrefixFails(parts: seq<SelectCondition>, k: nat)
    requires k <= |parts| && ChainText(parts[..k]).Failure?
    ensures ChainText(parts) == ChainText(parts[..k])
    decreases |parts|
  {
    if k < |parts| {
      var init := parts[..|parts| - 1];
      assert init[..k] == parts[..k];
      ChainPrefixFails(init, k);
    } else {
      assert parts[..k] == parts;
    }
  }

  lemma {:induction false} SelectPrefixFails(chains: seq<seq<SelectCondition>>, k: nat)
    requires k <= |chains| && SelectText(chains[..k]).Failure?
    ensures SelectText(chains).Failure? && SelectText(chains).error == SelectText(chains[..k]).error
    decreases |chains|
  {
    if k < |chains| {
      var init := chains[..|chains| - 1];
      assert init[..k] == chains[..k];
      SelectPrefixFails(init, k);
    } else {
      assert chains[..k] == chains;
    }
  }

  lemma {:induction false} GroupbyPrefixFails(g: seq<GroupbyCondition>, k: nat)
    requires k <= |g| && GroupbyText(g[..k]).Failure?
    ensures GroupbyText(g) == GroupbyText(g[..k])
    decreases |g|
  {
    if k < |g| {
      var init := g[..|g| - 1];
      assert init[..k] == g[..k];
      GroupbyPrefixFails(init, k);
    } else {
      assert g[..k] == g;
    }
  }

  // ---------------------------------------------------------------------
  // The builder

  /** `buildFromText`, rebinding the three names step by step. */
  method BuildFromText(q: Query) returns (r: string)
    ensures r == FromText(q)
  {
    var database := OptText(q.database);
    var measurement := q.fromMeasurement;
    if measurement != "" && !IsRegexLiteral(measurement) {
      measurement := "\"" + measurement + "\"";
    } else if measurement == "" {
      measurement := "\"measurement\"";
    }
    if q.database != Some("$database") {
      database := "\"" + database + "\"";
    }
    r := database + ".\"" + OptText(q.rp) + "\"." + measurement;
  }

  /** `buildWhereCondition`, rebinding operator, value and key step by step. */
  method BuildWhereCondition(st: WhereStatement, index: nat) returns (r: string)
    ensures r == WhereCondition(st, index)
  {
    var prefix := "";
    var operator := st.operator;
    var value := ParamText(st.value);
    if index > 0 {
      prefix := prefix + (if st.connector != "" then st.connector else "AND") + " ";
    }
    assert prefix == ConnectorText(st, index);
    if operator == "" {
      operator := if IsRegexLiteral(value) then "=~" else "=";
    }
    assert operator == ConditionOperator(st);
    if !IsRawOperator(operator) {
      value := "'" + ReplaceAllChar(ReplaceAllChar(value, '\\', "\\\\"), '\'', "\\'") + "'";
    }
    assert value == ConditionValue(operator, ParamText(st.value));
    var key := "\"" + st.key + "\"";
    if Text.EndsWith(st.key, "::tag") {
      key := "\"" + st.key[..|st.key| - 5] + "\"::tag";
    }
    if Text.EndsWith(st.key, "::field") {
      key := "\"" + st.key[..|st.key| - 7] + "\"::field";
    }
    assert key == Op.QuotedKey(st.key) by {
      if Text.EndsWith(st.key, "::field") {
        assert st.key[|st.key| - 1] == 'd';
      }
    }
    r := prefix + key + " " + operator + " " + value;
  }

  /** The `map` over the WHERE statements in `buildQuery`. */
  method BuildWhereConditions(ws: seq<WhereStatement>) returns (conditions: seq<string>)
    ensures conditions == WhereTexts(ws)
  {
    conditions := [];
    var i := 0;
    while i < |ws|
      invariant 0 <= i <= |ws|
      invariant |conditions| == i
      invariant forall k | 0 <= k < i :: conditions[k] == WhereCondition(ws[k], k)
    {
      var c := BuildWhereCondition(ws[i], i);
      conditions := conditions + [c];
      i := i + 1;
    }
  }

  /** The WHERE step of `buildQuery`: the parenthesised conditions and ` AND `, when there are any. */
  method AppendWhereClause(text: string, ws: seq<WhereStatement>) returns (r: string)
    ensures r == text + WhereClause(ws)
  {
    var conditions := BuildWhereConditions(ws);
    r := text;
    if |conditions| > 0 {
      r := r + ("(" + Text.Join(conditions, " ") + ") AND ");
    } else {
      assert r + "" == r;
    }
  }

  /** The inner loop of `buildQuery`: fold the parts of one chain through their renderers. */
  method RenderChain(parts: seq<SelectCondition>) returns (r: Result<string, Op.RenderError>)
    ensures r == ChainText(parts)
  {
    var text := "";
    var j := 0;
    while j < |parts|
      invariant 0 <= j <= |parts|
      invariant ChainText(parts[..j]) == Success(text)
    {
      var part := parts[j];
      assert parts[..j + 1][..j] == parts[..j];
      var rendered := Op.RenderPart(part.kind, part.params, text);
      if rendered.Failure? {
        ChainPrefixFails(parts, j + 1);
        return Failure(rendered.error);
      }
      text := rendered.value;
      j := j + 1;
    }
    assert parts[..j] == parts;
    return Success(text);
  }

  /** The SELECT loop of `buildQuery`: the chains' texts, `, ` between them. */
  method RenderSelect(chains: seq<seq<SelectCondition>>) returns (r: Result<string, Op.RenderError>)
    ensures r == SelectText(chains)
  {
    var text := "";
    var i := 0;
    while i < |chains|
      invariant 0 <= i <= |chains|
      invariant SelectText(chains[..i]) == Success(text)
    {
      assert chains[..i + 1][..i] == chains[..i] && chains[..i + 1][i] == chains[i];
      var chainText := RenderChain(chains[i]);
      if chainText.Failure? {
        SelectPrefixFails(chains, i + 1);
        return Failure(chainText.error);
      }
      ghost var expected := if i == 0 then chainText.value else text + ", " + chainText.value;
      assert SelectText(chains[..i + 1]) == Success(expected);
      if i > 0 {
        text := text + ", ";
      } else {
        assert text == "";
      }
      text := text + chainText.value;
      assert text == expected;
      i := i + 1;
    }
    assert chains[..i] == chains;
    return Success(text);
  }

  /** The GROUP BY loop of `buildQuery`: `fill` follows a space, any other item `, `. */
  method RenderGroupby(g: seq<GroupbyCondition>) returns (r: Result<string, Op.RenderError>)
    ensures r == GroupbyText(g)
  {
    var section := "";
    var k := 0;
    while k < |g|
      invariant 0 <= k <= |g|
      invariant GroupbyText(g[..k]) == Success(section)
    {
      var part := g[k];
      assert g[..k + 1][..k] == g[..k] && g[..k + 1][k] == part;
      var rendered := Op.RenderPart(part.kind, part.params, "");
      if rendered.Failure? {
        GroupbyPrefixFails(g, k + 1);
        return Failure(rendered.error);
      }
      ghost var expected :=
        if k == 0 then rendered.value else section + (if part.kind == "fill" then " " else ", ") + rendered.value;
      assert GroupbyText(g[..k + 1]) == Success(expected);
      if k > 0 {
        section := section + (if part.kind == "fill" then " " else ", ");
      } else {
        assert section == "";
      }
      section := section + rendered.value;
      assert section == expected;
      k := k + 1;
    }
    assert g[..k] == g;
    return Success(section);
  }

  /** The ORDER BY, LIMIT, OFFSET and tz steps of `buildQuery`. */
  method AppendTrailingClauses(text: string, q: Query) returns (r: string)
    ensures r == WithTrailingClauses(text, q)
  {
    r := text;
    if q.orderByTime == "DESC" {
      r := r + " ORDER BY time DESC";
    }
    assert r == WithOrder(text, q);
    if q.limit != "" {
      r := r + " LIMIT " + q.limit;
    }
    assert r == WithLimit(WithOrder(text, q), q);
    if q.offset != "" {
      r := r + " OFFSET " + q.offset;
    }
    assert r == WithOffset(WithLimit(WithOrder(text, q), q), q);
    if q.tz != "" {
      r := r + " tz('" + q.tz + "')";
    }
  }

  /** `buildQuery`: it computes exactly `QueryText`. */
  method BuildQuery(q: Query) returns (r: Result<string, Op.RenderError>)
    ensures r == QueryText(q)
  {
    if q.rawQuery {
      return Success(q.queryText);
    }
    var select := RenderSelect(q.selectConditions);
    if select.Failure? {
      return Failure(select.error);
    }
    var text := "SELECT " + select.value;
    var from := BuildFromText(q);
    text := text + " FROM " + from + " WHERE ";
    text := AppendWhereClause(text, q.whereConditions);
    text := text + "$timeFilter";
    ghost var filtered := text;
    var section := RenderGroupby(q.groupbyConditions);
    if section.Failure? {
      return Failure(section.error);
    }
    if |section.value| > 0 {
      text := text + " GROUP BY " + section.value;
    }
    assert text == filtered + GroupbyClause(section.value);
    text := AppendTrailingClauses(text, q);
    return Success(text);
  }

  // ---------------------------------------------------------------------
  // The builder on the repository's own test inputs

  /** The query the builder tests start from. */
  function SampleQuery(): Query {
    Query(
      "A", "", false, None, "", Some("monitor"), Some("autogen"), "h2o_pH",
      [WhereStatement("location::tag", "=", PStr("coyote_creek"), "AND")],
      [[SelectCondition("field", Fields, [PStr("value")]), SelectCondition("mean", Aggregations, [])]],
      [GroupbyCondition("time", [PStr("$__interval")]), GroupbyCondition("fill", [PStr("null")])],
      "", "", "", "")
  }

  /** A value without backslashes or single quotes is quoted unchanged. */
  lemma EscapePlain(v: string)
    requires '\\' !in v && '\'' !in v
    ensures EscapeValue(v) == v
  {
  }

  lemma QuotedTagKey(name: string)
    ensures Op.QuotedKey(name + "::tag") == "\"" + name + "\"::tag"
  {
    var key := name + "::tag";
    assert key[|key| - 1] == 'g';
    assert key[|key| - 5..] == "::tag";
    assert key[..|key| - 5] == name;
  }

  lemma QuotedFieldKey(name: string)
    ensures Op.QuotedKey(name + "::field") == "\"" + name + "\"::field"
  {
    var key := name + "::field";
    assert key[|key| - 7..] == "::field";
    assert key[..|key| - 7] == name;
  }

  /** An `=` condition on a plain value: the quoted key, `=`, the value in single quotes. */
  lemma EqualsCondition(st: WhereStatement, index: nat, v: string)
    requires st.operator == "=" && st.value == PStr(v) && '\\' !in v && '\'' !in v
    ensures WhereCondition(st, index) == ConnectorText(st, index) + Op.QuotedKey(st.key) + " = '" + v + "'"
  {
    EscapePlain(v);
    assert ConditionOperator(st) == "=";
    assert ConditionValue("=", v) == "'" + v + "'";
    EqualsTail(ConnectorText(st, index) + Op.QuotedKey(st.key), v);
  }

  lemma EqualsTail(head: string, v: string)
    ensures head + " " + "=" + " " + ("'" + v + "'") == head + " = '" + v + "'"
  {
  }

  /** `["location::tag", "=", "coyote_creek", "AND"]` at index 0, from the builder tests. */
  lemma SampleWhereCondition()
    ensures WhereCondition(WhereStatement("location::tag", "=", PStr("coyote_creek"), "AND"), 0)
      == "\"location\"::tag = 'coyote_creek'"
  {
    var st := WhereStatement("location::tag", "=", PStr("coyote_creek"), "AND");
    SampleTagKey();
    assert ConnectorText(st, 0) == "";
    EqualsCondition(st, 0, "coyote_creek");
    SampleWhereText(ConnectorText(st, 0), Op.QuotedKey(st.key));
  }

  lemma SampleTagKey()
    ensures Op.QuotedKey("location::tag") == "\"location\"::tag"
  {
    assert "location::tag" == "location" + "::tag";
    QuotedTagKey("location");
    assert "\"" + "location" + "\"::tag" == "\"location\"::tag";
  }

  lemma SampleWhereText(connector: string, key: string)
    requires connector == "" && key == "\"location\"::tag"
    ensures connector + key + " = '" + "coyote_creek" + "'" == "\"location\"::tag = 'coyote_creek'"
  {
  }

  /** `["pH::field", "=", "7.4", "AND"]` at index 1, from the builder tests. */
  lemma SecondWhereCondition()
    ensures WhereCondition(WhereStatement("pH::field", "=", PStr("7.4"), "AND"), 1)
      == "AND \"pH\"::field = '7.4'"
  {
    var st := WhereStatement("pH::field", "=", PStr("7.4"), "AND");
    assert "pH::field" == "pH" + "::field";
    QuotedFieldKey("pH");
    assert "\"" + "pH" + "\"::field" == "\"pH\"::field";
    assert Op.QuotedKey(st.key) == "\"pH\"::field";
    assert ConnectorText(st, 1) == "AND ";
    EqualsCondition(st, 1, "7.4");
    SecondWhereText(ConnectorText(st, 1), Op.QuotedKey(st.key));
  }

  lemma SecondWhereText(connector: string, key: string)
    requires connector == "AND " && key == "\"pH\"::field"
    ensures connector + key + " = '" + "7.4" + "'" == "AND \"pH\"::field = '7.4'"
  {
  }

  lemma RenderValueField()
    ensures Op.RenderPart("field", [PStr("value")], "") == Success("\"value\"")
  {
    assert !Text.EndsWith("value", "::tag") by {
      assert "value"[5 - 5..] != "::tag";
    }
    assert Op.QuotedKey("value") == "\"value\"";
  }

  lemma RenderMean(inner: string)
    requires inner != ""
    ensures Op.RenderPart("mean", [], inner) == Success("mean(" + inner + ")")
  {
    Op.LookupTypeName(Op.Mean);
    Op.FunctionTextNests("mean", [], inner);
    assert "mean" + "(" + inner + ")" == "mean(" + inner + ")";
  }

  lemma FunctionOfOne(kind: string, v: string)
    ensures Op.FunctionText(kind, [PStr(v)], "") == kind + "(" + v + ")"
  {
    Op.FunctionTextNests(kind, [PStr(v)], "");
    assert seq(1, i requires 0 <= i < 1 => ParamText([PStr(v)][i])) == [v];
  }

  lemma RenderTime(v: string)
    ensures Op.RenderPart("time", [PStr(v)], "") == Success("time(" + v + ")")
  {
    Op.LookupTypeName(Op.Time);
    FunctionOfOne("time", v);
    assert "time" + "(" + v + ")" == "time(" + v + ")";
  }

  lemma RenderFill(v: string)
    ensures Op.RenderPart("fill", [PStr(v)], "") == Success("fill(" + v + ")")
  {
    Op.LookupTypeName(Op.Fill);
    FunctionOfOne("fill", v);
    assert "fill" + "(" + v + ")" == "fill(" + v + ")";
  }

  lemma SampleSelect()
    ensures SelectText(SampleQuery().selectConditions) == Success("mean(\"value\")")
  {
    var field := SelectCondition("field", Fields, [PStr("value")]);
    var mean := SelectCondition("mean", Aggregations, []);
    MeanOfValue(field, mean);
    OneChain([field, mean], "mean(\"value\")");
  }

  lemma ValueChain(field: SelectCondition)
    requires field == SelectCondition("field", Fields, [PStr("value")])
    ensures ChainText([field]) == Success("\"value\"")
  {
    RenderValueField();
    ChainTextSnoc([], field);
    assert [] + [field] == [field];
  }

  lemma MeanOfValue(field: SelectCondition, mean: SelectCondition)
    requires field == SelectCondition("field", Fields, [PStr("value")])
    requires mean == SelectCondition("mean", Aggregations, [])
    ensures ChainText([field, mean]) == Success("mean(\"value\")")
  {
    ValueChain(field);
    RenderMean("\"value\"");
    ChainTextSnoc([field], mean);
    MeanValueText();
    assert [field] + [mean] == [field, mean];
  }

  lemma MeanValueText()
    ensures "mean(" + "\"value\"" + ")" == "mean(\"value\")"
  {
  }

  lemma OneChain(c: seq<SelectCondition>, t: string)
    requires ChainText(c) == Success(t)
    ensures SelectText([c]) == Success(t)
  {
    assert [c][..0] == [];
  }

  lemma SampleGroupby()
    ensures GroupbyText(SampleQuery().groupbyConditions) == Success("time($__interval) fill(null)")
  {
    var g := SampleQuery().groupbyConditions;
    RenderTime("$__interval");
    RenderFill("null");
    GroupbyLiterals();
    assert g[..1] == [g[0]];
    assert [g[0]][..0] == [];
    assert GroupbyText([g[0]]) == Success("time($__interval)");
    assert g[..|g| - 1] == [g[0]];
  }

  lemma GroupbyLiterals()
    ensures "time(" + "$__interval" + ")" == "time($__interval)"
    ensures "fill(" + "null" + ")" == "fill(null)"
    ensures "time($__interval)" + " " + "fill(null)" == "time($__interval) fill(null)"
  {
  }

  lemma SampleFrom()
    ensures FromText(SampleQuery()) == "\"monitor\".\"autogen\".\"h2o_pH\""
  {
    var q := SampleQuery();
    assert DatabaseText(q.database) == "\"monitor\"";
    assert !IsRegexLiteral("h2o_pH");
    assert MeasurementText(q.fromMeasurement) == "\"h2o_pH\"";
    SampleFromPieces(DatabaseText(q.database), OptText(q.rp), MeasurementText(q.fromMeasurement));
  }

  lemma SampleFromPieces(db: string, rp: string, m: string)
    requires db == "\"monitor\"" && rp == "autogen" && m == "\"h2o_pH\""
    ensures db + ".\"" + rp + "\"." + m == "\"monitor\".\"autogen\".\"h2o_pH\""
  {
  }

  lemma SampleWhereClause()
    ensures WhereClause(SampleQuery().whereConditions) == "(" + "\"location\"::tag = 'coyote_creek'" + ") AND "
  {
    SampleWhereCondition();
    OneWhereCondition(SampleQuery().whereConditions, "\"location\"::tag = 'coyote_creek'");
  }

  /** A single condition is parenthesised on its own. */
  lemma OneWhereCondition(ws: seq<WhereStatement>, c: string)
    requires |ws| == 1 && WhereCondition(ws[0], 0) == c
    ensures WhereClause(ws) == "(" + c + ") AND "
  {
    assert WhereTexts(ws) == [c];
    Text.JoinSingleton(c, " ");
  }

  /** The text `buildQuery1` expects, clause by clause. */
  function SampleExpected(): string {
    "SELECT " + "mean(\"value\")"
    + " FROM " + "\"monitor\".\"autogen\".\"h2o_pH\""
    + " WHERE " + "(" + "\"location\"::tag = 'coyote_creek'" + ") AND " + "$timeFilter"
    + " GROUP BY " + "time($__interval) fill(null)"
  }

  /**
   * `buildQuery1` in the repository's tests, clause by clause:
   * `SELECT mean("value") FROM "monitor"."autogen"."h2o_pH" WHERE
   * ("location"::tag = 'coyote_creek') AND $timeFilter GROUP BY
   * time($__interval) fill(null)`.
   */
  lemma SampleQueryText()
    ensures QueryText(SampleQuery()) == Success(SampleExpected())
  {
    var q := SampleQuery();
    SampleSelect();
    SampleGroupby();
    SampleFrom();
    SampleWhereClause();
    var head := "SELECT " + "mean(\"value\")" + " FROM " + FromText(q) + " WHERE " + WhereClause(q.whereConditions)
      + "$timeFilter" + GroupbyClause("time($__interval) fill(null)");
    assert WithTrailingClauses(head, q) == head;
    assert QueryText(q) == Success(WithTrailingClauses(head, q));
    assert GroupbyClause("time($__interval) fill(null)") == " GROUP BY " + "time($__interval) fill(null)";
    SampleAssemble(FromText(q), WhereClause(q.whereConditions), GroupbyClause("time($__interval) fill(null)"));
  }

  lemma SampleAssemble(from: string, where: string, groupby: string)
    requires from == "\"monitor\".\"autogen\".\"h2o_pH\""
    requires where == "(" + "\"location\"::tag = 'coyote_creek'" + ") AND "
    requires groupby == " GROUP BY " + "time($__interval) fill(null)"
    ensures "SELECT " + "mean(\"value\")" + " FROM " + from + " WHERE " + where + "$timeFilter" + groupby
      == "SELECT " + "mean(\"value\")"
      + " FROM " + "\"monitor\".\"autogen\".\"h2o_pH\""
      + " WHERE " + "(" + "\"location\"::tag = 'coyote_creek'" + ") AND " + "$timeFilter"
      + " GROUP BY " + "time($__interval) fill(null)"
  {
  }

  /** Appending a part renders it around the text of the chain so far. */
  lemma ChainTextSnoc(parts: seq<SelectCondition>, x: SelectCondition)
    ensures ChainText(parts + [x])
      == (if ChainText(parts).Failure? then ChainText(parts)
          else Op.RenderPart(x.kind, x.params, ChainText(parts).value))
  {
    assert (parts + [x])[..|parts|] == parts;
  }

  /** An aggregation or transformation without parameters wraps the text so far. */
  lemma RenderWrap(kind: string, inner: string)
    requires inner != ""
    requires Op.Lookup(kind).Some? && Op.RendererOf(Op.Lookup(kind).value) == Op.FunctionRenderer
    ensures Op.RenderPart(kind, [], inner) == Success(kind + "(" + inner + ")")
  {
    Op.FunctionTextNests(kind, [], inner);
  }

  /** A chain `field, distinct, count, spread, math("/ 100")` on the field `v`. */
  function SpreadChain(v: string): seq<SelectCondition> {
    [ SelectCondition("field", Fields, [PStr(v)]),
      SelectCondition("distinct", Aggregations, []),
      SelectCondition("count", Aggregations, []),
      SelectCondition("spread", Transformations, []),
      SelectCondition("math", Math, [PStr("/ 100")]) ]
  }

  /** The parts nest in chain order, and the math suffix goes last. */
  lemma SpreadChainText(v: string)
    ensures ChainText(SpreadChain(v)) == Success("spread(count(distinct(" + Op.FieldText(v) + "))) / 100")
  {
    var f := Op.FieldText(v);
    var t1 := "distinct" + "(" + f + ")";
    var t2 := "count" + "(" + t1 + ")";
    var t3 := "spread" + "(" + t2 + ")";
    SpreadFour(v);
    MathStep(SpreadChain(v)[..4], t3, "/ 100");
    assert SpreadChain(v) == SpreadChain(v)[..4] + [SelectCondition("math", Math, [PStr("/ 100")])];
    SpreadText(f, t1, t2, t3);
  }

  /** The first four parts: `spread` wraps the first three. */
  lemma SpreadFour(v: string)
    ensures ChainText(SpreadChain(v)[..4])
      == Success("spread" + "(" + ("count" + "(" + ("distinct" + "(" + Op.FieldText(v) + ")") + ")") + ")")
  {
    var spread := SelectCondition("spread", Transformations, []);
    SpreadHead(v);
    Op.LookupTypeName(Op.Spread);
    WrapStep(SpreadChain(v)[..3], spread, "count" + "(" + ("distinct" + "(" + Op.FieldText(v) + ")") + ")");
    assert SpreadChain(v)[..4] == SpreadChain(v)[..3] + [spread];
  }

  /** A `math` part appends its expression after a space. */
  lemma MathStep(parts: seq<SelectCondition>, inner: string, e: string)
    requires ChainText(parts) == Success(inner)
    ensures ChainText(parts + [SelectCondition("math", Math, [PStr(e)])]) == Success(inner + " " + e)
  {
    Op.LookupTypeName(Op.MathOp);
    ChainTextSnoc(parts, SelectCondition("math", Math, [PStr(e)]));
  }

  /** The first three parts: the field, then `distinct`, then `count`. */
  lemma SpreadHead(v: string)
    ensures ChainText(SpreadChain(v)[..3]) == Success("count" + "(" + ("distinct" + "(" + Op.FieldText(v) + ")") + ")")
  {
    var field := [SelectCondition("field", Fields, [PStr(v)])];
    var distinct := SelectCondition("distinct", Aggregations, []);
    var count := SelectCondition("count", Aggregations, []);
    FieldPart(v);
    Op.LookupTypeName(Op.Distinct);
    WrapStep(field, distinct, Op.FieldText(v));
    Op.LookupTypeName(Op.Count);
    WrapStep(field + [distinct], count, "distinct" + "(" + Op.FieldText(v) + ")");
    assert SpreadChain(v)[..3] == field + [distinct] + [count];
  }

  /** A chain of one field part renders as the field. */
  lemma FieldPart(v: string)
    ensures ChainText([SelectCondition("field", Fields, [PStr(v)])]) == Success(Op.FieldText(v))
  {
    var x := SelectCondition("field", Fields, [PStr(v)]);
    Op.LookupTypeName(Op.Field);
    ChainTextSnoc([], x);
    assert [] + [x] == [x];
  }

  /** One more parameterless aggregation or transformation wraps the chain's text. */
  lemma WrapStep(parts: seq<SelectCondition>, x: SelectCondition, inner: string)
    requires ChainText(parts) == Success(inner) && inner != "" && x.params == []
    requires Op.Lookup(x.kind).Some? && Op.RendererOf(Op.Lookup(x.kind).value) == Op.FunctionRenderer
    ensures ChainText(parts + [x]) == Success(x.kind + "(" + inner + ")")
  {
    ChainTextSnoc(parts, x);
    RenderWrap(x.kind, inner);
  }

  lemma SpreadText(f: string, t1: string, t2: string, t3: string)
    requires t1 == "distinct" + "(" + f + ")" && t2 == "count" + "(" + t1 + ")" && t3 == "spread" + "(" + t2 + ")"
    ensures t3 + " " + "/ 100" == "spread(count(distinct(" + f + "))) / 100"
  {
  }

  /** Two chains are listed with `, ` between them. */
  lemma SelectTwo(c1: seq<SelectCondition>, c2: seq<SelectCondition>, t1: string, t2: string)
    requires ChainText(c1) == Success(t1) && ChainText(c2) == Success(t2)
    ensures SelectText([c1, c2]) == Success(t1 + ", " + t2)
  {
    var chains := [c1, c2];
    assert chains[..1] == [c1] && chains[..1][..0] == [];
    assert SelectText(chains[..1]) == Success(t1);
    assert chains[..|chains| - 1] == chains[..1] && chains[|chains| - 1] == c2;
  }

  lemma FieldTextPlain(v: string)
    requires v != "*" && !Text.EndsWith(v, "::tag") && !Text.EndsWith(v, "::field")
    ensures Op.FieldText(v) == "\"" + v + "\""
  {
  }

  lemma SpreadSelect()
    ensures SelectText([SpreadChain("value"), SpreadChain("value2")])
      == Success("spread(count(distinct(" + Op.FieldText("value") + "))) / 100" + ", "
                 + ("spread(count(distinct(" + Op.FieldText("value2") + "))) / 100"))
  {
    SpreadChainText("value");
    SpreadChainText("value2");
    SelectTwo(SpreadChain("value"), SpreadChain("value2"),
      "spread(count(distinct(" + Op.FieldText("value") + "))) / 100",
      "spread(count(distinct(" + Op.FieldText("value2") + "))) / 100");
  }

  /** `build much select` in the repository's tests: two chains, no conditions, no grouping. */
  lemma SpreadQueryText()
    ensures QueryText(SampleQuery().(whereConditions := [], groupbyConditions := [],
                                     selectConditions := [SpreadChain("value"), SpreadChain("value2")]))
      == Success("SELECT " + "spread(count(distinct(\"value\"))) / 100" + ", " + "spread(count(distinct(\"value2\"))) / 100"
                 + " FROM " + "\"monitor\".\"autogen\".\"h2o_pH\"" + " WHERE " + "$timeFilter")
  {
    var q := SampleQuery().(whereConditions := [], groupbyConditions := [],
                            selectConditions := [SpreadChain("value"), SpreadChain("value2")]);
    var f1, f2 := Op.FieldText("value"), Op.FieldText("value2");
    SpreadFieldNames();
    SpreadSelect();
    var sel := "spread(count(distinct(" + f1 + "))) / 100" + ", " + ("spread(count(distinct(" + f2 + "))) / 100");
    assert FromText(q) == FromText(SampleQuery());
    SampleFrom();
    PlainQueryText(q, sel);
    SpreadTexts(f1, f2);
    SpreadAssemble("spread(count(distinct(" + f1 + "))) / 100", "spread(count(distinct(" + f2 + "))) / 100", FromText(q));
  }

  lemma SpreadTexts(f1: string, f2: string)
    requires f1 == "\"value\"" && f2 == "\"value2\""
    ensures "spread(count(distinct(" + f1 + "))) / 100" == "spread(count(distinct(\"value\"))) / 100"
    ensures "spread(count(distinct(" + f2 + "))) / 100" == "spread(count(distinct(\"value2\"))) / 100"
  {
  }

  lemma SpreadFieldNames()
    ensures Op.FieldText("value") == "\"value\"" && Op.FieldText("value2") == "\"value2\""
  {
    PlainFieldName("value");
    PlainFieldName("value2");
  }

  /** A name ending in neither `g` nor `d` has no `::tag` or `::field` suffix, so it is simply quoted. */
  lemma PlainFieldName(v: string)
    requires |v| > 1 && v[|v| - 1] != 'g' && v[|v| - 1] != 'd'
    ensures Op.FieldText(v) == "\"" + v + "\""
  {
    assert v != "*";
    assert !Text.EndsWith(v, "::tag") by {
      if |v| >= 5 { assert v[|v| - 5..][4] == v[|v| - 1]; }
    }
    assert !Text.EndsWith(v, "::field") by {
      if |v| >= 7 { assert v[|v| - 7..][6] == v[|v| - 1]; }
    }
    FieldTextPlain(v);
  }

  /** A query with no conditions, no grouping and no trailing clauses is the select list and the target. */
  lemma PlainQueryText(q: Query, sel: string)
    requires !q.rawQuery && SelectText(q.selectConditions) == Success(sel)
    requires q.whereConditions == [] && q.groupbyConditions == []
    requires q.orderByTime == "" && q.limit == "" && q.offset == "" && q.tz == ""
    ensures QueryText(q) == Success("SELECT " + sel + " FROM " + FromText(q) + " WHERE " + "" + "$timeFilter" + "")
  {
    assert GroupbyText([]) == Success("");
    assert WhereClause([]) == "" && GroupbyClause("") == "";
  }

  lemma SpreadAssemble(a: string, b: string, from: string)
    ensures "SELECT " + (a + ", " + b) + " FROM " + from + " WHERE " + "" + "$timeFilter" + ""
      == "SELECT " + a + ", " + b + " FROM " + from + " WHERE " + "$timeFilter"
  {
  }

  /** The query without its ORDER BY, LIMIT, OFFSET and tz settings. */
  function Untrailed(q: Query): Query {
    q.(orderByTime := "", limit := "", offset := "", tz := "")
  }

  lemma TrailingAppends(head: string, q: Query)
    ensures WithTrailingClauses(head, q) == head + WithTrailingClauses("", q)
  {
    var o := WithOrder("", q);
    var l := WithLimit(o, q);
    var f := WithOffset(l, q);
    OrderAppends(head, q);
    LimitAppends(head, o, q);
    OffsetAppends(head, l, q);
    TzAppends(head, f, q);
  }

  lemma OrderAppends(head: string, q: Query)
    ensures WithOrder(head, q) == head + WithOrder("", q)
  {
    assert head + "" == head;
  }

  lemma LimitAppends(head: string, t: string, q: Query)
    ensures WithLimit(head + t, q) == head + WithLimit(t, q)
  {
  }

  lemma OffsetAppends(head: string, t: string, q: Query)
    ensures WithOffset(head + t, q) == head + WithOffset(t, q)
  {
  }

  lemma TzAppends(head: string, t: string, q: Query)
    ensures WithTz(head + t, q) == head + WithTz(t, q)
  {
  }

  /**
   * ORDER BY, LIMIT, OFFSET and tz only append: the text of a query is the
   * text of the same query without them, followed by the clauses that are set.
   */
  lemma TrailingClausesOnlyAppend(q: Query)
    requires !q.rawQuery
    ensures QueryText(q).Success? <==> QueryText(Untrailed(q)).Success?
    ensures QueryText(q).Success? ==> QueryText(q).value == QueryText(Untrailed(q)).value + WithTrailingClauses("", q)
  {
    var u := Untrailed(q);
    assert FromText(u) == FromText(q);
    if QueryText(q).Success? {
      var head := "SELECT " + SelectText(q.selectConditions).value + " FROM " + FromText(q) + " WHERE "
        + WhereClause(q.whereConditions) + "$timeFilter" + GroupbyClause(GroupbyText(q.groupbyConditions).value);
      TrailingAppends(head, q);
      assert WithTrailingClauses(head, u) == head;
    }
  }

  /** `buildQuery2` in the repository's tests: the first query with tz, limit and a descending order. */
  lemma SampleQueryTextDescending()
    ensures QueryText(SampleQuery().(tz := "Asia/Shanghai", limit := "10", orderByTime := "DESC"))
      == Success(SampleExpected() + " ORDER BY time DESC" + " LIMIT 10" + " tz('Asia/Shanghai')")
  {
    var q := SampleQuery().(tz := "Asia/Shanghai", limit := "10", orderByTime := "DESC");
    SampleQueryText();
    assert Untrailed(q) == SampleQuery();
    TrailingClausesOnlyAppend(q);
    DescendingSuffix(WithTrailingClauses("", q), q);
    AppendThree(SampleExpected(), " ORDER BY time DESC", " LIMIT 10", " tz('Asia/Shanghai')");
  }

  lemma AppendThree(s: string, a: string, b: string, c: string)
    ensures s + (a + b + c) == s + a + b + c
  {
  }

  lemma DescendingSuffix(t: string, q: Query)
    requires q.orderByTime == "DESC" && q.limit == "10" && q.offset == "" && q.tz == "Asia/Shanghai"
    requires t == WithTrailingClauses("", q)
    ensures t == " ORDER BY time DESC" + " LIMIT 10" + " tz('Asia/Shanghai')"
  {
  }
}
