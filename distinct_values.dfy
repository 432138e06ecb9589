/**
 * `responseParse`: the distinct values of a metadata query's response, in
 * the order they first appear, with the default retention policy moved to
 * the front.
 */
module DistinctValues {
  import opened Wrappers
  import opened Wire
  import Text
  import ResponseMapper

  /** `{ text: v }`. */
  datatype MetricFindValue = MetricFindValue(text: string)

  /** `toString` of a missing or `null` cell throws a `TypeError`. */
  datatype ParseError = NoCellText

  /** `cell.toString()`; `None` where it throws. */
  function CellString(c: Option<Cell>): (r: Option<string>)
    ensures r.None? <==> c.None? || c == Some(Null)
  {
    match c
    case None => None
    case Some(Null) => None
    case Some(Str(s)) => Some(s)
    case Some(Num(n)) => Some(Text.IntToString(n))
    case Some(Bool(b)) => Some(if b then "true" else "false")
  }

  predicate IsRetentionPolicyQuery(query: string) {
    Text.Contains(Text.Lower(query), "show retention policies")
  }

  /** Field-key and retention-policy listings read the first cell of each row. */
  predicate IsValueFirst(query: string) {
    Text.Contains(Text.Lower(query), "show field keys") || IsRetentionPolicyQuery(query)
  }

  /** The cell a row contributes: the first for value-first queries, else the second when present. */
  function SelectedCell(row: seq<Cell>, valueFirst: bool): (r: Option<Cell>)
    ensures valueFirst ==> r == CellAt(row, 0)
    ensures !valueFirst && |row| > 1 ==> r == Some(row[1])
    ensures !valueFirst && |row| <= 1 ==> r == CellAt(row, 0)
  {
    if valueFirst then CellAt(row, 0)
    else if CellAt(row, 1).Some? then CellAt(row, 1)
    else CellAt(row, 0)
  }

  /** In a retention-policy listing, a row whose last cell is `true` names the default policy. */
  predicate Promotes(row: seq<Cell>, rpQuery: bool) {
    rpQuery && |row| > 0 && row[|row| - 1] == Bool(true)
  }

  predicate Distinct(xs: seq<string>) {
    forall i, j | 0 <= i < j < |xs| :: xs[i] != xs[j]
  }

  /** `set.add(v)` on an insertion-ordered set. */
  function Add(res: seq<string>, v: string): (r: seq<string>)
    ensures Distinct(res) ==> Distinct(r)
    ensures forall x :: x in r <==> x in res || x == v
  {
    if v in res then res else res + [v]
  }

  /** Adding every value of `xs` in turn. */
  function AddAll(res: seq<string>, xs: seq<string>): seq<string>
  {
    if |xs| == 0 then res else Add(AddAll(res, xs[..|xs| - 1]), xs[|xs| - 1])
  }

  /** `[v, ...res]`, then `res.clear()` and every value added back. */
  function Promote(res: seq<string>, v: string): seq<string>
  {
    AddAll([], [v] + res)
  }

  /** The values of `xs` other than `v`, in order. */
  function Remove(xs: seq<string>, v: string): (r: seq<string>)
    ensures forall x :: x in r <==> x in xs && x != v
  {
    if |xs| == 0 then []
    else
      var init := xs[..|xs| - 1];
      assert xs == init + [xs[|xs| - 1]];
      Remove(init, v) + (if xs[|xs| - 1] == v then [] else [xs[|xs| - 1]])
  }

  /** One row of the inner loop. */
  function RowStep(res: seq<string>, row: seq<Cell>, rpQuery: bool, valueFirst: bool): Result<seq<string>, ParseError>
  {
    match CellString(SelectedCell(row, valueFirst))
    case None => Failure(NoCellText)
    case Some(v) =>
      if valueFirst && Promotes(row, rpQuery) then Success(Promote(res, v)) else Success(Add(res, v))
  }

  /** The set after the given rows, or the error of the first row whose cell has no text. */
  function ParseRows(rows: seq<seq<Cell>>, rpQuery: bool, valueFirst: bool): Result<seq<string>, ParseError>
  {
    if |rows| == 0 then Success([])
    else
      match ParseRows(rows[..|rows| - 1], rpQuery, valueFirst)
      case Failure(e) => Failure(e)
      case Success(res) => RowStep(res, rows[|rows| - 1], rpQuery, valueFirst)
  }

  function Wrap(res: seq<string>): (r: seq<MetricFindValue>)
    ensures |r| == |res| && forall i | 0 <= i < |res| :: r[i].text == res[i]
  {
    seq(|res|, i requires 0 <= i < |res| => MetricFindValue(res[i]))
  }

  /**
   * `responseParse(query, results)`. `results` is `None` when the response
   * has no `results` member; every row of every series of the first result
   * is read in order.
   */
  function ResponseParse(query: string, results: Option<seq<StatementResult>>): Result<seq<MetricFindValue>, ParseError>
  {
    if results.None? || |results.value| == 0 then Success([])
    else
      match results.value[0].series
      case None => Success([])
      case Some(series) =>
        match ParseRows(ResponseMapper.AllRows(series), IsRetentionPolicyQuery(query), IsValueFirst(query))
        case Failure(e) => Failure(e)
        case Success(res) => Success(Wrap(res))
  }

  // ---------------------------------------------------------------------------
  // Properties
  // ---------------------------------------------------------------------------

  lemma {:induction false} AddAllDistinct(res: seq<string>, xs: seq<string>)
    requires Distinct(res)
    ensures Distinct(AddAll(res, xs))
    ensures forall x :: x in AddAll(res, xs) <==> x in res || x in xs
  {
    if |xs| > 0 {
      var init := xs[..|xs| - 1];
      AddAllDistinct(res, init);
      assert xs == init + [xs[|xs| - 1]];
    }
  }

  /** The parsed values never repeat. */
  lemma {:induction false} ParseRowsDistinct(rows: seq<seq<Cell>>, rpQuery: bool, valueFirst: bool)
    requires ParseRows(rows, rpQuery, valueFirst).Success?
    ensures Distinct(ParseRows(rows, rpQuery, valueFirst).value)
  {
    if |rows| > 0 {
      var init := rows[..|rows| - 1];
      ParseRowsDistinct(init, rpQuery, valueFirst);
      var res := ParseRows(init, rpQuery, valueFirst).value;
      var v := CellString(SelectedCell(rows[|rows| - 1], valueFirst)).value;
      AddAllDistinct([], [v] + res);
    }
  }

  /**
   * Promotion puts the default policy first and keeps the other values in
   * their order; a value already present moves rather than repeats.
   */
  lemma {:induction false} PromoteMovesToFront(res: seq<string>, v: string)
    requires Distinct(res)
    ensures Promote(res, v) == [v] + Remove(res, v)
    decreases |res|
  {
    if |res| == 0 {
      assert [v] + res == [v];
      assert [v][..0] == [];
      assert AddAll([], [v]) == Add(AddAll([], []), v) == [v];
      assert Remove(res, v) == [];
    } else {
      var init := res[..|res| - 1];
      var x := res[|res| - 1];
      assert res == init + [x];
      PromoteMovesToFront(init, v);
      assert ([v] + res)[..|[v] + res| - 1] == [v] + init;
      assert AddAll([], [v] + res) == Add(AddAll([], [v] + init), x);
      if x != v {
        assert x !in init;
        assert x !in [v] + Remove(init, v);
      }
    }
  }

  /** The selected texts of the rows, in order, or the first error. */
  function Texts(rows: seq<seq<Cell>>, valueFirst: bool): Result<seq<string>, ParseError>
  {
    if |rows| == 0 then Success([])
    else
      match Texts(rows[..|rows| - 1], valueFirst)
      case Failure(e) => Failure(e)
      case Success(ts) =>
        match CellString(SelectedCell(rows[|rows| - 1], valueFirst))
        case None => Failure(NoCellText)
        case Some(v) => Success(ts + [v])
  }

  /** The index of the first occurrence of `v` in `xs`. */
  function FirstIndex(xs: seq<string>, v: string): (r: nat)
    requires v in xs
    ensures r < |xs| && xs[r] == v && forall i | 0 <= i < r :: xs[i] != v
  {
    if xs[0] == v then 0 else 1 + FirstIndex(xs[1..], v)
  }

  lemma FirstIndexSnoc(xs: seq<string>, x: string, v: string)
    requires v in xs
    ensures FirstIndex(xs + [x], v) == FirstIndex(xs, v)
  {
    var i := FirstIndex(xs, v);
    var j := FirstIndex(xs + [x], v);
    assert (xs + [x])[i] == v;
  }

  /** Every value of `r` occurs in `ts`, and `r` lists them by where they first occur there. */
  predicate OrderedByFirst(r: seq<string>, ts: seq<string>) {
    (forall x | x in r :: x in ts)
    && forall i, j | 0 <= i < j < |r| :: FirstIndex(ts, r[i]) < FirstIndex(ts, r[j])
  }

  /**
   * Without retention-policy promotion the result holds each selected text
   * exactly once, ordered by where it first occurs.
   */
  lemma {:induction false} FirstOccurrenceOrder(rows: seq<seq<Cell>>, valueFirst: bool)
    requires Texts(rows, valueFirst).Success?
    ensures ParseRows(rows, false, valueFirst).Success?
    ensures var r := ParseRows(rows, false, valueFirst).value;
      var ts := Texts(rows, valueFirst).value;
      Distinct(r) && (forall v :: v in r <==> v in ts) && OrderedByFirst(r, ts)
  {
    if |rows| > 0 {
      var init := rows[..|rows| - 1];
      FirstOccurrenceOrder(init, valueFirst);
      var r0 := ParseRows(init, false, valueFirst).value;
      var ts0 := Texts(init, valueFirst).value;
      var v := CellString(SelectedCell(rows[|rows| - 1], valueFirst)).value;
      assert ParseRows(rows, false, valueFirst).value == Add(r0, v);
      assert Texts(rows, valueFirst).value == ts0 + [v];
      AddKeepsOrder(r0, ts0, v);
    }
  }

  /** Adding the next text keeps the result ordered by first occurrence. */
  lemma AddKeepsOrder(r0: seq<string>, ts0: seq<string>, v: string)
    requires Distinct(r0) && (forall x :: x in r0 <==> x in ts0) && OrderedByFirst(r0, ts0)
    ensures var r := Add(r0, v);
      Distinct(r) && (forall x :: x in r <==> x in ts0 + [v]) && OrderedByFirst(r, ts0 + [v])
  {
    var ts := ts0 + [v];
    var r := Add(r0, v);
    forall x | x in ts0
      ensures FirstIndex(ts, x) == FirstIndex(ts0, x)
    {
      FirstIndexSnoc(ts0, v, x);
    }
    if v !in ts0 {
      assert FirstIndex(ts, v) == |ts0|;
      forall i, j | 0 <= i < j < |r|
        ensures FirstIndex(ts, r[i]) < FirstIndex(ts, r[j])
      {
        if j == |r0| {
          assert r[i] == r0[i] && r[i] in ts0;
        } else {
          assert r[i] == r0[i] && r[j] == r0[j];
        }
      }
    }
  }

  lemma ParseRowsSnoc(rows: seq<seq<Cell>>, row: seq<Cell>, rpQuery: bool, valueFirst: bool)
    ensures ParseRows(rows + [row], rpQuery, valueFirst)
      == if ParseRows(rows, rpQuery, valueFirst).Failure? then ParseRows(rows, rpQuery, valueFirst)
         else RowStep(ParseRows(rows, rpQuery, valueFirst).value, row, rpQuery, valueFirst)
  {
    assert (rows + [row])[..|rows|] == rows;
  }

  lemma {:induction false} ParseRowsPrefixFails(rows: seq<seq<Cell>>, more: seq<seq<Cell>>, rpQuery: bool, valueFirst: bool)
    requires ParseRows(rows, rpQuery, valueFirst).Failure?
    ensures ParseRows(rows + more, rpQuery, valueFirst) == ParseRows(rows, rpQuery, valueFirst)
    decreases |more|
  {
    if |more| > 0 {
      var init := more[..|more| - 1];
      ParseRowsPrefixFails(rows, init, rpQuery, valueFirst);
      assert (rows + more)[..|rows + more| - 1] == rows + init;
    } else {
      assert rows + more == rows;
    }
  }

  // ---------------------------------------------------------------------------
  // The loops
  // ---------------------------------------------------------------------------

  /** The promotion as written: the new value and the old ones, added back one by one to a cleared set. */
  method PromoteInPlace(res: seq<string>, v: string) returns (r: seq<string>)
    ensures r == Promote(res, v)
  {
    var newSetValues := [v] + res;
    r := [];
    for k := 0 to |newSetValues|
      invariant r == AddAll([], newSetValues[..k])
    {
      assert newSetValues[..k + 1][..k] == newSetValues[..k];
      if newSetValues[k] !in r {
        r := r + [newSetValues[k]];
      }
    }
    assert newSetValues[..|newSetValues|] == newSetValues;
  }

  /** `responseParse`, with the nested loops over series and rows. */
  method ParseResponse(query: string, results: Option<seq<StatementResult>>)
    returns (r: Result<seq<MetricFindValue>, ParseError>)
    ensures r == ResponseParse(query, results)
  {
    if results.None? || |results.value| == 0 {
      return Success([]);
    }
    var influxResults := results.value[0];
    if influxResults.series.None? {
      return Success([]);
    }
    var normalizedQuery := Text.Lower(query);
    var isRetentionPolicyQuery := Text.IndexOf(normalizedQuery, "show retention policies").Some?;
    var isValueFirst := Text.IndexOf(normalizedQuery, "show field keys").Some? || isRetentionPolicyQuery;
    var series := influxResults.series.value;
    var res: seq<string> := [];
    for i := 0 to |series|
      invariant ParseRows(ResponseMapper.AllRows(series[..i]), isRetentionPolicyQuery, isValueFirst) == Success(res)
    {
      AllRowsSnoc(series, i);
      var step := ParseSeriesRows(ResponseMapper.AllRows(series[..i]), series[i].values, res,
        isRetentionPolicyQuery, isValueFirst);
      if step.Failure? {
        AllRowsSplit(series, i);
        ParseRowsPrefixFails(ResponseMapper.AllRows(series[..i + 1]), ResponseMapper.AllRows(series[i + 1..]),
          isRetentionPolicyQuery, isValueFirst);
        return Failure(step.error);
      }
      res := step.value;
    }
    assert series[..|series|] == series;
    r := Success(Wrap(res));
  }

  /** The inner loop: the rows of one series, added to the set built from the rows `before` them. */
  method ParseSeriesRows(ghost before: seq<seq<Cell>>, values: seq<seq<Cell>>, res0: seq<string>,
                         isRetentionPolicyQuery: bool, isValueFirst: bool)
    returns (r: Result<seq<string>, ParseError>)
    requires ParseRows(before, isRetentionPolicyQuery, isValueFirst) == Success(res0)
    ensures r == ParseRows(before + values, isRetentionPolicyQuery, isValueFirst)
  {
    var res := res0;
    assert before + values[..0] == before;
    for j := 0 to |values|
      invariant ParseRows(before + values[..j], isRetentionPolicyQuery, isValueFirst) == Success(res)
    {
      RowAfter(before, values, j, res, isRetentionPolicyQuery, isValueFirst);
      var step := ParseRow(res, values[j], isRetentionPolicyQuery, isValueFirst);
      if step.Failure? {
        RowFails(before, values, j, isRetentionPolicyQuery, isValueFirst);
        return Failure(NoCellText);
      }
      res := step.value;
    }
    assert values[..|values|] == values;
    r := Success(res);
  }

  /** The body of the inner loop: one row's text promoted or added. */
  method ParseRow(res: seq<string>, value: seq<Cell>, isRetentionPolicyQuery: bool, isValueFirst: bool)
    returns (r: Result<seq<string>, ParseError>)
    ensures r == RowStep(res, value, isRetentionPolicyQuery, isValueFirst)
  {
    var cell := SelectedCell(value, isValueFirst);
    if cell.None? || cell == Some(Null) {
      return Failure(NoCellText);
    }
    var text := CellString(cell).value;
    if isValueFirst && isRetentionPolicyQuery && |value| > 0 && value[|value| - 1] == Bool(true) {
      var promoted := PromoteInPlace(res, text);
      r := Success(promoted);
    } else {
      r := Success(Add(res, text));
    }
  }

  /** Row `j` of a series is read against the set built from the rows before it. */
  lemma RowAfter(before: seq<seq<Cell>>, values: seq<seq<Cell>>, j: nat, res: seq<string>, rpQuery: bool, valueFirst: bool)
    requires j < |values| && ParseRows(before + values[..j], rpQuery, valueFirst) == Success(res)
    ensures ParseRows(before + values[..j + 1], rpQuery, valueFirst) == RowStep(res, values[j], rpQuery, valueFirst)
  {
    ParseRowsSnoc(before + values[..j], values[j], rpQuery, valueFirst);
    assert before + values[..j + 1] == before + values[..j] + [values[j]];
  }

  /** A row whose cell has no text ends the whole parse with that error. */
  lemma RowFails(before: seq<seq<Cell>>, values: seq<seq<Cell>>, j: nat, rpQuery: bool, valueFirst: bool)
    requires j < |values| && ParseRows(before + values[..j], rpQuery, valueFirst).Success?
    requires CellString(SelectedCell(values[j], valueFirst)).None?
    ensures ParseRows(before + values, rpQuery, valueFirst) == Failure(NoCellText)
  {
    RowAfter(before, values, j, ParseRows(before + values[..j], rpQuery, valueFirst).value, rpQuery, valueFirst);
    ParseRowsPrefixFails(before + values[..j + 1], values[j + 1..], rpQuery, valueFirst);
    assert before + values[..j + 1] + values[j + 1..] == before + values;
  }

  lemma AllRowsSnoc(series: seq<Series>, i: nat)
    requires i < |series|
    ensures ResponseMapper.AllRows(series[..i + 1]) == ResponseMapper.AllRows(series[..i]) + series[i].values
  {
    assert series[..i + 1][..i] == series[..i];
  }

  lemma {:induction false} AllRowsSplit(series: seq<Series>, i: nat)
    requires i < |series|
    ensures ResponseMapper.AllRows(series)
      == ResponseMapper.AllRows(series[..i + 1]) + ResponseMapper.AllRows(series[i + 1..])
    decreases |series|
  {
    if i + 1 == |series| {
      assert series[..i + 1] == series;
      assert series[i + 1..] == [];
    } else {
      var init := series[..|series| - 1];
      AllRowsSplit(init, i);
      assert init[..i + 1] == series[..i + 1];
      assert init[i + 1..] == series[i + 1..|series| - 1];
      assert series[i + 1..][..|series[i + 1..]| - 1] == series[i + 1..|series| - 1];
    }
  }

  // ---------------------------------------------------------------------------
  // Examples
  // ---------------------------------------------------------------------------

  /** `SHOW MEASUREMENTS` is neither a field-key nor a retention-policy listing. */
  lemma MeasurementsQueryReadsSecondCell()
    ensures !IsValueFirst("SHOW MEASUREMENTS") && !IsRetentionPolicyQuery("SHOW MEASUREMENTS")
  {
    var l := Text.Lower("SHOW MEASUREMENTS");
    assert |l| == 17;
    forall i | 0 <= i <= |l|
      ensures !Text.OccursAt(l, "show field keys", i)
    {
      if i + 15 <= |l| {
        assert l[i + 5] != 'f';
        assert "show field keys"[5] == 'f';
        assert l[i..i + 15][5] == l[i + 5];
      }
    }
  }

  lemma ParseOneRow(row: seq<Cell>, rpQuery: bool, valueFirst: bool, v: string)
    requires CellString(SelectedCell(row, valueFirst)) == Some(v) && !(valueFirst && Promotes(row, rpQuery))
    ensures ParseRows([row], rpQuery, valueFirst) == Success([v])
  {
    assert [row][..0] == [];
    assert Add([], v) == [v];
    assert RowStep([], row, rpQuery, valueFirst) == Success([v]);
  }

  lemma ParseTwoRows(r1: seq<Cell>, r2: seq<Cell>, rpQuery: bool, valueFirst: bool, v1: string, v2: string)
    requires CellString(SelectedCell(r1, valueFirst)) == Some(v1) && !(valueFirst && Promotes(r1, rpQuery))
    requires CellString(SelectedCell(r2, valueFirst)) == Some(v2)
    ensures ParseRows([r1, r2], rpQuery, valueFirst)
      == Success(if valueFirst && Promotes(r2, rpQuery) then Promote([v1], v2) else Add([v1], v2))
  {
    ParseOneRow(r1, rpQuery, valueFirst, v1);
    ParseRowsSnoc([r1], r2, rpQuery, valueFirst);
    assert [r1] + [r2] == [r1, r2];
  }

  /** The rows of the single series of the first result. */
  lemma ParseOneSeries(query: string, s: Series)
    ensures ResponseParse(query, Some([StatementResult(Some([s]))]))
      == match ParseRows(s.values, IsRetentionPolicyQuery(query), IsValueFirst(query))
         case Failure(e) => Failure(e)
         case Success(res) => Success(Wrap(res))
  {
    assert ResponseMapper.AllRows([s]) == s.values by {
      assert [s][..0] == [];
    }
  }

  /** A series row `[time, 7]` contributes its second cell (src/test/datasource.test.ts:56-61). */
  lemma TimeIsNotAValue()
    ensures ResponseParse("SHOW MEASUREMENTS", Some([StatementResult(Some([
        Series("test_measurement", ["time", "value"], [[Num(1566000000000), Num(7)]], None)]))]))
      == Success([MetricFindValue("7")])
  {
    MeasurementsQueryReadsSecondCell();
    var row := [Num(1566000000000), Num(7)];
    ParseOneSeries("SHOW MEASUREMENTS", Series("test_measurement", ["time", "value"], [row], None));
    SevenText();
    ParseOneRow(row, false, false, "7");
    assert Wrap(["7"]) == [MetricFindValue("7")];
  }

  lemma SevenText()
    ensures CellString(SelectedCell([Num(1566000000000), Num(7)], false)) == Some("7")
  {
    assert Text.IntToString(7) == [Text.DigitChar(7)];
  }

  /** Single-cell rows contribute their only cell, in order (src/test/datasource.test.ts:43-55). */
  lemma MeasurementNames()
    ensures ResponseParse("SHOW MEASUREMENTS", Some([StatementResult(Some([
        Series("measurements", ["name"], [[Str("h2o_feet")], [Str("h2o_pH")]], None)]))]))
      == Success([MetricFindValue("h2o_feet"), MetricFindValue("h2o_pH")])
  {
    MeasurementsQueryReadsSecondCell();
    ParseOneSeries("SHOW MEASUREMENTS", Series("measurements", ["name"], [[Str("h2o_feet")], [Str("h2o_pH")]], None));
    ParseTwoRows([Str("h2o_feet")], [Str("h2o_pH")], false, false, "h2o_feet", "h2o_pH");
    assert "h2o_pH" !in ["h2o_feet"];
    assert Add(["h2o_feet"], "h2o_pH") == ["h2o_feet", "h2o_pH"];
    assert Wrap(["h2o_feet", "h2o_pH"]) == [MetricFindValue("h2o_feet"), MetricFindValue("h2o_pH")];
  }

  /** A retention-policy listing is recognised whatever the letter case. */
  lemma RetentionPolicyQueryAnyCase()
    ensures IsRetentionPolicyQuery("SHOW RETENTION POLICIES") && IsValueFirst("Show Retention Policies")
  {
    LowerPrefix("SHOW RETENTION POLICIES", "show retention policies");
    LowerPrefix("Show Retention Policies", "show retention policies");
  }

  /** A query whose lower case starts with `needle` contains it. */
  lemma LowerPrefix(query: string, needle: string)
    requires |needle| <= |query| && forall i | 0 <= i < |needle| :: Text.LowerChar(query[i]) == needle[i]
    ensures Text.Contains(Text.Lower(query), needle)
  {
    assert Text.Lower(query)[0..|needle|] == needle;
    assert Text.OccursAt(Text.Lower(query), needle, 0);
  }

  /**
   * The row flagged as default moves to the front even when it comes last:
   * `autogen`, then a default `rp1`, gives `rp1, autogen`.
   */
  lemma DefaultPolicyFirst()
    ensures ParseRows([[Str("autogen"), Bool(false)], [Str("rp1"), Bool(true)]], true, true)
      == Success(["rp1", "autogen"])
  {
    ParseTwoRows([Str("autogen"), Bool(false)], [Str("rp1"), Bool(true)], true, true, "autogen", "rp1");
    PromoteOne("autogen", "rp1");
  }

  lemma PromoteOne(a: string, v: string)
    requires a != v
    ensures Promote([a], v) == [v, a]
  {
    PromoteMovesToFront([a], v);
    assert [a][..0] == [];
    assert Remove([a], v) == Remove([], v) + [a] == [a];
  }
}
