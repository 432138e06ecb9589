/**
 * The client's response mapping: typed, named fields from a series
 * (`resolveFields`), one frame per series in time-series mode
 * (`resolveTimeSeries`), one merged frame with tag columns spliced in for
 * tables and logs (`resolveTableData`), the format dispatch of `queryData`
 * and the key listing of `getColumnConfig`.
 */
module ResponseMapper {
  import opened Wrappers
  import opened Types
  import opened Wire
  import Text
  import Alias

  datatype FieldType = TimeField | NumberField | StringField | BooleanField

  /** One column of a frame; `None` is an `undefined` cell of a row shorter than the columns. */
  datatype Field = Field(kind: FieldType, name: string, values: seq<Option<Cell>>)

  datatype FrameMeta = FrameMeta(preferredVisualisationType: string)

  /** A data frame: the fields, the query's reference id and the display hint. */
  datatype Frame = Frame(refId: Option<string>, fields: seq<Field>, meta: Option<FrameMeta>)

  /** `new MutableDataFrame()`. */
  const EmptyFrame := Frame(None, [], None)

  /** The display hint of the logs format. */
  const LogsMeta := FrameMeta("logs")

  /** `values.map((row) => row[k])`. */
  function Column(rows: seq<seq<Cell>>, k: nat): (r: seq<Option<Cell>>)
    ensures |r| == |rows| && forall j | 0 <= j < |rows| :: r[j] == CellAt(rows[j], k)
  {
    seq(|rows|, j requires 0 <= j < |rows| => CellAt(rows[j], k))
  }

  lemma ColumnAppend(a: seq<seq<Cell>>, b: seq<seq<Cell>>, k: nat)
    ensures Column(a + b, k) == Column(a, k) + Column(b, k)
  {
  }

  // ---------------------------------------------------------------------------
  // resolveFields
  // ---------------------------------------------------------------------------

  /**
   * The row that `values.find((value) => value[k] !== null)` finds, searching
   * from `from`: a row too short to have cell `k` counts, as `undefined` is
   * not `null`.
   */
  function FirstNonNullFrom(rows: seq<seq<Cell>>, k: nat, from: nat): (r: Option<nat>)
    requires from <= |rows|
    decreases |rows| - from
    ensures r.Some? ==> from <= r.value < |rows| && CellAt(rows[r.value], k) != Some(Null)
    ensures r.Some? ==> forall j | from <= j < r.value :: CellAt(rows[j], k) == Some(Null)
    ensures r.None? ==> forall j | from <= j < |rows| :: CellAt(rows[j], k) == Some(Null)
  {
    if from == |rows| then None
    else if CellAt(rows[from], k) != Some(Null) then Some(from)
    else FirstNonNullFrom(rows, k, from + 1)
  }

  /**
   * The type of a non-time column: that of its first non-null cell, and
   * number when every cell is null, there are no rows or the cell found is
   * `undefined`.
   */
  function ColumnType(rows: seq<seq<Cell>>, k: nat): FieldType {
    match FirstNonNullFrom(rows, k, 0)
    case None => NumberField
    case Some(j) =>
      match CellAt(rows[j], k)
      case Some(Str(_)) => StringField
      case Some(Bool(_)) => BooleanField
      case _ => NumberField
  }

  /** Cell `k` of row `j` is the first cell of that column that is not `null`. */
  predicate FirstNonNullAt(rows: seq<seq<Cell>>, k: nat, j: int) {
    0 <= j < |rows| && CellAt(rows[j], k) != Some(Null) && forall i | 0 <= i < j :: CellAt(rows[i], k) == Some(Null)
  }

  /** A column is typed string exactly when its first non-null cell is a string, and boolean likewise. */
  lemma ColumnTypeByFirstCell(rows: seq<seq<Cell>>, k: nat)
    ensures ColumnType(rows, k) == StringField <==>
      exists j :: FirstNonNullAt(rows, k, j) && k < |rows[j]| && rows[j][k].Str?
    ensures ColumnType(rows, k) == BooleanField <==>
      exists j :: FirstNonNullAt(rows, k, j) && k < |rows[j]| && rows[j][k].Bool?
    ensures ColumnType(rows, k) != TimeField
  {
    match FirstNonNullFrom(rows, k, 0)
    case None =>
      forall j | FirstNonNullAt(rows, k, j)
        ensures false
      {
      }
    case Some(j0) =>
      forall j | FirstNonNullAt(rows, k, j)
        ensures j == j0
      {
      }
      assert FirstNonNullAt(rows, k, j0);
  }

  /** `Object.entries(tags).map(([key, value]) => `${key}:${value}`).join(', ')`. */
  function TagsText(entries: seq<(string, string)>): string {
    Text.Join(seq(|entries|, i requires 0 <= i < |entries| => entries[i].0 + ":" + entries[i].1), ", ")
  }

  /** The name of non-time column `k` in the given format. */
  function FieldName(s: Series, format: Format, alias: string, k: nat): string
    requires k < |s.columns|
  {
    var column := s.columns[k];
    match s.tags
    case Some(entries) =>
      if format == TimeSeries then
        (if alias != "" then Alias.ResolveAlias(s, alias, k) else s.name + "." + column + " {" + TagsText(entries) + "}")
      else if format == Table then column
      else column + "{" + TagsText(entries) + "}"
    case None => if format == TimeSeries then s.name + "." + column else column
  }

  /** The field made of column `k`. */
  function ResolveField(s: Series, format: Format, alias: string, k: nat): (r: Field)
    requires k < |s.columns|
    ensures r.values == Column(s.values, k)
    ensures s.columns[k] == "time" ==> r.kind == TimeField && r.name == "Time"
    ensures s.columns[k] != "time" ==> r.kind == ColumnType(s.values, k) && r.name == FieldName(s, format, alias, k)
  {
    if s.columns[k] == "time" then Field(TimeField, "Time", Column(s.values, k))
    else Field(ColumnType(s.values, k), FieldName(s, format, alias, k), Column(s.values, k))
  }

  /** `resolveFields(series, format, alias)`: one field per column, in column order. */
  function ResolveFields(s: Series, format: Format, alias: string): (r: seq<Field>)
    ensures |r| == |s.columns|
    ensures forall k | 0 <= k < |r| :: r[k] == ResolveField(s, format, alias, k)
  {
    seq(|s.columns|, k requires 0 <= k < |s.columns| => ResolveField(s, format, alias, k))
  }

  /**
   * The naming rules. An untagged series is named `name.column` in
   * time-series mode and by the bare column otherwise; a tagged table
   * column is the bare column; a tagged time-series column without an
   * alias is `name.column {k:v, ...}`, and with one the expanded alias.
   */
  lemma NamingRules(s: Series, format: Format, alias: string, k: nat)
    requires k < |s.columns| && s.columns[k] != "time"
    ensures s.tags.None? && format == TimeSeries ==>
      ResolveField(s, format, alias, k).name == s.name + "." + s.columns[k]
    ensures (s.tags.None? && format != TimeSeries) || format == Table ==>
      ResolveField(s, format, alias, k).name == s.columns[k]
    ensures s.tags.Some? && format == TimeSeries && alias == "" ==>
      ResolveField(s, format, alias, k).name == s.name + "." + s.columns[k] + " {" + TagsText(s.tags.value) + "}"
    ensures s.tags.Some? && format == TimeSeries && alias != "" ==>
      ResolveField(s, format, alias, k).name == Alias.ResolveAlias(s, alias, k)
  {
  }

  /** The alias only matters for a tagged series in time-series mode. */
  lemma AliasOnlyNamesTaggedTimeSeries(s: Series, format: Format, a1: string, a2: string)
    requires s.tags.None? || format != TimeSeries
    ensures ResolveFields(s, format, a1) == ResolveFields(s, format, a2)
  {
    assert forall k | 0 <= k < |s.columns| :: ResolveField(s, format, a1, k) == ResolveField(s, format, a2, k);
  }

  // ---------------------------------------------------------------------------
  // resolveTimeSeries
  // ---------------------------------------------------------------------------

  predicate IsTimeOrNumber(f: Field) {
    f.kind == NumberField || f.kind == TimeField
  }

  /** `fields.filter((field) => [number, time].includes(field.type))`. */
  function KeepTimeAndNumber(fs: seq<Field>): (r: seq<Field>)
    ensures |r| <= |fs|
    ensures forall f :: f in r <==> f in fs && IsTimeOrNumber(f)
  {
    if |fs| == 0 then []
    else
      var last := fs[|fs| - 1];
      assert fs == fs[..|fs| - 1] + [last];
      KeepTimeAndNumber(fs[..|fs| - 1]) + (if IsTimeOrNumber(last) then [last] else [])
  }

  /**
   * `filter` keeps the kept fields in their order and with their
   * multiplicity: it distributes over concatenation, and on one field it
   * keeps exactly a time or number field.
   */
  lemma {:induction false} KeepTimeAndNumberAppend(a: seq<Field>, b: seq<Field>)
    decreases |b|
    ensures KeepTimeAndNumber(a + b) == KeepTimeAndNumber(a) + KeepTimeAndNumber(b)
  {
    if |b| == 0 {
      assert a + b == a;
    } else {
      var last := b[|b| - 1];
      var init := b[..|b| - 1];
      var tail := if IsTimeOrNumber(last) then [last] else [];
      var ab := a + b;
      assert ab[..|ab| - 1] == a + init;
      assert ab[|ab| - 1] == last;
      assert KeepTimeAndNumber(ab) == KeepTimeAndNumber(a + init) + tail;
      assert KeepTimeAndNumber(b) == KeepTimeAndNumber(init) + tail;
      KeepTimeAndNumberAppend(a, init);
      assert KeepTimeAndNumber(a) + KeepTimeAndNumber(init) + tail == KeepTimeAndNumber(a) + (KeepTimeAndNumber(init) + tail);
    }
  }

  lemma KeepTimeAndNumberOne(f: Field)
    ensures IsTimeOrNumber(f) ==> KeepTimeAndNumber([f]) == [f]
    ensures !IsTimeOrNumber(f) ==> KeepTimeAndNumber([f]) == []
  {
    assert [f][..0] == [];
  }

  /** The frame of one series in time-series mode. */
  function SeriesFrame(s: Series, refId: string, alias: string): (r: Frame)
    ensures |s.values| == 0 <==> r == EmptyFrame
    ensures |s.values| > 0 ==> r.refId == Some(refId) && r.meta.None?
    ensures forall f | f in r.fields :: IsTimeOrNumber(f) && f in ResolveFields(s, TimeSeries, alias)
  {
    if |s.values| == 0 then EmptyFrame
    else Frame(Some(refId), KeepTimeAndNumber(ResolveFields(s, TimeSeries, alias)), None)
  }

  /** `resolveTimeSeries`: one frame per series, in order. */
  function ResolveTimeSeries(series: seq<Series>, refId: string, alias: string): (r: seq<Frame>)
    ensures |r| == |series|
    ensures forall k | 0 <= k < |series| :: r[k] == SeriesFrame(series[k], refId, alias)
  {
    seq(|series|, k requires 0 <= k < |series| => SeriesFrame(series[k], refId, alias))
  }

  /** Every number or time column of a series with rows reaches its frame, and no other column does. */
  lemma TimeSeriesKeepsNumbers(s: Series, refId: string, alias: string, k: nat)
    requires |s.values| > 0 && k < |s.columns|
    ensures ResolveField(s, TimeSeries, alias, k) in SeriesFrame(s, refId, alias).fields
      <==> s.columns[k] == "time" || ColumnType(s.values, k) == NumberField
  {
    var fs := ResolveFields(s, TimeSeries, alias);
    assert fs[k] == ResolveField(s, TimeSeries, alias, k);
  }

  // ---------------------------------------------------------------------------
  // resolveTableData
  // ---------------------------------------------------------------------------

  function TagNames(entries: seq<(string, string)>): (r: seq<string>)
    ensures |r| == |entries| && forall i | 0 <= i < |entries| :: r[i] == entries[i].0
  {
    seq(|entries|, i requires 0 <= i < |entries| => entries[i].0)
  }

  function TagValues(entries: seq<(string, string)>): (r: seq<string>)
    ensures |r| == |entries| && forall i | 0 <= i < |entries| :: r[i] == entries[i].1
  {
    seq(|entries|, i requires 0 <= i < |entries| => entries[i].1)
  }

  function StrCells(vs: seq<string>): (r: seq<Cell>)
    ensures |r| == |vs| && forall i | 0 <= i < |vs| :: r[i] == Str(vs[i])
  {
    seq(|vs|, i requires 0 <= i < |vs| => Str(vs[i]))
  }

  /**
   * `[timeField, ...tagNames, ...rest]`. Without columns the source's
   * `timeField` is `undefined` and becomes a leading column of its own;
   * column names here are strings, so that column is not represented and
   * only the tag names remain.
   */
  function SpliceColumns(columns: seq<string>, names: seq<string>): (r: seq<string>)
    ensures |columns| > 0 ==> |r| == |columns| + |names|
    ensures |columns| == 0 ==> r == names
    ensures |columns| > 0 ==> r[0] == columns[0] && r[1..1 + |names|] == names && r[1 + |names|..] == columns[1..]
  {
    if |columns| == 0 then names else [columns[0]] + names + columns[1..]
  }

  /** `row.splice(1, 0, ...tagValues)`: the tag values go after the first cell. */
  function SpliceRow(row: seq<Cell>, vs: seq<string>): (r: seq<Cell>)
    ensures |r| == |row| + |vs|
    ensures |row| > 0 ==> r[0] == row[0] && r[1..1 + |vs|] == StrCells(vs) && r[1 + |vs|..] == row[1..]
    ensures |row| == 0 ==> r == StrCells(vs)
  {
    if |row| == 0 then StrCells(vs) else [row[0]] + StrCells(vs) + row[1..]
  }

  /**
   * One series after the tag merge: a tagged series gets its tag names as
   * columns after the first one, and every row gets the tag values in the
   * same places; an untagged series is left alone.
   */
  function MergeTags(s: Series): (r: Series)
    ensures r.name == s.name && r.tags == s.tags && |r.values| == |s.values|
    ensures s.tags.None? ==> r == s
    ensures s.tags.Some? ==> r.columns == SpliceColumns(s.columns, TagNames(s.tags.value))
    ensures s.tags.Some? ==> forall i | 0 <= i < |s.values| :: r.values[i] == SpliceRow(s.values[i], TagValues(s.tags.value))
  {
    match s.tags
    case None => s
    case Some(entries) =>
      s.(columns := SpliceColumns(s.columns, TagNames(entries)),
         values := seq(|s.values|, i requires 0 <= i < |s.values| => SpliceRow(s.values[i], TagValues(entries))))
  }

  /**
   * After the merge, column `1 + j` of a tagged series is named after tag
   * `j` and holds that tag's value in every non-empty row; the original
   * cells keep their columns.
   */
  lemma MergedTagColumn(s: Series, i: nat, j: nat)
    requires s.tags.Some? && |s.columns| > 0 && j < |s.tags.value|
    requires i < |s.values| && |s.values[i]| > 0
    ensures MergeTags(s).columns[1 + j] == s.tags.value[j].0
    ensures MergeTags(s).values[i][1 + j] == Str(s.tags.value[j].1)
    ensures MergeTags(s).columns[0] == s.columns[0] && MergeTags(s).values[i][0] == s.values[i][0]
  {
    var e := s.tags.value;
    var m := MergeTags(s);
    assert m.columns[1..1 + |e|][j] == m.columns[1 + j];
    assert m.values[i][1..1 + |e|][j] == m.values[i][1 + j];
  }

  /** A row as long as the columns stays as long as the columns after the merge. */
  lemma MergeKeepsRowsAligned(s: Series, i: nat)
    requires |s.columns| > 0 && i < |s.values| && |s.values[i]| == |s.columns|
    ensures |MergeTags(s).values[i]| == |MergeTags(s).columns|
  {
  }

  function MergedAll(series: seq<Series>): (r: seq<Series>)
    ensures |r| == |series| && forall k | 0 <= k < |series| :: r[k] == MergeTags(series[k])
  {
    seq(|series|, k requires 0 <= k < |series| => MergeTags(series[k]))
  }

  /** `frame.appendRow(row)`: cell `k` of the row is appended to field `k`. */
  function AppendRow(fields: seq<Field>, row: seq<Cell>): (r: seq<Field>)
    ensures |r| == |fields|
    ensures forall k | 0 <= k < |fields| ::
      r[k] == fields[k].(values := fields[k].values + [CellAt(row, k)])
  {
    seq(|fields|, k requires 0 <= k < |fields| => fields[k].(values := fields[k].values + [CellAt(row, k)]))
  }

  function AppendRows(fields: seq<Field>, rows: seq<seq<Cell>>): seq<Field>
  {
    if |rows| == 0 then fields else AppendRow(AppendRows(fields, rows[..|rows| - 1]), rows[|rows| - 1])
  }

  /** The rows of the series, in order. */
  function AllRows(series: seq<Series>): seq<seq<Cell>>
  {
    if |series| == 0 then [] else AllRows(series[..|series| - 1]) + series[|series| - 1].values
  }

  /**
   * `resolveTableData`: no series gives one empty frame; otherwise the
   * fields of the first merged series, named by their bare columns, with the
   * rows of every later merged series appended.
   */
  function TableData(series: seq<Series>, refId: string, alias: string, meta: Option<FrameMeta>): seq<Frame>
  {
    if |series| == 0 then [EmptyFrame]
    else
      var merged := MergedAll(series);
      [Frame(Some(refId), AppendRows(ResolveFields(merged[0], Table, alias), AllRows(merged[1..])), meta)]
  }

  /** Appending rows keeps each field's name and type and extends its values by that column of the rows. */
  lemma {:induction false} AppendRowsShape(fields: seq<Field>, rows: seq<seq<Cell>>)
    ensures |AppendRows(fields, rows)| == |fields|
    ensures forall k | 0 <= k < |fields| ::
      AppendRows(fields, rows)[k] == fields[k].(values := fields[k].values + Column(rows, k))
  {
    if |rows| > 0 {
      var init := rows[..|rows| - 1];
      var last := rows[|rows| - 1];
      AppendRowsShape(fields, init);
      forall k | 0 <= k < |fields|
        ensures AppendRows(fields, rows)[k] == fields[k].(values := fields[k].values + Column(rows, k))
      {
        assert rows == init + [last];
        ColumnAppend(init, [last], k);
      }
    }
  }

  lemma {:induction false} AllRowsCons(series: seq<Series>)
    requires |series| > 0
    ensures AllRows(series) == series[0].values + AllRows(series[1..])
  {
    if |series| > 1 {
      var init := series[..|series| - 1];
      AllRowsCons(init);
      assert init[1..] == series[1..][..|series| - 2];
    }
  }

  /**
   * In the table frame, field `k` is column `k` of the first merged series
   * with its name and type, and its values are cell `k` of every row of
   * every merged series, in order.
   */
  lemma TableFieldsCoverAllRows(series: seq<Series>, refId: string, alias: string, meta: Option<FrameMeta>, k: nat)
    requires |series| > 0 && k < |MergeTags(series[0]).columns|
    ensures var merged := MergedAll(series);
      var f := TableData(series, refId, alias, meta)[0].fields;
      |f| == |merged[0].columns|
      && f[k].values == Column(AllRows(merged), k)
      && f[k].kind == ResolveField(merged[0], Table, alias, k).kind
      && f[k].name == (if merged[0].columns[k] == "time" then "Time" else merged[0].columns[k])
  {
    var merged := MergedAll(series);
    var base := ResolveFields(merged[0], Table, alias);
    AppendRowsShape(base, AllRows(merged[1..]));
    AllRowsCons(merged);
    ColumnAppend(merged[0].values, AllRows(merged[1..]), k);
  }

  /** The merge of `resolveTableData`, done in place on every series. */
  method MergeTagColumns(series: array<Series>)
    modifies series
    ensures series[..] == MergedAll(old(series[..]))
  {
    for k := 0 to series.Length
      invariant forall m | 0 <= m < k :: series[m] == MergeTags(old(series[m]))
      invariant forall m | k <= m < series.Length :: series[m] == old(series[m])
    {
      var item := series[k];
      if item.tags.Some? {
        var tags := item.tags.value;
        var tagNames: seq<string> := [];
        var tagValues: seq<string> := [];
        for i := 0 to |tags|
          invariant |tagNames| == i && |tagValues| == i
          invariant forall m | 0 <= m < i :: tagNames[m] == tags[m].0 && tagValues[m] == tags[m].1
        {
          tagNames := tagNames + [tags[i].0];
          tagValues := tagValues + [tags[i].1];
        }
        assert tagNames == TagNames(tags) && tagValues == TagValues(tags);
        var rows := item.values;
        for i := 0 to |rows|
          invariant |rows| == |item.values|
          invariant forall m | 0 <= m < i :: rows[m] == SpliceRow(item.values[m], tagValues)
          invariant forall m | i <= m < |rows| :: rows[m] == item.values[m]
        {
          rows := rows[i := SpliceRow(rows[i], tagValues)];
        }
        var merged := item.(columns := SpliceColumns(item.columns, tagNames), values := rows);
        assert merged == MergeTags(item);
        series[k] := merged;
      }
    }
  }

  /**
   * `resolveTableData` over the response's series, which it rewrites in
   * place: the result is the table frame of the original series.
   */
  method ResolveTableData(series: array<Series>, refId: string, alias: string, meta: Option<FrameMeta>)
    returns (frames: seq<Frame>)
    modifies series
    ensures series[..] == MergedAll(old(series[..]))
    ensures frames == TableData(old(series[..]), refId, alias, meta)
  {
    if series.Length == 0 {
      assert series[..] == MergedAll(series[..]);
      return [EmptyFrame];
    }
    MergeTagColumns(series);
    ghost var merged := series[..];
    var base := ResolveFields(series[0], Table, alias);
    var fields := base;
    for i := 1 to series.Length
      invariant series[..] == merged
      invariant fields == AppendRows(base, AllRows(merged[1..i]))
    {
      fields := AppendSeriesRows(fields, series[i].values);
      AppendRowsConcat(base, AllRows(merged[1..i]), merged[i].values);
      assert merged[1..i + 1][..i - 1] == merged[1..i] && merged[1..i + 1][i - 1] == merged[i];
      assert AllRows(merged[1..i + 1]) == AllRows(merged[1..i]) + merged[i].values;
    }
    assert merged[1..series.Length] == merged[1..];
    frames := [Frame(Some(refId), fields, meta)];
  }

  /** The inner loop of `resolveTableData`: every row of one series goes through `appendRow`. */
  method AppendSeriesRows(fields: seq<Field>, rows: seq<seq<Cell>>) returns (r: seq<Field>)
    ensures r == AppendRows(fields, rows)
  {
    r := fields;
    for j := 0 to |rows|
      invariant r == AppendRows(fields, rows[..j])
    {
      AppendRowsSnoc(fields, rows[..j], rows[j]);
      assert rows[..j + 1] == rows[..j] + [rows[j]];
      r := AppendRow(r, rows[j]);
    }
    assert rows[..|rows|] == rows;
  }

  lemma {:induction false} AppendRowsConcat(fields: seq<Field>, a: seq<seq<Cell>>, b: seq<seq<Cell>>)
    decreases |b|
    ensures AppendRows(AppendRows(fields, a), b) == AppendRows(fields, a + b)
  {
    if |b| > 0 {
      AppendRowsConcat(fields, a, b[..|b| - 1]);
      assert (a + b)[..|a + b| - 1] == a + b[..|b| - 1];
    } else {
      assert a + b == a;
    }
  }

  lemma AppendRowsSnoc(fields: seq<Field>, rows: seq<seq<Cell>>, row: seq<Cell>)
    ensures AppendRows(fields, rows + [row]) == AppendRow(AppendRows(fields, rows), row)
  {
    assert (rows + [row])[..|rows|] == rows;
  }

  // ---------------------------------------------------------------------------
  // queryData
  // ---------------------------------------------------------------------------

  /**
   * The frames of `queryData` for the first statement result: one empty
   * frame without `series`; otherwise by format, time series when none is
   * set.
   */
  function QueryFrames(result: StatementResult, target: Query): seq<Frame>
  {
    match result.series
    case None => [EmptyFrame]
    case Some(series) =>
      match (if target.resultFormat.Some? then target.resultFormat.value else TimeSeries)
      case Logs => TableData(series, target.refId, target.alias, Some(LogsMeta))
      case Table => TableData(series, target.refId, target.alias, None)
      case TimeSeries => ResolveTimeSeries(series, target.refId, target.alias)
  }

  /** The format dispatch of `queryData`. */
  method QueryData(result: StatementResult, target: Query) returns (frames: seq<Frame>)
    ensures frames == QueryFrames(result, target)
  {
    if result.series.None? {
      return [EmptyFrame];
    }
    var series := result.series.value;
    var format := if target.resultFormat.Some? then target.resultFormat.value else TimeSeries;
    match format {
      case Logs =>
        var a := new Series[|series|](i requires 0 <= i < |series| => series[i]);
        assert a[..] == series;
        frames := ResolveTableData(a, target.refId, target.alias, Some(LogsMeta));
      case Table =>
        var a := new Series[|series|](i requires 0 <= i < |series| => series[i]);
        assert a[..] == series;
        frames := ResolveTableData(a, target.refId, target.alias, None);
      case TimeSeries =>
        frames := ResolveTimeSeries(series, target.refId, target.alias);
    }
  }

  /**
   * Logs and tables give the same fields, logs with the logs display hint;
   * and since both go through the table naming, no field is ever named
   * `column{k:v, ...}`.
   */
  lemma LogsIsTableWithMeta(result: StatementResult, target: Query)
    requires result.series.Some? && |result.series.value| > 0
    requires target.resultFormat == Some(Logs)
    ensures var logs := QueryFrames(result, target);
      var table := QueryFrames(result, target.(resultFormat := Some(Table)));
      |logs| == 1 && |table| == 1
      && logs[0] == table[0].(meta := Some(LogsMeta))
      && table[0].meta.None?
  {
  }

  /** A missing format is the time-series format. */
  lemma DefaultFormatIsTimeSeries(result: StatementResult, target: Query)
    requires target.resultFormat.None?
    ensures QueryFrames(result, target) == QueryFrames(result, target.(resultFormat := Some(TimeSeries)))
  {
  }

  // ---------------------------------------------------------------------------
  // getColumnConfig
  // ---------------------------------------------------------------------------

  /** ` FROM rp.measurement`, with `rp.` left out when the policy is empty. */
  function KeysFrom(fromMeasurement: string, rp: string): string {
    if fromMeasurement == "" then "" else " FROM " + (if rp != "" then rp + "." else "") + fromMeasurement
  }

  /** The tag-key and field-key queries of `getColumnConfig`: both name the same target. */
  function ColumnConfigSql(fromMeasurement: string, rp: string): (r: (string, string))
    ensures r.0 == "SHOW TAG KEYS" + KeysFrom(fromMeasurement, rp)
    ensures r.1 == "SHOW FIELD KEYS" + KeysFrom(fromMeasurement, rp)
  {
    var tagSql := "SHOW TAG KEYS";
    var fieldSql := "SHOW FIELD KEYS";
    if fromMeasurement != "" then
      (tagSql + KeysFrom(fromMeasurement, rp), fieldSql + KeysFrom(fromMeasurement, rp))
    else (tagSql, fieldSql)
  }

  /** Without a measurement both queries list every key. */
  lemma ColumnConfigSqlWithout(rp: string)
    ensures ColumnConfigSql("", rp) == ("SHOW TAG KEYS", "SHOW FIELD KEYS")
  {
    assert "SHOW TAG KEYS" + "" == "SHOW TAG KEYS";
    assert "SHOW FIELD KEYS" + "" == "SHOW FIELD KEYS";
  }

  /** How a cell prints inside a template literal; `None` is `undefined`. */
  function CellText(c: Option<Cell>): string {
    match c
    case None => "undefined"
    case Some(Null) => "null"
    case Some(Str(s)) => s
    case Some(Num(n)) => Text.IntToString(n)
    case Some(Bool(b)) => if b then "true" else "false"
  }

  /** `{label, value}`; `label` is a reserved word here. */
  datatype ColumnOption = ColumnOption(labelText: string, value: string)

  function KeyOption(row: seq<Cell>, suffix: string): (r: ColumnOption)
    ensures r.labelText == r.value == CellText(CellAt(row, 0)) + suffix
  {
    var text := CellText(CellAt(row, 0)) + suffix;
    ColumnOption(text, text)
  }

  /** The options of `getColumnConfig`: every tag key as `k::tag`, then every field key as `k::field`. */
  function ColumnOptions(tagRows: seq<seq<Cell>>, fieldRows: seq<seq<Cell>>): (r: seq<ColumnOption>)
    ensures |r| == |tagRows| + |fieldRows|
    ensures forall i | 0 <= i < |tagRows| ::
      r[i].labelText == r[i].value == CellText(CellAt(tagRows[i], 0)) + "::tag"
    ensures forall i | 0 <= i < |fieldRows| ::
      r[|tagRows| + i].labelText == r[|tagRows| + i].value == CellText(CellAt(fieldRows[i], 0)) + "::field"
  {
    seq(|tagRows|, i requires 0 <= i < |tagRows| => KeyOption(tagRows[i], "::tag"))
    + seq(|fieldRows|, i requires 0 <= i < |fieldRows| => KeyOption(fieldRows[i], "::field"))
  }

  /**
   * Every key option tells its kind and its key: a tag option ends in
   * `::tag` and a field option in `::field`, dropping the suffix gives the
   * key back, and no tag option equals a field option.
   */
  lemma ColumnOptionKinds(tagRows: seq<seq<Cell>>, fieldRows: seq<seq<Cell>>, i: nat, j: nat)
    requires i < |tagRows| && j < |fieldRows|
    ensures var r := ColumnOptions(tagRows, fieldRows);
      var t := r[i].value;
      var f := r[|tagRows| + j].value;
      Text.EndsWith(t, "::tag") && t[..|t| - 5] == CellText(CellAt(tagRows[i], 0))
      && Text.EndsWith(f, "::field") && f[..|f| - 7] == CellText(CellAt(fieldRows[j], 0))
      && t != f
  {
    var r := ColumnOptions(tagRows, fieldRows);
    var kt := CellText(CellAt(tagRows[i], 0));
    var kf := CellText(CellAt(fieldRows[j], 0));
    var t := r[i].value;
    var f := r[|tagRows| + j].value;
    assert t == kt + "::tag";
    assert f == kf + "::field";
    assert t[..|t| - 5] == kt && t[|t| - 5..] == "::tag";
    assert f[..|f| - 7] == kf && f[|f| - 7..] == "::field";
    assert t[|t| - 1] == 'g' && f[|f| - 1] == 'd';
  }
}
