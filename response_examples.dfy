/**
 * The response-mapping cases the client tests describe, worked out on the
 * model.
 */
module ResponseExamples {
  import opened Wrappers
  import opened Types
  import opened Wire
  import Text
  import Alias
  import opened ResponseMapper

  /** `h2o_pH` with one tag `location = coyote_creek` and two rows. */
  function TaggedSeries(): Series {
    Series("h2o_pH", ["time", "pH"], [[Num(1566000000000), Num(7)], [Num(1566000000001), Num(6)]],
      Some([("location", "coyote_creek")]))
  }

  function Target(format: Option<Format>, alias: string): Query {
    Query("A", "", false, format, alias, None, None, "", [], [], [], "", "", "", "")
  }

  lemma TaggedMerge()
    ensures MergeTags(TaggedSeries()) == Series("h2o_pH", ["time", "location", "pH"],
      [[Num(1566000000000), Str("coyote_creek"), Num(7)], [Num(1566000000001), Str("coyote_creek"), Num(6)]],
      Some([("location", "coyote_creek")]))
  {
    var s := TaggedSeries();
    var m := MergeTags(s);
    assert TagNames(s.tags.value) == ["location"];
    assert TagValues(s.tags.value) == ["coyote_creek"];
    SpliceOne(s.values[0], Num(1566000000000), Num(7), "coyote_creek");
    SpliceOne(s.values[1], Num(1566000000001), Num(6), "coyote_creek");
    assert m.columns == ["time"] + ["location"] + ["pH"];
    assert m.values == [m.values[0], m.values[1]];
  }

  lemma SpliceOne(row: seq<Cell>, a: Cell, b: Cell, v: string)
    requires row == [a, b]
    ensures SpliceRow(row, [v]) == [a, Str(v), b]
  {
    assert StrCells([v]) == [Str(v)];
    assert row[1..] == [b];
  }

  /** A column whose first cell is a number. */
  lemma NumberColumn(rows: seq<seq<Cell>>, k: nat, n: int)
    requires |rows| > 0 && k < |rows[0]| && rows[0][k] == Num(n)
    ensures ColumnType(rows, k) == NumberField
  {
    assert FirstNonNullFrom(rows, k, 0) == Some(0);
  }

  /** A column whose first cell is a string. */
  lemma StringColumn(rows: seq<seq<Cell>>, k: nat, v: string)
    requires |rows| > 0 && k < |rows[0]| && rows[0][k] == Str(v)
    ensures ColumnType(rows, k) == StringField
  {
    assert FirstNonNullFrom(rows, k, 0) == Some(0);
  }

  lemma ColumnOfTwo(rows: seq<seq<Cell>>, k: nat, a: Cell, b: Cell)
    requires |rows| == 2 && k < |rows[0]| && k < |rows[1]| && rows[0][k] == a && rows[1][k] == b
    ensures Column(rows, k) == [Some(a), Some(b)]
  {
  }

  /**
   * A tagged series in table mode (src/test/client/client.test.ts:269-295): the tag
   * becomes a string column after the time column, holding its value in
   * every row.
   */
  lemma TaggedTable()
    ensures QueryFrames(StatementResult(Some([TaggedSeries()])), Target(Some(Table), "")) ==
      [Frame(Some("A"), [
        Field(TimeField, "Time", [Some(Num(1566000000000)), Some(Num(1566000000001))]),
        Field(StringField, "location", [Some(Str("coyote_creek")), Some(Str("coyote_creek"))]),
        Field(NumberField, "pH", [Some(Num(7)), Some(Num(6))])], None)]
  {
    var ts := TaggedSeries();
    var m := MergeTags(ts);
    var fs := ResolveFields(m, Table, "");
    MergedTableFields();
    assert MergedAll([ts]) == [m];
    assert AllRows([m][1..]) == [];
    assert AppendRows(fs, []) == fs;
    assert QueryFrames(StatementResult(Some([ts])), Target(Some(Table), "")) == TableData([ts], "A", "", None);
  }

  lemma MergedTableFields()
    ensures ResolveFields(MergeTags(TaggedSeries()), Table, "") == [
        Field(TimeField, "Time", [Some(Num(1566000000000)), Some(Num(1566000000001))]),
        Field(StringField, "location", [Some(Str("coyote_creek")), Some(Str("coyote_creek"))]),
        Field(NumberField, "pH", [Some(Num(7)), Some(Num(6))])]
  {
    var m := MergeTags(TaggedSeries());
    TaggedMerge();
    ColumnOfTwo(m.values, 0, Num(1566000000000), Num(1566000000001));
    ColumnOfTwo(m.values, 1, Str("coyote_creek"), Str("coyote_creek"));
    ColumnOfTwo(m.values, 2, Num(7), Num(6));
    StringColumn(m.values, 1, "coyote_creek");
    NumberColumn(m.values, 2, 7);
    var fs := ResolveFields(m, Table, "");
    assert fs[0] == ResolveField(m, Table, "", 0);
    assert fs[1] == ResolveField(m, Table, "", 1);
    assert fs[2] == ResolveField(m, Table, "", 2);
  }

  /**
   * The same series in time-series mode with the alias `alias`
   * (src/test/client/client.test.ts:296-303): the value column takes the alias as
   * its name.
   */
  lemma TaggedTimeSeriesWithAlias()
    ensures QueryFrames(StatementResult(Some([TaggedSeries()])), Target(None, "alias")) ==
      [Frame(Some("A"), [
        Field(TimeField, "Time", [Some(Num(1566000000000)), Some(Num(1566000000001))]),
        Field(NumberField, "alias", [Some(Num(7)), Some(Num(6))])], None)]
  {
    var s := TaggedSeries();
    PlainAlias(s);
    AliasNamesValueColumn("alias");
    assert QueryFrames(StatementResult(Some([s])), Target(None, "alias")) == [SeriesFrame(s, "A", "alias")];
  }

  /** Any alias that expands to itself names the value column of the tagged series. */
  lemma AliasNamesValueColumn(alias: string)
    requires alias != "" && Alias.ResolveAlias(TaggedSeries(), alias, 1) == alias
    ensures SeriesFrame(TaggedSeries(), "A", alias) ==
      Frame(Some("A"), [
        Field(TimeField, "Time", [Some(Num(1566000000000)), Some(Num(1566000000001))]),
        Field(NumberField, alias, [Some(Num(7)), Some(Num(6))])], None)
  {
    var fs := ResolveFields(TaggedSeries(), TimeSeries, alias);
    TaggedFields(alias);
    KeepTwo(fs);
  }

  lemma TaggedFields(alias: string)
    requires alias != "" && Alias.ResolveAlias(TaggedSeries(), alias, 1) == alias
    ensures ResolveFields(TaggedSeries(), TimeSeries, alias) == [
        Field(TimeField, "Time", [Some(Num(1566000000000)), Some(Num(1566000000001))]),
        Field(NumberField, alias, [Some(Num(7)), Some(Num(6))])]
  {
    var s := TaggedSeries();
    ColumnOfTwo(s.values, 0, Num(1566000000000), Num(1566000000001));
    ColumnOfTwo(s.values, 1, Num(7), Num(6));
    NumberColumn(s.values, 1, 7);
    var fs := ResolveFields(s, TimeSeries, alias);
    assert fs[0] == ResolveField(s, TimeSeries, alias, 0);
    assert fs[1] == ResolveField(s, TimeSeries, alias, 1);
    assert FieldName(s, TimeSeries, alias, 1) == alias;
  }

  lemma KeepTwo(fs: seq<Field>)
    requires |fs| == 2 && IsTimeOrNumber(fs[0]) && IsTimeOrNumber(fs[1])
    ensures KeepTimeAndNumber(fs) == fs
  {
    assert fs[..1] == [fs[0]];
    assert [fs[0]][..0] == [];
  }

  lemma KeepFirstAndThird(fs: seq<Field>)
    requires |fs| == 3 && IsTimeOrNumber(fs[0]) && !IsTimeOrNumber(fs[1]) && IsTimeOrNumber(fs[2])
    ensures KeepTimeAndNumber(fs) == [fs[0], fs[2]]
  {
    assert fs[..2] == [fs[0], fs[1]];
    assert fs[..2][..1] == [fs[0]];
    assert [fs[0]][..0] == [];
  }

  lemma PlainAlias(s: Series)
    ensures Alias.ResolveAlias(s, "alias", 1) == "alias"
  {
    var a := "alias";
    assert !Text.Contains(a, "[[") by {
      forall i | 0 <= i <= |a|
        ensures !Text.OccursAt(a, "[[", i)
      {
        if i + 2 <= |a| {
          assert a[i..i + 2][0] == a[i] != '[';
        }
      }
    }
    Alias.PlainAliasUnchanged(s, a, 1);
  }

  /**
   * An untagged series in time-series mode (src/test/client.test.ts:186-203): the
   * string column is dropped and the number column is named `name.column`.
   */
  lemma UntaggedTimeSeries()
    ensures QueryFrames(StatementResult(Some([UntaggedSeries()])), Target(None, "")) ==
      [Frame(Some("A"), [
        Field(TimeField, "Time", [Some(Num(1566000000000)), Some(Num(1566000000001))]),
        Field(NumberField, "h2o_pH" + "." + "pH", [Some(Num(7)), Some(Num(6))])], None)]
  {
    var s := UntaggedSeries();
    var fs := ResolveFields(s, TimeSeries, "");
    UntaggedFields();
    KeepFirstAndThird(fs);
    assert SeriesFrame(s, "A", "") == Frame(Some("A"), [fs[0], fs[2]], None);
    assert QueryFrames(StatementResult(Some([s])), Target(None, "")) == [SeriesFrame(s, "A", "")];
  }

  /** `h2o_pH` without tags, with the location as a column. */
  function UntaggedSeries(): Series {
    Series("h2o_pH", ["time", "location", "pH"],
      [[Num(1566000000000), Str("coyote_creek"), Num(7)], [Num(1566000000001), Str("santa_monica"), Num(6)]], None)
  }

  lemma UntaggedFields()
    ensures var fs := ResolveFields(UntaggedSeries(), TimeSeries, "");
      |fs| == 3 && fs[1].kind == StringField &&
      fs[0] == Field(TimeField, "Time", [Some(Num(1566000000000)), Some(Num(1566000000001))]) &&
      fs[2] == Field(NumberField, "h2o_pH" + "." + "pH", [Some(Num(7)), Some(Num(6))])
  {
    var s := UntaggedSeries();
    StringColumn(s.values, 1, "coyote_creek");
    NumberColumn(s.values, 2, 7);
    ColumnOfTwo(s.values, 0, Num(1566000000000), Num(1566000000001));
    ColumnOfTwo(s.values, 2, Num(7), Num(6));
    var fs := ResolveFields(s, TimeSeries, "");
    assert fs[0] == ResolveField(s, TimeSeries, "", 0);
    assert fs[1] == ResolveField(s, TimeSeries, "", 1);
    assert fs[2] == ResolveField(s, TimeSeries, "", 2);
  }

  /** A statement without `series`, and a series without rows, give one empty frame (src/test/client.test.ts:137-166). */
  lemma EmptyResults(refId: string)
    ensures QueryFrames(StatementResult(None), Target(None, "")) == [EmptyFrame]
    ensures QueryFrames(StatementResult(Some([Series("h2o_pH", ["time", "location", "pH"], [], None)])),
      Target(None, "")) == [EmptyFrame]
  {
  }

  /** The key listing of src/test/client.test.ts:93-102: tag keys first, then field keys. */
  lemma ColumnConfigExample()
    ensures ColumnOptions([[Str("location")]],
        [[Str("level description"), Str("string")], [Str("water_level"), Str("float")]])
      == [ColumnOption("location" + "::tag", "location" + "::tag"),
          ColumnOption("level description" + "::field", "level description" + "::field"),
          ColumnOption("water_level" + "::field", "water_level" + "::field")]
  {
  }

  /** The queries of src/test/client.test.ts:125-131 for measurement `measurement` under policy `autogen`. */
  lemma ColumnConfigSqlExample()
    ensures ColumnConfigSql("measurement", "autogen")
      == ("SHOW TAG KEYS" + (" FROM " + ("autogen" + ".") + "measurement"),
          "SHOW FIELD KEYS" + (" FROM " + ("autogen" + ".") + "measurement"))
  {
    assert "measurement" != "" && "autogen" != "";
    assert KeysFrom("measurement", "autogen") == " FROM " + ("autogen" + ".") + "measurement";
  }
}
