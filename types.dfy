/**
 * The editor's query state: select chains, group-by items, WHERE
 * statements and the fields of a query that the text builder reads.
 */
module Types {
  import opened Wrappers
  import Text

  /** `CategoryType` plus the group-by pseudo-category. */
  datatype Category =
    | Fields | Aggregations | Selectors | Transformations | Predictors | Math | Aliasing
    | GroupbyCategory

  /** A parameter of a select or group-by part: a string or a number. */
  datatype Param = PStr(str: string) | PNum(num: int)

  /** How a parameter prints inside a template literal or `join`. */
  function ParamText(p: Param): string {
    match p
    case PStr(s) => s
    case PNum(n) => Text.IntToString(n)
  }

  /** `${params[0]}`: a missing first parameter prints as `undefined`. */
  function FirstParamText(params: seq<Param>): string {
    if |params| == 0 then "undefined" else ParamText(params[0])
  }

  /** One part of a select chain; `kind` is the operator name (`type` in the source). */
  datatype SelectCondition = SelectCondition(kind: string, category: Category, params: seq<Param>)

  /** One GROUP BY item, such as `time($__interval)` or `tag(location)`. */
  datatype GroupbyCondition = GroupbyCondition(kind: string, params: seq<Param>)

  /**
   * `[key, operator, value, connector]`. An empty operator or connector
   * stands for a missing one: both are falsy and handled alike.
   */
  datatype WhereStatement = WhereStatement(key: string, operator: string, value: Param, connector: string)

  datatype Format = TimeSeries | Table | Logs

  /**
   * The query fields read by the builders. Optional strings whose absence
   * and emptiness behave alike are plain strings with `""` for absent;
   * `database` and `rp` are options because an absent one prints as
   * `undefined`. Absent lists are empty sequences.
   */
  datatype Query = Query(
    refId: string,
    queryText: string,
    rawQuery: bool,
    resultFormat: Option<Format>,
    alias: string,
    database: Option<string>,
    rp: Option<string>,
    fromMeasurement: string,
    whereConditions: seq<WhereStatement>,
    selectConditions: seq<seq<SelectCondition>>,
    groupbyConditions: seq<GroupbyCondition>,
    orderByTime: string,
    limit: string,
    offset: string,
    tz: string)

  /** `${x}` for an optional string. */
  function OptText(o: Option<string>): string {
    match o
    case None => "undefined"
    case Some(s) => s
  }
}

/** The decoded server response. */
module Wire {
  import opened Wrappers

  /** A JSON cell of a result row. */
  datatype Cell = Null | Str(str: string) | Num(num: int) | Bool(b: bool)

  /** `row[i]`: `None` stands for `undefined` when `i` is past the end of the row. */
  function CellAt(row: seq<Cell>, i: nat): (r: Option<Cell>)
    ensures r.Some? <==> i < |row|
    ensures i < |row| ==> r == Some(row[i])
  {
    if i < |row| then Some(row[i]) else None
  }

  /**
   * One series. `tags` keeps the JSON object's entries in order; `None` is
   * a series without a `tags` member. The entries of an object have
   * distinct keys (`Alias.DistinctKeys`); the functions that read them take
   * the first entry with a key, which is then the only one.
   */
  datatype Series = Series(
    name: string,
    columns: seq<string>,
    values: seq<seq<Cell>>,
    tags: Option<seq<(string, string)>>)

  /** One statement result; `series` is `None` when the member is missing. */
  datatype StatementResult = StatementResult(series: Option<seq<Series>>)
}
