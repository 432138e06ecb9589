/**
 * `buildMetaQuery`: the `SHOW ...` statements the editor sends to list
 * databases, retention policies, measurements, tag keys and field keys.
 */
module MetaQuery {
  import opened Wrappers
  import opened Types
  import Text
  import QueryBuilder

  datatype MetadataQueryType = RetentionPolicies | FieldKeys | TagKeys | Measurements | Databases

  /**
   * `^/.*` followed by `/`, without an end anchor: a leading `/` and a
   * second `/` before any line terminator.
   */
  predicate StartsLikeRegex(s: string) {
    |s| >= 2 && s[0] == '/' && exists j | 1 <= j < |s| :: s[j] == '/' && Text.NoLineTerminator(s[1..j])
  }

  /** `^merge\(.*\)`: `merge(` and a `)` later on the same line. */
  predicate StartsLikeMerge(s: string) {
    Text.StartsWith(s, "merge(") && exists j | 6 <= j < |s| :: s[j] == ')' && Text.NoLineTerminator(s[6..j])
  }

  /** `$database` is replaced through the template service only when one is supplied. */
  function ResolvedDatabase(database: Option<string>, replace: Option<string -> string>): (r: Option<string>)
    ensures replace.None? ==> r == database
    ensures database != Some("$database") ==> r == database
    ensures database == Some("$database") && replace.Some? ==> r == Some(replace.value("$database"))
  {
    if database == Some("$database") && replace.Some? then Some(replace.value("$database")) else database
  }

  /** The measurement, double-quoted unless it looks like a regular expression or a `merge(...)`. */
  function MeasurementName(m: string): (r: string)
    ensures StartsLikeRegex(m) || StartsLikeMerge(m) ==> r == m
    ensures !StartsLikeRegex(m) && !StartsLikeMerge(m) ==> QueryBuilder.UnquoteName(r) == m && |r| > 0 && r[0] == '"'
  {
    if !StartsLikeRegex(m) && !StartsLikeMerge(m) then "\"" + m + "\"" else m
  }

  /** A retention policy qualifies the measurement unless it is empty or `default`. */
  predicate QualifiesMeasurement(rp: Option<string>) {
    rp.Some? && rp.value != "" && rp.value != "default"
  }

  /** The FROM target: the measurement, prefixed by `"rp".` when the policy qualifies it. */
  function MeasurementTarget(m: string, rp: Option<string>): (r: string)
    ensures !QualifiesMeasurement(rp) ==> r == MeasurementName(m)
    ensures QualifiesMeasurement(rp) ==> Text.EndsWith(r, "\"." + MeasurementName(m)) && r[0] == '"'
  {
    if QualifiesMeasurement(rp) then
      var r := "\"" + rp.value + "\"." + MeasurementName(m);
      assert r[|r| - |"\"." + MeasurementName(m)|..] == "\"." + MeasurementName(m);
      r
    else MeasurementName(m)
  }

  /** ` FROM target`, emitted only when a measurement is given. */
  function FromClause(m: string, rp: Option<string>): (r: string)
    ensures r == "" <==> m == ""
  {
    if m != "" then " FROM " + MeasurementTarget(m, rp) else ""
  }

  /** The three listings that name the database bare and may take a FROM. */
  predicate IsListing(kind: MetadataQueryType) {
    kind.FieldKeys? || kind.TagKeys? || kind.Measurements?
  }

  /** The statement keyword of each listing query. */
  function Keyword(kind: MetadataQueryType): string {
    match kind
    case RetentionPolicies => "RETENTION POLICIES"
    case FieldKeys => "FIELD KEYS"
    case TagKeys => "TAG KEYS"
    case Measurements => "MEASUREMENTS"
    case Databases => "DATABASES"
  }

  /**
   * `buildMetaQuery`: the database list is a fixed statement, retention
   * policies name a quoted database and never take a FROM, and the three
   * key and measurement listings name the database bare and take a FROM
   * exactly when a measurement is given.
   */
  function BuildMetaQuery(
    kind: MetadataQueryType, fromMeasurement: string, rp: Option<string>, database: Option<string>,
    replace: Option<string -> string>): (r: string)
    ensures kind == Databases ==> r == "SHOW DATABASES"
    ensures kind == RetentionPolicies ==>
      r == "SHOW RETENTION POLICIES on \"" + OptText(ResolvedDatabase(database, replace)) + "\""
    ensures IsListing(kind) ==>
      r == "SHOW " + Keyword(kind) + " on " + OptText(ResolvedDatabase(database, replace))
           + FromClause(fromMeasurement, rp)
  {
    var db := OptText(ResolvedDatabase(database, replace));
    match kind
    case RetentionPolicies => "SHOW RETENTION POLICIES on \"" + db + "\""
    case Databases => "SHOW DATABASES"
    case _ => "SHOW " + Keyword(kind) + " on " + db + FromClause(fromMeasurement, rp)
  }

  /** Without a measurement no FROM clause is emitted. */
  lemma NoMeasurementNoFrom(kind: MetadataQueryType, rp: Option<string>, database: Option<string>,
                            replace: Option<string -> string>)
    requires IsListing(kind)
    ensures BuildMetaQuery(kind, "", rp, database, replace)
      == "SHOW " + Keyword(kind) + " on " + OptText(ResolvedDatabase(database, replace))
  {
    assert FromClause("", rp) == "";
  }

  /** A `/.../` measurement that the query text builder leaves bare is left bare here too. */
  lemma RegexLiteralStartsLikeRegex(s: string)
    requires QueryBuilder.IsRegexLiteral(s)
    ensures StartsLikeRegex(s)
    ensures MeasurementName(s) == QueryBuilder.MeasurementText(s)
  {
    assert s[|s| - 1] == '/' && Text.NoLineTerminator(s[1..|s| - 1]);
  }

  /**
   * The converse fails: without an end anchor, `/cpu/x` counts as a
   * regular expression here but is quoted by the query text builder.
   */
  lemma BuildersDisagreeOnUnanchoredRegex()
    ensures StartsLikeRegex("/cpu/x") && !QueryBuilder.IsRegexLiteral("/cpu/x")
    ensures MeasurementName("/cpu/x") == "/cpu/x"
    ensures QueryBuilder.MeasurementText("/cpu/x") == "\"/cpu/x\""
  {
    var s := "/cpu/x";
    assert s[4] == '/' && Text.NoLineTerminator(s[1..4]);
    assert s[5] != '/';
  }

  lemma PlainMeasurement(m: string)
    requires |m| > 0 && m[0] != '/' && m[0] != 'm'
    ensures MeasurementName(m) == "\"" + m + "\""
  {
    assert !Text.StartsWith(m, "merge(") by {
      if |m| >= 6 {
        assert m[..6][0] == m[0];
      }
    }
  }

  /** The target of both key listings: `h2o_pH` under the `autogen` policy. */
  lemma SampleFromClause()
    ensures FromClause("h2o_pH", Some("autogen")) == " FROM \"autogen\".\"h2o_pH\""
  {
    PlainMeasurement("h2o_pH");
    SampleTarget(MeasurementName("h2o_pH"), FromClause("h2o_pH", Some("autogen")));
  }

  lemma SampleTarget(name: string, from: string)
    requires name == "\"" + "h2o_pH" + "\""
    requires from == " FROM " + ("\"" + "autogen" + "\"." + name)
    ensures from == " FROM \"autogen\".\"h2o_pH\""
  {
  }

  /** The field-key listing of src/test/client/client.test.ts:166. */
  lemma FieldKeysExample()
    ensures BuildMetaQuery(FieldKeys, "h2o_pH", Some("autogen"), Some("NOAA_water_database"), None)
      == "SHOW " + "FIELD KEYS" + " on " + "NOAA_water_database" + " FROM \"autogen\".\"h2o_pH\""
  {
    SampleFromClause();
    ListingExample(Keyword(FieldKeys), "FIELD KEYS", OptText(ResolvedDatabase(Some("NOAA_water_database"), None)),
      FromClause("h2o_pH", Some("autogen")));
  }

  /** The tag-key listing of src/test/client/client.test.ts:182. */
  lemma TagKeysExample()
    ensures BuildMetaQuery(TagKeys, "h2o_pH", Some("autogen"), Some("NOAA_water_database"), None)
      == "SHOW " + "TAG KEYS" + " on " + "NOAA_water_database" + " FROM \"autogen\".\"h2o_pH\""
  {
    SampleFromClause();
    ListingExample(Keyword(TagKeys), "TAG KEYS", OptText(ResolvedDatabase(Some("NOAA_water_database"), None)),
      FromClause("h2o_pH", Some("autogen")));
  }

  lemma ListingExample(keyword: string, expected: string, db: string, from: string)
    requires keyword == expected && db == "NOAA_water_database"
    requires from == " FROM \"autogen\".\"h2o_pH\""
    ensures "SHOW " + keyword + " on " + db + from
      == "SHOW " + expected + " on " + "NOAA_water_database" + " FROM \"autogen\".\"h2o_pH\""
  {
  }
}
