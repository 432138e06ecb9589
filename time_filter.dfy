/**
 * The time range of a panel request rendered as an openGemini predicate,
 * and its substitution for `$timeFilter` in the query text of one target
 * (`timeTransform`, `timeFilter` and the text step of `query` in the data
 * source).
 */
module TimeFilter {
  import opened Wrappers
  import Text

  /**
   * `rangeRaw.from` or `rangeRaw.to`: missing, a relative or absolute
   * date string, or a date object, of which only its epoch milliseconds
   * (`valueOf()`) are used.
   */
  datatype RawTime = Missing | TimeText(text: string) | Moment(millis: int)

  datatype TimeError = UnparsableDate(text: string)

  /** What `query` does with one target: nothing to send, or the text to send. */
  datatype Prepared = EmptyFrame | Send(queryText: string)

  predicate IsUnit(c: char) {
    c == 'd' || c == 'h' || c == 'm' || c == 's'
  }

  predicate AllDigits(s: string) {
    forall i | 0 <= i < |s| :: Text.IsDigit(s[i])
  }

  /** The two groups of a match of `^now-(\d+)([dhms])$`. */
  datatype Relative = Relative(digits: string, unit: char)

  /** The match of `^now-(\d+)([dhms])$` against `s`, if any. */
  function RelativeNow(s: string): (r: Option<Relative>)
    ensures r.Some? ==> s == "now-" + r.value.digits + [r.value.unit]
    ensures r.Some? ==> |r.value.digits| > 0 && AllDigits(r.value.digits) && IsUnit(r.value.unit)
  {
    if |s| >= 6 && s[..4] == "now-" && IsUnit(s[|s| - 1]) && AllDigits(s[4..|s| - 1]) then
      assert s == s[..4] + s[4..|s| - 1] + [s[|s| - 1]];
      Some(Relative(s[4..|s| - 1], s[|s| - 1]))
    else None
  }

  /** Every string of the regular expression's shape matches, with its own groups. */
  lemma RelativeNowMatches(digits: string, unit: char)
    requires |digits| > 0 && AllDigits(digits) && IsUnit(unit)
    ensures RelativeNow("now-" + digits + [unit]) == Some(Relative(digits, unit))
  {
    var s := "now-" + digits + [unit];
    assert s[..4] == "now-" && s[|s| - 1] == unit && s[4..|s| - 1] == digits;
  }

  /** `parseInt(digits, 10)` on a run of decimal digits is their value. */
  lemma ParseDigits(digits: string)
    requires |digits| > 0 && AllDigits(digits)
    ensures Text.ParseIntJs(digits) == Some(Text.DigitsValue(digits) as int)
  {
    assert !Text.IsJsWhitespace(digits[0]);
    assert Text.SkipWhitespace(digits) == digits;
    assert digits[0] != '-' && digits[0] != '+';
    Text.LeadingDigitsAll(digits);
  }

  /**
   * `timeTransform(date, false, timezone)`, with the date-math parser and
   * its rounding and time zone as the parameter `parse`. Falsy dates render
   * as the empty text, `now` and `now-N<unit>` as openGemini's `now()`
   * arithmetic, and everything else as epoch milliseconds with `ms`.
   */
  function TimeTransform(date: RawTime, parse: string -> Option<int>): (r: Result<string, TimeError>)
    ensures date.Missing? || date == TimeText("") ==> r == Success("")
    ensures date == TimeText("now") ==> r == Success("now()")
    ensures date.Moment? ==> r == Success(Text.IntToString(date.millis) + "ms")
    ensures r.Failure? <==>
      date.TimeText? && date.text != "" && date.text != "now" && RelativeNow(date.text).None?
      && parse(date.text).None?
    ensures r.Failure? ==> r.error == UnparsableDate(date.text)
  {
    match date
    case Missing => Success("")
    case Moment(millis) => Success(Text.IntToString(millis) + "ms")
    case TimeText(s) =>
      if s == "" then Success("")
      else if s == "now" then Success("now()")
      else
        match RelativeNow(s)
        case Some(rel) =>
          ParseDigits(rel.digits);
          var amount := Text.ParseIntJs(rel.digits).value;
          Success("now() - " + Text.IntToString(amount) + [rel.unit])
        case None =>
          match parse(s)
          case None => Failure(UnparsableDate(s))
          case Some(millis) => Success(Text.IntToString(millis) + "ms")
  }

  /**
   * `now-N<unit>` renders as `now() - N<unit>` whatever the date parser
   * does, with `N` read back as a decimal number.
   */
  lemma RelativeRoundTrip(n: nat, unit: char, parse: string -> Option<int>)
    requires IsUnit(unit)
    ensures TimeTransform(TimeText("now-" + Text.NatToString(n) + [unit]), parse)
      == Success("now() - " + Text.NatToString(n) + [unit])
  {
    var digits := Text.NatToString(n);
    RelativeNowMatches(digits, unit);
    ParseDigits(digits);
    Text.DigitsValueOfNatToString(n);
  }

  /** Leading zeros of the amount are dropped: `now-007m` renders as `now() - 7m`. */
  lemma LeadingZerosDropped(parse: string -> Option<int>)
    ensures TimeTransform(TimeText("now-007m"), parse) == Success("now() - " + "7" + "m")
  {
    ZeroPaddedSeven();
    RelativeNowMatches("007", 'm');
    ParseDigits("007");
  }

  lemma ZeroPaddedSeven()
    ensures "now-007m" == "now-" + "007" + ['m']
    ensures Text.DigitsValue("007") == 7
    ensures Text.IntToString(7) == "7"
  {
    assert "007"[..2] == "00" && "00"[..1] == "0" && "0"[..0] == "";
    assert Text.IntToString(7) == [Text.DigitChar(7)];
  }

  /** The predicate `time >= from and time <= to`: the lower bound first, the upper bound last. */
  function RangeText(from: string, to: string): (r: string)
    ensures Text.StartsWith(r, "time >= " + from + " and time <= ")
    ensures Text.EndsWith(r, " and time <= " + to)
  {
    var head := "time >= " + from + " and time <= ";
    var r := head + to;
    assert r[..|head|] == head;
    assert r[|r| - |" and time <= " + to|..] == " and time <= " + to;
    r
  }

  /** `timeFilter`: both ends rendered, `from` first, joined into one predicate. */
  function Filter(from: RawTime, to: RawTime, parse: string -> Option<int>): (r: Result<string, TimeError>)
    ensures r.Success? <==> TimeTransform(from, parse).Success? && TimeTransform(to, parse).Success?
    ensures TimeTransform(from, parse).Failure? ==> r == Failure(TimeTransform(from, parse).error)
    ensures r.Success? ==> r.value == RangeText(TimeTransform(from, parse).value, TimeTransform(to, parse).value)
  {
    var f := TimeTransform(from, parse);
    if f.Failure? then Failure(f.error)
    else
      var t := TimeTransform(to, parse);
      if t.Failure? then Failure(t.error)
      else Success(RangeText(f.value, t.value))
  }

  /**
   * The text step of `query` for one target: empty text needs no request;
   * otherwise the filter is rendered (a bad date throws even when the text
   * has no placeholder) and replaces the first `$timeFilter` only.
   */
  function PrepareQuery(text: string, from: RawTime, to: RawTime, parse: string -> Option<int>)
    : (r: Result<Prepared, TimeError>)
    ensures text == "" ==> r == Success(EmptyFrame)
    ensures text != "" ==> (r.Success? <==> Filter(from, to, parse).Success?)
    ensures text != "" && r.Success? && !Text.Contains(text, "$timeFilter") ==> r.value == Send(text)
    ensures text != "" && r.Success? && Text.Contains(text, "$timeFilter") ==>
      var i := Text.IndexOf(text, "$timeFilter").value;
      r.value == Send(text[..i] + Filter(from, to, parse).value + text[i + 11..])
  {
    if text == "" then Success(EmptyFrame)
    else
      match Filter(from, to, parse)
      case Failure(e) => Failure(e)
      case Success(f) => Success(Send(Text.ReplaceFirst(text, "$timeFilter", f)))
  }

  /** Only the first placeholder is replaced: a second one survives in the text sent. */
  lemma SecondPlaceholderSurvives(text: string, from: RawTime, to: RawTime, parse: string -> Option<int>)
    requires Text.Contains(text, "$timeFilter")
    requires Text.Contains(text[Text.IndexOf(text, "$timeFilter").value + 11..], "$timeFilter")
    requires Filter(from, to, parse).Success?
    ensures PrepareQuery(text, from, to, parse).Success?
    ensures Text.Contains(PrepareQuery(text, from, to, parse).value.queryText, "$timeFilter")
  {
    var i := Text.IndexOf(text, "$timeFilter").value;
    var rest := text[i + 11..];
    var j := Text.IndexOf(rest, "$timeFilter").value;
    var pre := text[..i] + Filter(from, to, parse).value;
    assert PrepareQuery(text, from, to, parse).value.queryText == pre + rest;
    ShiftOccurrence(pre, rest, "$timeFilter", j);
  }

  /** The sample query text of the data source tests. */
  function SampleText(): string {
    "SELECT * FROM h2o_pH WHERE $timeFilter"
  }

  lemma SamplePlaceholder(filter: string)
    ensures Text.Contains(SampleText(), "$timeFilter")
    ensures Text.IndexOf(SampleText(), "$timeFilter") == Some(27)
    ensures SampleText()[..27] + filter + SampleText()[38..] == "SELECT * FROM h2o_pH WHERE " + filter
  {
    var s := SampleText();
    assert Text.OccursAt(s, "$timeFilter", 27) by {
      assert s[27..38] == "$timeFilter";
    }
    assert forall i | 0 <= i < 27 :: !Text.OccursAt(s, "$timeFilter", i) by {
      forall i | 0 <= i < 27
        ensures !Text.OccursAt(s, "$timeFilter", i)
      {
        assert s[i] != '$';
        if i + 11 <= |s| {
          assert s[i..i + 11][0] == s[i];
        }
      }
    }
    assert s[..27] == "SELECT * FROM h2o_pH WHERE " && s[38..] == "";
  }

  /** Any range whose ends render as `from` and `to` fills the sample text (src/test/datasource.test.ts:172-206). */
  lemma SampleQuery(fromDate: RawTime, toDate: RawTime, parse: string -> Option<int>, from: string, to: string)
    requires TimeTransform(fromDate, parse) == Success(from) && TimeTransform(toDate, parse) == Success(to)
    ensures PrepareQuery(SampleText(), fromDate, toDate, parse)
      == Success(Send("SELECT * FROM h2o_pH WHERE " + ("time >= " + from + " and time <= " + to)))
  {
    SamplePlaceholder("time >= " + from + " and time <= " + to);
  }

  /** `now-2d` to `now` (src/test/datasource.test.ts:196-206). */
  lemma RelativeRange(parse: string -> Option<int>)
    ensures PrepareQuery(SampleText(), TimeText("now-2d"), TimeText("now"), parse)
      == Success(Send("SELECT * FROM h2o_pH WHERE " + ("time >= " + ("now() - " + "2" + "d") + " and time <= " + "now()")))
  {
    TwoDays(parse);
    SampleQuery(TimeText("now-2d"), TimeText("now"), parse, "now() - " + "2" + "d", "now()");
  }

  lemma TwoDays(parse: string -> Option<int>)
    ensures TimeTransform(TimeText("now-2d"), parse) == Success("now() - " + "2" + "d")
  {
    TwoText();
    RelativeRoundTrip(2, 'd', parse);
  }

  lemma TwoText()
    ensures Text.NatToString(2) == "2"
    ensures "now-" + "2" + ['d'] == "now-2d"
  {
    assert Text.NatToString(2) == [Text.DigitChar(2)];
  }

  /**
   * Absolute dates go through the parser and render as milliseconds; `now`
   * does not (src/test/datasource.test.ts:172-195).
   */
  lemma AbsoluteRange(parse: string -> Option<int>, start: string, end: string, t0: nat, t1: nat)
    requires start != "" && start != "now" && RelativeNow(start).None? && parse(start) == Some(t0)
    requires end != "" && end != "now" && RelativeNow(end).None? && parse(end) == Some(t1)
    ensures PrepareQuery(SampleText(), TimeText(start), TimeText(end), parse)
      == Success(Send("SELECT * FROM h2o_pH WHERE "
           + ("time >= " + (Text.NatToString(t0) + "ms") + " and time <= " + (Text.NatToString(t1) + "ms"))))
    ensures PrepareQuery(SampleText(), TimeText(start), TimeText("now"), parse)
      == Success(Send("SELECT * FROM h2o_pH WHERE "
           + ("time >= " + (Text.NatToString(t0) + "ms") + " and time <= " + "now()")))
  {
    SampleQuery(TimeText(start), TimeText(end), parse, Text.NatToString(t0) + "ms", Text.NatToString(t1) + "ms");
    SampleQuery(TimeText(start), TimeText("now"), parse, Text.NatToString(t0) + "ms", "now()");
  }

  /** An ISO date is not of the relative shape, so it goes to the parser. */
  lemma IsoDateNotRelative()
    ensures RelativeNow("2023-01-01T00:00:00Z").None?
  {
    assert "2023-01-01T00:00:00Z"[..4] != "now-" by {
      assert "2023-01-01T00:00:00Z"[..4][0] == '2';
    }
  }

  lemma ShiftOccurrence(pre: string, rest: string, needle: string, j: int)
    requires Text.OccursAt(rest, needle, j)
    ensures Text.OccursAt(pre + rest, needle, |pre| + j)
  {
    assert (pre + rest)[|pre| + j..|pre| + j + |needle|] == rest[j..j + |needle|];
  }
}
