/**
 * The operator registry of the visual editor: every operator name with its
 * category, default parameters, insertion strategy and renderer, the
 * registration that fills the global tables, and the four renderers.
 */
module Operators {
  import opened Wrappers
  import opened Types
  import Text

  /** Every registered operator, in registration order. */
  datatype OpName =
    | Field
    | Count | Distinct | Integral | Mean | Median | Mode | Sum
    | Derivative | Spread | NonNegativeDerivative | Difference | NonNegativeDifference
    | MovingAverage | CumulativeSum | Stddev | Elapsed
    | HoltWinters | HoltWintersWithFit
    | Bottom | First | Last | Max | Min | Percentile | Top
    | Time | Fill | Tag
    | MathOp
    | AliasOp

  /** How a new part is placed into a select chain. */
  datatype Strategy = AddFieldStrategy | AddAggregations | AddTransformation | AddMath | AddAlias

  /** How a part renders, given the text of the parts before it. */
  datatype Renderer = FieldRenderer | FunctionRenderer | SuffixRenderer | AliasRenderer

  /** The operator's `type`, the key under which it is registered. */
  function TypeName(op: OpName): string {
    match op
    case Field => "field"
    case Count => "count"
    case Distinct => "distinct"
    case Integral => "integral"
    case Mean => "mean"
    case Median => "median"
    case Mode => "mode"
    case Sum => "sum"
    case Derivative => "derivative"
    case Spread => "spread"
    case NonNegativeDerivative => "non_negative_derivative"
    case Difference => "difference"
    case NonNegativeDifference => "non_negative_difference"
    case MovingAverage => "moving_average"
    case CumulativeSum => "cumulative_sum"
    case Stddev => "stddev"
    case Elapsed => "elapsed"
    case HoltWinters => "holt_winters"
    case HoltWintersWithFit => "holt_winters_with_fit"
    case Bottom => "bottom"
    case First => "first"
    case Last => "last"
    case Max => "max"
    case Min => "min"
    case Percentile => "percentile"
    case Top => "top"
    case Time => "time"
    case Fill => "fill"
    case Tag => "tag"
    case MathOp => "math"
    case AliasOp => "alias"
  }

  /** `operators[name]`: the registered operator with that `type`, if any. */
  function Lookup(name: string): Option<OpName> {
    match name
    case "field" => Some(Field)
    case "count" => Some(Count)
    case "distinct" => Some(Distinct)
    case "integral" => Some(Integral)
    case "mean" => Some(Mean)
    case "median" => Some(Median)
    case "mode" => Some(Mode)
    case "sum" => Some(Sum)
    case "derivative" => Some(Derivative)
    case "spread" => Some(Spread)
    case "non_negative_derivative" => Some(NonNegativeDerivative)
    case "difference" => Some(Difference)
    case "non_negative_difference" => Some(NonNegativeDifference)
    case "moving_average" => Some(MovingAverage)
    case "cumulative_sum" => Some(CumulativeSum)
    case "stddev" => Some(Stddev)
    case "elapsed" => Some(Elapsed)
    case "holt_winters" => Some(HoltWinters)
    case "holt_winters_with_fit" => Some(HoltWintersWithFit)
    case "bottom" => Some(Bottom)
    case "first" => Some(First)
    case "last" => Some(Last)
    case "max" => Some(Max)
    case "min" => Some(Min)
    case "percentile" => Some(Percentile)
    case "top" => Some(Top)
    case "time" => Some(Time)
    case "fill" => Some(Fill)
    case "tag" => Some(Tag)
    case "math" => Some(MathOp)
    case "alias" => Some(AliasOp)
    case _ => None
  }

  /** Every operator is found under its own name. */
  lemma LookupTypeName(op: OpName)
    ensures Lookup(TypeName(op)) == Some(op)
  {
    match CategoryOf(op)
    case Fields | Aggregations => LookupFieldOrAggregation(op);
    case Transformations | Predictors => LookupTransformationOrPredictor(op);
    case Selectors => LookupSelector(op);
    case GroupbyCategory | Math | Aliasing => LookupOther(op);
  }

  lemma LookupFieldOrAggregation(op: OpName)
    requires CategoryOf(op) == Fields || CategoryOf(op) == Aggregations
    ensures Lookup(TypeName(op)) == Some(op)
  {
  }

  lemma LookupTransformationOrPredictor(op: OpName)
    requires CategoryOf(op) == Transformations || CategoryOf(op) == Predictors
    ensures Lookup(TypeName(op)) == Some(op)
  {
  }

  lemma LookupSelector(op: OpName)
    requires CategoryOf(op) == Selectors
    ensures Lookup(TypeName(op)) == Some(op)
  {
  }

  lemma LookupOther(op: OpName)
    requires CategoryOf(op) == GroupbyCategory || CategoryOf(op) == Math || CategoryOf(op) == Aliasing
    ensures Lookup(TypeName(op)) == Some(op)
  {
  }

  /** A name that is found is the name of the operator found: the registry has no aliases. */
  lemma TypeNameOfLookup(name: string)
    requires Lookup(name).Some?
    ensures TypeName(Lookup(name).value) == name
  {
  }

  function CategoryOf(op: OpName): Category {
    match op
    case Field => Fields
    case Count | Distinct | Integral | Mean | Median | Mode | Sum => Aggregations
    case Derivative | Spread | NonNegativeDerivative | Difference | NonNegativeDifference
      | MovingAverage | CumulativeSum | Stddev | Elapsed => Transformations
    case HoltWinters | HoltWintersWithFit => Predictors
    case Bottom | First | Last | Max | Min | Percentile | Top => Selectors
    case Time | Fill | Tag => GroupbyCategory
    case MathOp => Math
    case AliasOp => Aliasing
  }

  function DefaultParams(op: OpName): seq<Param> {
    match op
    case Field => [PStr("value")]
    case Derivative | NonNegativeDerivative | Elapsed => [PStr("10s")]
    case MovingAverage => [PNum(10)]
    case HoltWinters | HoltWintersWithFit => [PNum(10), PNum(2)]
    case Bottom | Top => [PNum(3)]
    case Percentile => [PNum(95)]
    case Time => [PStr("$__interval")]
    case Fill => [PStr("null")]
    case Tag => [PStr("tag")]
    case MathOp => [PStr("/ 100")]
    case AliasOp => [PStr("alias")]
    case _ => []
  }

  /** The `addStrategy`; the three group-by operators register none. */
  function StrategyOf(op: OpName): Option<Strategy> {
    match CategoryOf(op)
    case Fields => Some(AddFieldStrategy)
    case Aggregations | Selectors => Some(AddAggregations)
    case Transformations | Predictors => Some(AddTransformation)
    case Math => Some(AddMath)
    case Aliasing => Some(AddAlias)
    case GroupbyCategory => None
  }

  function RendererOf(op: OpName): Renderer {
    match op
    case Field | Tag => FieldRenderer
    case MathOp => SuffixRenderer
    case AliasOp => AliasRenderer
    case _ => FunctionRenderer
  }

  /** The `isOperator` flag of `register`: false exactly for the group-by operators. */
  predicate IsOperator(op: OpName) {
    CategoryOf(op) != GroupbyCategory
  }

  /** The order in which the module registers its operators. */
  const Registrations: seq<OpName> := [
    Field,
    Count, Distinct, Integral, Mean, Median, Mode, Sum,
    Derivative, Spread, NonNegativeDerivative, Difference, NonNegativeDifference,
    MovingAverage, CumulativeSum, Stddev, Elapsed,
    HoltWinters, HoltWintersWithFit,
    Bottom, First, Last, Max, Min, Percentile, Top,
    Time, Fill, Tag,
    MathOp,
    AliasOp
  ]

  lemma RegistrationsComplete(op: OpName)
    ensures op in Registrations
  {
  }

  /** The operators of one category in registration order: `categories[c]`. */
  function MembersIn(ops: seq<OpName>, c: Category): (r: seq<OpName>)
    ensures forall k | 0 <= k < |r| :: CategoryOf(r[k]) == c && r[k] in ops
    ensures forall op | op in ops && CategoryOf(op) == c :: op in r
  {
    if |ops| == 0 then []
    else MembersIn(ops[..|ops| - 1], c) + (if CategoryOf(ops[|ops| - 1]) == c then [ops[|ops| - 1]] else [])
  }

  /** The group-by operators in registration order: `groupByCategory`. */
  function GroupbyMembers(ops: seq<OpName>): (r: seq<OpName>)
    ensures forall k | 0 <= k < |r| :: !IsOperator(r[k]) && r[k] in ops
    ensures forall op | op in ops && !IsOperator(op) :: op in r
  {
    if |ops| == 0 then []
    else GroupbyMembers(ops[..|ops| - 1]) + (if !IsOperator(ops[|ops| - 1]) then [ops[|ops| - 1]] else [])
  }

  lemma MembersSnoc(ops: seq<OpName>, op: OpName)
    ensures forall c :: MembersIn(ops + [op], c) == MembersIn(ops, c) + (if CategoryOf(op) == c then [op] else [])
    ensures GroupbyMembers(ops + [op]) == GroupbyMembers(ops) + (if !IsOperator(op) then [op] else [])
  {
    assert (ops + [op])[..|ops|] == ops;
  }

  /** The module-level `operators`, `categories` and `groupByCategory` tables. */
  class OperatorTable {
    var operators: map<string, OpName>
    var categories: map<Category, seq<OpName>>
    var groupByCategory: seq<OpName>

    /** The tables before any registration: every `CategoryType` list is empty. */
    constructor ()
      ensures operators == map[]
      ensures forall c | c != GroupbyCategory :: c in categories && categories[c] == []
      ensures GroupbyCategory !in categories
      ensures groupByCategory == []
    {
      operators := map[];
      categories := map[
        Aggregations := [], Selectors := [], Transformations := [], Predictors := [],
        Math := [], Aliasing := [], Fields := []];
      groupByCategory := [];
    }

    /**
     * `register(options, isOperator)`: record the operator under its name
     * and append it to its category's list, or to the group-by list.
     */
    method Register(op: OpName, isOperator: bool)
      requires isOperator ==> CategoryOf(op) in categories
      modifies this
      ensures operators == old(operators)[TypeName(op) := op]
      ensures isOperator ==> categories == old(categories)[CategoryOf(op) := old(categories)[CategoryOf(op)] + [op]]
      ensures isOperator ==> groupByCategory == old(groupByCategory)
      ensures !isOperator ==> categories == old(categories)
      ensures !isOperator ==> groupByCategory == old(groupByCategory) + [op]
    {
      operators := operators[TypeName(op) := op];
      if isOperator {
        categories := categories[CategoryOf(op) := categories[CategoryOf(op)] + [op]];
      } else {
        groupByCategory := groupByCategory + [op];
      }
    }
  }

  /**
   * Running every registration of the module builds tables that agree with
   * `Lookup` and `CategoryOf`: each name maps to its operator, each
   * category lists its operators in registration order.
   */
  method RegisterAll() returns (t: OperatorTable)
    ensures forall name :: name in t.operators <==> Lookup(name).Some?
    ensures forall name | name in t.operators :: t.operators[name] == Lookup(name).value
    ensures CategoriesOf(t.categories, Registrations)
    ensures t.groupByCategory == GroupbyMembers(Registrations)
  {
    t := new OperatorTable();
    assert CategoriesOf(t.categories, []);
    RegisterInOrder(t, Registrations);
    RegisteredNamesAgreeWithLookup();
  }

  /** `categories[c]` lists the operators of `ops` in category `c`, for every category but group-by. */
  predicate CategoriesOf(categories: map<Category, seq<OpName>>, ops: seq<OpName>) {
    GroupbyCategory !in categories
    && forall c | c != GroupbyCategory :: c in categories && categories[c] == MembersIn(ops, c)
  }

  /** The three tables after registering `ops` in order. */
  predicate TablesOf(operators: map<string, OpName>, categories: map<Category, seq<OpName>>, groupByCategory: seq<OpName>,
                     ops: seq<OpName>) {
    operators == NameMap(ops) && CategoriesOf(categories, ops) && groupByCategory == GroupbyMembers(ops)
  }

  /** The registrations of `ops`, one after the other, on fresh tables. */
  method RegisterInOrder(t: OperatorTable, ops: seq<OpName>)
    requires t.operators == map[] && t.groupByCategory == [] && CategoriesOf(t.categories, [])
    modifies t
    ensures TablesOf(t.operators, t.categories, t.groupByCategory, ops)
  {
    var i := 0;
    while i < |ops|
      invariant 0 <= i <= |ops|
      invariant TablesOf(t.operators, t.categories, t.groupByCategory, ops[..i])
    {
      var op := ops[i];
      ghost var done := ops[..i];
      assert ops[..i + 1] == done + [op];
      RegisterStep(t.categories, done, op);
      t.Register(op, IsOperator(op));
      i := i + 1;
    }
    assert ops[..i] == ops;
  }

  /** What one registration does to the three tables, in terms of the registrations so far. */
  lemma RegisterStep(categories: map<Category, seq<OpName>>, ops: seq<OpName>, op: OpName)
    requires CategoriesOf(categories, ops)
    ensures IsOperator(op) ==> CategoryOf(op) in categories
    ensures IsOperator(op) ==> CategoriesOf(categories[CategoryOf(op) := categories[CategoryOf(op)] + [op]], ops + [op])
    ensures !IsOperator(op) ==> CategoriesOf(categories, ops + [op])
    ensures NameMap(ops + [op]) == NameMap(ops)[TypeName(op) := op]
    ensures GroupbyMembers(ops + [op]) == GroupbyMembers(ops) + (if !IsOperator(op) then [op] else [])
  {
    MembersSnoc(ops, op);
    assert (ops + [op])[..|ops|] == ops;
  }

  /** The names the registrations define are exactly those `Lookup` knows, with the same operators. */
  lemma RegisteredNamesAgreeWithLookup()
    ensures forall name :: name in NameMap(Registrations) <==> Lookup(name).Some?
    ensures forall name | name in NameMap(Registrations) :: NameMap(Registrations)[name] == Lookup(name).value
  {
    NameMapAgreesWithLookup(Registrations);
    forall name | Lookup(name).Some?
      ensures name in NameMap(Registrations)
    {
      TypeNameOfLookup(name);
      RegistrationsComplete(Lookup(name).value);
    }
  }

  function NameMap(ops: seq<OpName>): map<string, OpName> {
    if |ops| == 0 then map[] else NameMap(ops[..|ops| - 1])[TypeName(ops[|ops| - 1]) := ops[|ops| - 1]]
  }

  lemma {:induction false} NameMapAgreesWithLookup(ops: seq<OpName>)
    ensures forall name | name in NameMap(ops) :: Lookup(name) == Some(NameMap(ops)[name])
    ensures forall op | op in ops :: TypeName(op) in NameMap(ops)
  {
    if |ops| > 0 {
      var last := ops[|ops| - 1];
      NameMapAgreesWithLookup(ops[..|ops| - 1]);
      LookupTypeName(last);
      assert ops == ops[..|ops| - 1] + [last];
    }
  }

  // ---------------------------------------------------------------------
  // Renderers

  datatype RenderError =
    | UnknownOperator(kind: string)   // `operators[type]` is undefined
    | FieldNotAString(kind: string)   // `endsWith` called on a number or on `undefined`

  /**
   * The quoted column name: `"x"`, with a `::tag` or `::field` suffix moved
   * after the closing quote. Shared by the field renderer and WHERE keys.
   */
  function QuotedKey(key: string): string {
    if Text.EndsWith(key, "::field") then "\"" + key[..|key| - 7] + "\"::field"
    else if Text.EndsWith(key, "::tag") then "\"" + key[..|key| - 5] + "\"::tag"
    else "\"" + key + "\""
  }

  /** The inverse of `QuotedKey`: strip the quotes and put the suffix back. */
  function UnquoteKey(t: string): string {
    if |t| >= 9 && Text.EndsWith(t, "\"::field") then t[1..|t| - 8] + "::field"
    else if |t| >= 7 && Text.EndsWith(t, "\"::tag") then t[1..|t| - 6] + "::tag"
    else if |t| >= 2 then t[1..|t| - 1]
    else t
  }

  /** Quoting a key loses nothing: the key can be read back from its quoted form. */
  lemma UnquoteQuotedKey(key: string)
    ensures UnquoteKey(QuotedKey(key)) == key
  {
    var q := QuotedKey(key);
    if Text.EndsWith(key, "::field") {
      assert q[|q| - 8..] == "\"::field";
      assert q[1..|q| - 8] == key[..|key| - 7];
      assert key == key[..|key| - 7] + "::field";
    } else if Text.EndsWith(key, "::tag") {
      assert !Text.EndsWith(q, "\"::field") by { assert q[|q| - 1] == 'g'; }
      assert q[|q| - 6..] == "\"::tag";
      assert q[1..|q| - 6] == key[..|key| - 5];
      assert key == key[..|key| - 5] + "::tag";
    } else {
      assert q[|q| - 1] == '"';
      assert !Text.EndsWith(q, "\"::field");
      assert !Text.EndsWith(q, "\"::tag");
      assert q[1..|q| - 1] == key;
    }
  }

  /** `fieldRenderer`: `*` stays bare, anything else is a quoted key. */
  function FieldText(value: string): (r: string)
    ensures value != "*" ==> UnquoteKey(r) == value
  {
    UnquoteQuotedKey(value);
    if value == "*" then "*" else QuotedKey(value)
  }

  /** `fieldRenderer` on a part: its first parameter must be a string, and the inner text is ignored. */
  function RenderField(kind: string, params: seq<Param>): Result<string, RenderError> {
    if |params| > 0 && params[0].PStr? then Success(FieldText(params[0].str))
    else Failure(FieldNotAString(kind))
  }

  /** `functionRenderer`: `kind(args)`, with a non-empty inner text as the first argument. */
  function FunctionText(kind: string, params: seq<Param>, text: string): string {
    var args := seq(|params|, i requires 0 <= i < |params| => ParamText(params[i]));
    kind + "(" + Text.Join((if text != "" then [text] else []) + args, ", ") + ")"
  }

  /** `suffixRenderer`: the inner text, a space, then the first parameter. */
  function SuffixText(params: seq<Param>, text: string): string {
    text + " " + FirstParamText(params)
  }

  /** `aliasRenderer`: the inner text followed by ` AS "name"`. */
  function AliasText(params: seq<Param>, text: string): string {
    text + " AS \"" + FirstParamText(params) + "\""
  }

  /** `operators[kind].renderer(part, text)`. */
  function RenderPart(kind: string, params: seq<Param>, text: string): (r: Result<string, RenderError>)
    ensures Lookup(kind).None? ==> r == Failure(UnknownOperator(kind))
    ensures r.Success? ==> |r.value| > 0
  {
    match Lookup(kind)
    case None => Failure(UnknownOperator(kind))
    case Some(op) =>
      match RendererOf(op)
      case FieldRenderer => RenderField(kind, params)
      case FunctionRenderer => Success(FunctionText(kind, params, text))
      case SuffixRenderer => Success(SuffixText(params, text))
      case AliasRenderer => Success(AliasText(params, text))
  }

  /**
   * A function call nests the inner text as its first argument, ahead of
   * its own parameters, and only when there is inner text.
   */
  lemma {:induction false} FunctionTextNests(kind: string, params: seq<Param>, text: string)
    ensures text == "" ==> FunctionText(kind, params, text) == kind + "(" + Text.Join(seq(|params|, i requires 0 <= i < |params| => ParamText(params[i])), ", ") + ")"
    ensures text != "" && |params| == 0 ==> FunctionText(kind, params, text) == kind + "(" + text + ")"
    ensures text != "" && |params| > 0 ==>
      FunctionText(kind, params, text)
      == kind + "(" + text + ", " + Text.Join(seq(|params|, i requires 0 <= i < |params| => ParamText(params[i])), ", ") + ")"
  {
    var args := seq(|params|, i requires 0 <= i < |params| => ParamText(params[i]));
    if text != "" {
      if |params| == 0 {
        assert [text] + args == [text];
      } else {
        Text.JoinCons(text, args, ", ");
      }
    } else {
      assert [] + args == args;
    }
  }
}
