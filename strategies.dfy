/**
 * The insertion strategies of the operator registry. Each one edits one
 * select chain of a cloned query in place; the placement functions state
 * where the new part ends up, and the draft's methods do the edit the way
 * the source does, with `splice`, `push` and index assignment.
 */
module Strategies {
  import opened Types
  import opened Seqs
  import Op = Operators

  predicate IsAggSel(c: Category) { c == Aggregations || c == Selectors }

  predicate IsMathOrAlias(c: Category) { c == Math || c == Aliasing }

  /** The index of the first Aggregation or Selector, `|s|` when there is none. */
  function FirstAggSel(s: seq<SelectCondition>): (k: nat)
    ensures k <= |s|
    ensures forall i | 0 <= i < k :: !IsAggSel(s[i].category)
    ensures k < |s| ==> IsAggSel(s[k].category)
  {
    if |s| == 0 then 0 else if IsAggSel(s[0].category) then 0 else 1 + FirstAggSel(s[1..])
  }

  /** The index of the first Math or Aliasing part, `|s|` when there is none. */
  function FirstMathOrAlias(s: seq<SelectCondition>): (k: nat)
    ensures k <= |s|
    ensures forall i | 0 <= i < k :: !IsMathOrAlias(s[i].category)
    ensures k < |s| ==> IsMathOrAlias(s[k].category)
  {
    if |s| == 0 then 0 else if IsMathOrAlias(s[0].category) then 0 else 1 + FirstMathOrAlias(s[1..])
  }

  /**
   * `addAggregations`: the first Aggregation or Selector decides.
   *  - An Aggregation of the same type: nothing changes.
   *  - `count` found while adding `distinct`: `distinct` goes in at index 1.
   *  - `distinct` found: adding `count` puts it right after unless a `count`
   *    is already there; adding anything else drops a following Aggregation
   *    and replaces `distinct`.
   *  - Any other Aggregation or a Selector is replaced.
   * With neither present the new part goes in at index 1.
   */
  function AggregationsPlacement(s: seq<SelectCondition>, x: SelectCondition): seq<SelectCondition> {
    var f := FirstAggSel(s);
    if f == |s| then Insert(s, Min(1, |s|), x)
    else if s[f].category == Aggregations then
      if s[f].kind == x.kind then s
      else if s[f].kind == "count" && x.kind == "distinct" then Insert(s, Min(1, |s|), x)
      else if s[f].kind == "distinct" && x.kind != "count" && f + 1 < |s| then
        if s[f + 1].category == Aggregations then RemoveAt(s, f + 1)[f := x] else s[f := x]
      else if s[f].kind == "distinct" && x.kind == "count" then
        if f + 1 >= |s| || s[f + 1].kind != "count" then Insert(s, f + 1, x) else s
      else s[f := x]
    else s[f := x]
  }

  /** `addTransformation`: insert before the first Math or Aliasing part, else append. */
  function TransformationPlacement(s: seq<SelectCondition>, x: SelectCondition): seq<SelectCondition> {
    Insert(s, FirstMathOrAlias(s), x)
  }

  /**
   * `addMath`: append after a trailing Math; insert at `count - 2` when the
   * second-to-last part is Math; insert before a trailing alias; else append.
   */
  function MathPlacement(s: seq<SelectCondition>, x: SelectCondition): seq<SelectCondition> {
    var n := |s|;
    if n > 0 && s[n - 1].category == Math then s + [x]
    else if n > 1 && s[n - 2].category == Math then Insert(s, n - 2, x)
    else if n > 0 && s[n - 1].category == Aliasing then Insert(s, n - 1, x)
    else s + [x]
  }

  /** `addAlias`: replace a trailing alias, else append. */
  function AliasPlacement(s: seq<SelectCondition>, x: SelectCondition): seq<SelectCondition> {
    var n := |s|;
    if n > 0 && s[n - 1].category == Aliasing then s[n - 1 := x] else s + [x]
  }

  /** The chains after a strategy ran on chain `index` with the new part `x`. */
  function ApplyStrategy(st: Op.Strategy, chains: seq<seq<SelectCondition>>, index: nat, x: SelectCondition)
    : (r: seq<seq<SelectCondition>>)
    requires index < |chains|
  {
    match st
    case AddFieldStrategy => chains + [chains[index]]
    case AddAggregations => chains[index := AggregationsPlacement(chains[index], x)]
    case AddTransformation => chains[index := TransformationPlacement(chains[index], x)]
    case AddMath => chains[index := MathPlacement(chains[index], x)]
    case AddAlias => chains[index := AliasPlacement(chains[index], x)]
  }

  /**
   * The deep copy of a query that the hooks edit: its select chains and
   * group-by list are changed in place, every other field is kept.
   */
  class QueryDraft {
    var selectConditions: seq<seq<SelectCondition>>
    var groupbyConditions: seq<GroupbyCondition>
    const base: Query

    constructor (q: Query)
      ensures base == q
      ensures selectConditions == q.selectConditions && groupbyConditions == q.groupbyConditions
    {
      base := q;
      selectConditions := q.selectConditions;
      groupbyConditions := q.groupbyConditions;
    }

    /** The edited query. */
    function Value(): (r: Query)
      reads this
      ensures r.selectConditions == selectConditions && r.groupbyConditions == groupbyConditions
      ensures r.(selectConditions := base.selectConditions, groupbyConditions := base.groupbyConditions) == base
    {
      base.(selectConditions := selectConditions, groupbyConditions := groupbyConditions)
    }

    /** `addField`: append a copy of chain `index` as a new chain; the chain itself is unchanged. */
    method AddField(index: nat)
      requires index < |selectConditions|
      modifies this`selectConditions
      ensures selectConditions == old(selectConditions) + [old(selectConditions)[index]]
    {
      var copy := selectConditions[index];
      selectConditions := selectConditions + [copy];
    }

    method AddAggregations(index: nat, x: SelectCondition)
      requires index < |selectConditions|
      modifies this`selectConditions
      ensures selectConditions == old(selectConditions)[index := AggregationsPlacement(old(selectConditions)[index], x)]
    {
      ghost var s := selectConditions[index];
      var i := 0;
      while i < |selectConditions[index]|
        invariant selectConditions == old(selectConditions)
        invariant 0 <= i <= |s|
        invariant forall j | 0 <= j < i :: !IsAggSel(s[j].category)
      {
        var part := selectConditions[index][i];
        if part.category == Aggregations {
          assert FirstAggSel(s) == i;
          if part.kind == x.kind {
            return;
          }
          // count and distinct can coexist
          if part.kind == "count" && x.kind == "distinct" {
            break;
          }
          if part.kind == "distinct" {
            var isNotLast := |selectConditions[index]| > i + 1;
            if x.kind != "count" && isNotLast {
              var next := selectConditions[index][i + 1];
              if next.category == Aggregations {
                selectConditions := selectConditions[index := RemoveAt(selectConditions[index], i + 1)];
              }
            } else if x.kind == "count" {
              if !isNotLast || selectConditions[index][i + 1].kind != "count" {
                selectConditions := selectConditions[index := Insert(selectConditions[index], i + 1, x)];
              }
              return;
            }
          }
          selectConditions := selectConditions[index := selectConditions[index][i := x]];
          return;
        }
        if part.category == Selectors {
          assert FirstAggSel(s) == i;
          selectConditions := selectConditions[index := selectConditions[index][i := x]];
          return;
        }
        i := i + 1;
      }
      selectConditions := selectConditions[index := Insert(selectConditions[index], Min(1, |selectConditions[index]|), x)];
    }

    method AddTransformation(index: nat, x: SelectCondition)
      requires index < |selectConditions|
      modifies this`selectConditions
      ensures selectConditions == old(selectConditions)[index := TransformationPlacement(old(selectConditions)[index], x)]
    {
      ghost var s := selectConditions[index];
      var i := 0;
      while i < |selectConditions[index]|
        invariant selectConditions == old(selectConditions)
        invariant 0 <= i <= |s|
        invariant forall j | 0 <= j < i :: !IsMathOrAlias(s[j].category)
      {
        var part := selectConditions[index][i];
        if part.category == Math || part.category == Aliasing {
          break;
        }
        i := i + 1;
      }
      assert i == FirstMathOrAlias(s);
      selectConditions := selectConditions[index := Insert(selectConditions[index], i, x)];
    }

    method AddMath(index: nat, x: SelectCondition)
      requires index < |selectConditions|
      modifies this`selectConditions
      ensures selectConditions == old(selectConditions)[index := MathPlacement(old(selectConditions)[index], x)]
    {
      var conditions := selectConditions[index];
      var count := |conditions|;
      if count > 0 {
        if conditions[count - 1].category == Math {
          selectConditions := selectConditions[index := conditions + [x]];
          return;
        } else if count > 1 && conditions[count - 2].category == Math {
          selectConditions := selectConditions[index := Insert(conditions, count - 2, x)];
          return;
        } else if conditions[count - 1].category == Aliasing {
          selectConditions := selectConditions[index := Insert(conditions, count - 1, x)];
          return;
        }
      }
      selectConditions := selectConditions[index := conditions + [x]];
    }

    method AddAlias(index: nat, x: SelectCondition)
      requires index < |selectConditions|
      modifies this`selectConditions
      ensures selectConditions == old(selectConditions)[index := AliasPlacement(old(selectConditions)[index], x)]
    {
      var conditions := selectConditions[index];
      var count := |conditions|;
      if count > 0 && conditions[count - 1].category == Aliasing {
        selectConditions := selectConditions[index := conditions[count - 1 := x]];
        return;
      }
      selectConditions := selectConditions[index := conditions + [x]];
    }

    /** `addOperator.addStrategy(newQuery.selectConditions[index], newSelect, newQuery)`. */
    method Apply(st: Op.Strategy, index: nat, x: SelectCondition)
      requires index < |selectConditions|
      modifies this`selectConditions
      ensures selectConditions == ApplyStrategy(st, old(selectConditions), index, x)
    {
      match st
      case AddFieldStrategy => AddField(index);
      case AddAggregations => AddAggregations(index, x);
      case AddTransformation => AddTransformation(index, x);
      case AddMath => AddMath(index, x);
      case AddAlias => AddAlias(index, x);
    }
  }

  // ---------------------------------------------------------------------
  // Where each strategy puts the new part

  /** `addTransformation` keeps every other part, in order, around the new one. */
  lemma TransformationPlacementKeepsOrder(s: seq<SelectCondition>, x: SelectCondition)
    ensures var r := TransformationPlacement(s, x); var k := FirstMathOrAlias(s);
      r == s[..k] + [x] + s[k..]
      && (forall i | 0 <= i < k :: !IsMathOrAlias(r[i].category))
      && (forall i | k < i < |r| :: r[i] == s[i - 1])
  {
  }

  /** A chain without Math or Aliasing parts gets the transformation appended. */
  lemma TransformationAppendsWithoutMath(s: seq<SelectCondition>, x: SelectCondition)
    requires forall i | 0 <= i < |s| :: !IsMathOrAlias(s[i].category)
    ensures TransformationPlacement(s, x) == s + [x]
  {
    assert FirstMathOrAlias(s) == |s|;
  }

  /** `addAlias` leaves exactly one alias at the end, whatever was there. */
  lemma AliasPlacementEndsWithAlias(s: seq<SelectCondition>, x: SelectCondition)
    ensures var r := AliasPlacement(s, x);
      |r| >= 1 && r[|r| - 1] == x && r[..|r| - 1] == (if |s| > 0 && s[|s| - 1].category == Aliasing then s[..|s| - 1] else s)
  {
  }
}
