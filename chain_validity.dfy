/**
 * Which select chains are well formed, as the editor's test suite checks
 * them (`isValidSelect`), and the proof that every edit the editor offers
 * keeps chains well formed.
 */
module ChainValidity {
  import opened Types
  import opened Seqs
  import opened Strategies
  import Op = Operators

  /** `selectQueue.indexOf(category)`: the place of a category in the required order. */
  function QueueIndex(c: Category): int {
    match c
    case Fields => 0
    case Aggregations => 1
    case Selectors => 2
    case Transformations => 3
    case Predictors => 4
    case Math => 5
    case Aliasing => 6
    case GroupbyCategory => -1
  }

  /** `curIndex` when part `i` is checked: 1 for the first part after the field, else the previous part's place. */
  function CurIndexAt(s: seq<SelectCondition>, i: nat): int
    requires 1 <= i < |s|
  {
    if i == 1 then 1 else QueueIndex(s[i - 1].category)
  }

  /** A part may not go back in the order, except a Transformation right after a Predictor. */
  predicate StepOk(q: int, cur: int) {
    q >= cur || (q == 3 && cur == 4)
  }

  /** The check the loop makes at part `i`. */
  predicate StepOkAt(s: seq<SelectCondition>, i: nat)
    requires 1 <= i < |s|
  {
    StepOk(QueueIndex(s[i].category), CurIndexAt(s, i))
  }

  /** The number of Aggregations and Selectors, the loop's `count`. */
  function CountAggSel(t: seq<SelectCondition>): (n: nat)
    ensures n <= |t|
  {
    if |t| == 0 then 0
    else CountAggSel(t[..|t| - 1]) + (if IsAggSel(t[|t| - 1].category) then 1 else 0)
  }

  /**
   * `isValidSelect`: the field comes first, categories follow the queue
   * order, and there are at most two Aggregations or Selectors, two only as
   * `distinct` followed by `count` right after the field.
   */
  predicate ValidSelect(s: seq<SelectCondition>) {
    |s| > 0
    && s[0].category == Fields
    && (forall i | 1 <= i < |s| :: StepOkAt(s, i))
    && CountAggSel(s[1..]) <= 2
    && (CountAggSel(s[1..]) == 2 ==> s[1].kind == "distinct" && s[2].kind == "count")
  }

  /** The test helper itself, one pass with early exits; it reads `selectCondition[0]`, so the chain is not empty. */
  method IsValidSelect(s: seq<SelectCondition>) returns (r: bool)
    requires |s| > 0
    ensures r == ValidSelect(s)
  {
    var curIndex := 1;
    if s[0].category != Fields {
      return false;
    }
    var count := 0;
    var i := 1;
    while i < |s|
      invariant 1 <= i <= |s|
      invariant curIndex == (if i == 1 then 1 else QueueIndex(s[i - 1].category))
      invariant forall k | 1 <= k < i :: StepOkAt(s, k)
      invariant count == CountAggSel(s[1..i])
    {
      var queueIndex := QueueIndex(s[i].category);
      if queueIndex < curIndex {
        if queueIndex != 3 || curIndex != 4 {
          assert !StepOkAt(s, i);
          return false;
        }
      }
      assert StepOkAt(s, i);
      curIndex := queueIndex;
      if s[i].category == Aggregations || s[i].category == Selectors {
        count := count + 1;
      }
      assert s[1..i + 1][..i - 1] == s[1..i];
      i := i + 1;
    }
    assert s[1..i] == s[1..];
    if count > 2 {
      return false;
    } else if count == 2 {
      if s[1].kind != "distinct" || s[2].kind != "count" {
        return false;
      }
    }
    return true;
  }

  // ---------------------------------------------------------------------
  // A position-wise reading of the same rule

  /**
   * The order as stages: Aggregation 1, Selector 2, Transformation and
   * Predictor share 3 (so they may interleave), Math 4, alias 5; the field
   * and group-by items are 0.
   */
  function Stage(c: Category): nat {
    match c
    case Fields => 0
    case Aggregations => 1
    case Selectors => 2
    case Transformations => 3
    case Predictors => 3
    case Math => 4
    case Aliasing => 5
    case GroupbyCategory => 0
  }

  function StageAt(s: seq<SelectCondition>, i: nat): nat
    requires i < |s|
  {
    Stage(s[i].category)
  }

  predicate AggSelAt(s: seq<SelectCondition>, i: nat)
    requires i < |s|
  {
    IsAggSel(s[i].category)
  }

  /** After the field every part has stage 1 or more, and stages never decrease. */
  predicate Ordered(s: seq<SelectCondition>) {
    (forall i | 1 <= i < |s| :: StageAt(s, i) >= 1)
    && (forall i, j | 1 <= i < j < |s| :: StageAt(s, i) <= StageAt(s, j))
  }

  /** Aggregations and Selectors only at index 1, or at 1 and 2 as `distinct` then `count`. */
  predicate AggSelPlaced(s: seq<SelectCondition>) {
    (forall i | 3 <= i < |s| :: !AggSelAt(s, i))
    && (|s| > 2 && AggSelAt(s, 2) ==> s[1].kind == "distinct" && s[2].kind == "count")
  }

  /** A valid chain, stated part by part. */
  predicate Staged(s: seq<SelectCondition>) {
    |s| > 0 && s[0].category == Fields && Ordered(s) && AggSelPlaced(s)
  }

  lemma {:induction false} CountAppend(a: seq<SelectCondition>, b: seq<SelectCondition>)
    ensures CountAggSel(a + b) == CountAggSel(a) + CountAggSel(b)
    decreases |b|
  {
    if |b| > 0 {
      var b' := b[..|b| - 1];
      assert (a + b)[..|a + b| - 1] == a + b';
      CountAppend(a, b');
    } else {
      assert a + b == a;
    }
  }

  lemma {:induction false} CountNone(t: seq<SelectCondition>)
    requires forall k | 0 <= k < |t| :: !IsAggSel(t[k].category)
    ensures CountAggSel(t) == 0
  {
    if |t| > 0 {
      CountNone(t[..|t| - 1]);
    }
  }

  lemma CountAtLeastOne(t: seq<SelectCondition>, k: nat)
    requires k < |t| && IsAggSel(t[k].category)
    ensures CountAggSel(t) >= 1
  {
    CountAppend(t[..k + 1], t[k + 1..]);
    assert t[..k + 1] + t[k + 1..] == t;
    assert t[..k + 1][..k] == t[..k];
  }

  /** The count of the first two parts after the field. */
  lemma CountFirstTwo(s: seq<SelectCondition>)
    requires |s| >= 3
    ensures CountAggSel(s[1..]) == (if AggSelAt(s, 1) then 1 else 0) + (if AggSelAt(s, 2) then 1 else 0) + CountAggSel(s[3..])
  {
    var t := s[1..];
    CountAppend(t[..2], t[2..]);
    assert t[..2] + t[2..] == t;
    assert t[..2][..1] == [s[1]];
    assert t[2..] == s[3..];
  }

  /** In a chain that passes the order check, every part after the field has place at least 1. */
  lemma {:induction false} QueuePositive(s: seq<SelectCondition>, i: nat)
    requires 1 <= i < |s|
    requires forall k | 1 <= k < |s| :: StepOkAt(s, k)
    ensures QueueIndex(s[i].category) >= 1
  {
    assert StepOkAt(s, i);
    if i > 1 {
      QueuePositive(s, i - 1);
    }
  }

  lemma {:induction false} AdjacentToPairwise(s: seq<SelectCondition>, i: nat, j: nat)
    requires 1 <= i <= j < |s|
    requires forall k | 2 <= k < |s| :: StageAt(s, k - 1) <= StageAt(s, k)
    ensures StageAt(s, i) <= StageAt(s, j)
    decreases j - i
  {
    if i < j {
      AdjacentToPairwise(s, i, j - 1);
      assert StageAt(s, j - 1) <= StageAt(s, j);
    }
  }

  lemma ValidOrdered(s: seq<SelectCondition>)
    requires ValidSelect(s)
    ensures Ordered(s)
  {
    forall i | 1 <= i < |s|
      ensures StageAt(s, i) >= 1
    {
      QueuePositive(s, i);
    }
    forall k | 2 <= k < |s|
      ensures StageAt(s, k - 1) <= StageAt(s, k)
    {
      QueuePositive(s, k - 1);
      assert StepOkAt(s, k);
    }
    forall i, j | 1 <= i < j < |s|
      ensures StageAt(s, i) <= StageAt(s, j)
    {
      AdjacentToPairwise(s, i, j);
    }
  }

  /** In an ordered chain an Aggregation or Selector has only Aggregations or Selectors before it, back to the field. */
  lemma AggSelBefore(s: seq<SelectCondition>, i: nat, j: nat)
    requires Ordered(s) && 1 <= i < j < |s| && AggSelAt(s, j)
    ensures AggSelAt(s, i)
  {
    assert StageAt(s, i) <= StageAt(s, j);
    assert StageAt(s, i) >= 1;
  }

  lemma ValidAggSelPlaced(s: seq<SelectCondition>)
    requires ValidSelect(s) && Ordered(s)
    ensures AggSelPlaced(s)
  {
    forall i | 3 <= i < |s|
      ensures !AggSelAt(s, i)
    {
      if AggSelAt(s, i) {
        AggSelBefore(s, 1, i);
        AggSelBefore(s, 2, i);
        CountFirstTwo(s);
        assert s[3..][i - 3] == s[i];
        CountAtLeastOne(s[3..], i - 3);
        assert false;
      }
    }
    if |s| > 2 && AggSelAt(s, 2) {
      AggSelBefore(s, 1, 2);
      CountFirstTwo(s);
    }
  }

  lemma StagedToValid(s: seq<SelectCondition>)
    requires Staged(s)
    ensures ValidSelect(s)
  {
    forall i | 1 <= i < |s|
      ensures StepOkAt(s, i)
    {
      assert StageAt(s, i) >= 1;
      if i > 1 {
        assert StageAt(s, i - 1) <= StageAt(s, i);
        assert StageAt(s, i - 1) >= 1;
      }
    }
    if |s| >= 3 {
      CountFirstTwo(s);
      forall k | 0 <= k < |s[3..]|
        ensures !IsAggSel(s[3..][k].category)
      {
        assert !AggSelAt(s, k + 3);
      }
      CountNone(s[3..]);
    } else {
      forall k | 0 <= k < |s[1..]|
        ensures s[1..][..k] == s[1..k + 1]
      {
      }
      if |s| == 2 {
        assert s[1..][..0] == [];
      }
    }
  }

  /** The test helper's order check and count check mean exactly the position-wise reading. */
  lemma ValidIffStaged(s: seq<SelectCondition>)
    ensures ValidSelect(s) <==> Staged(s)
  {
    if ValidSelect(s) {
      ValidOrdered(s);
      ValidAggSelPlaced(s);
    }
    if Staged(s) {
      StagedToValid(s);
    }
  }

  // ---------------------------------------------------------------------
  // A valid chain in three pieces: the field, the Aggregation/Selector
  // block, and a tail of later stages

  /** The Aggregation/Selector block after the field: at most two parts, two only as `distinct` then `count`. */
  predicate Block(p: seq<SelectCondition>) {
    |p| <= 2
    && (forall i | 0 <= i < |p| :: AggSelAt(p, i))
    && (|p| == 2 ==> p[0].kind == "distinct" && p[1].kind == "count" && StageAt(p, 0) <= StageAt(p, 1))
  }

  /** The parts after the block: stage 3 or more, never decreasing. */
  predicate TailOrdered(t: seq<SelectCondition>) {
    (forall i | 0 <= i < |t| :: StageAt(t, i) >= 3)
    && (forall i, j | 0 <= i < j < |t| :: StageAt(t, i) <= StageAt(t, j))
  }

  lemma PartsStaged(h: SelectCondition, p: seq<SelectCondition>, t: seq<SelectCondition>)
    requires h.category == Fields && Block(p) && TailOrdered(t)
    ensures Staged([h] + p + t)
  {
    var s := [h] + p + t;
    var b := |p|;
    assert forall i | 0 <= i < b :: s[1 + i] == p[i];
    assert forall i | 0 <= i < |t| :: s[1 + b + i] == t[i];
    forall i | 1 <= i < |s|
      ensures StageAt(s, i) >= 1 && (AggSelAt(s, i) <==> i <= b)
    {
      if i <= b {
        assert s[i] == p[i - 1] && AggSelAt(p, i - 1);
      } else {
        assert s[i] == t[i - 1 - b] && StageAt(t, i - 1 - b) >= 3;
      }
    }
    forall i, j | 1 <= i < j < |s|
      ensures StageAt(s, i) <= StageAt(s, j)
    {
      if j <= b {
        assert i == 1 && j == 2 && s[1] == p[0] && s[2] == p[1];
      } else if i > b {
        assert s[i] == t[i - 1 - b] && s[j] == t[j - 1 - b];
        assert StageAt(t, i - 1 - b) <= StageAt(t, j - 1 - b);
      } else {
        assert s[j] == t[j - 1 - b] && StageAt(t, j - 1 - b) >= 3;
      }
    }
    if |s| > 2 && AggSelAt(s, 2) {
      assert b == 2 && s[1] == p[0] && s[2] == p[1];
    }
  }

  lemma StagedParts(s: seq<SelectCondition>) returns (p: seq<SelectCondition>, t: seq<SelectCondition>)
    requires Staged(s)
    ensures s == [s[0]] + p + t && Block(p) && TailOrdered(t)
  {
    var b := if |s| > 1 && AggSelAt(s, 1) then (if |s| > 2 && AggSelAt(s, 2) then 2 else 1) else 0;
    p := s[1..1 + b];
    t := s[1 + b..];
    assert s == [s[0]] + p + t;
    forall i | 0 <= i < |t|
      ensures StageAt(t, i) >= 3
    {
      var k := 1 + b + i;
      assert t[i] == s[k];
      if k == 2 && b == 0 && AggSelAt(s, 2) {
        AggSelBefore(s, 1, 2);
      }
      assert !AggSelAt(s, k);
      assert StageAt(s, k) >= 1;
    }
    forall i, j | 0 <= i < j < |t|
      ensures StageAt(t, i) <= StageAt(t, j)
    {
      assert t[i] == s[1 + b + i] && t[j] == s[1 + b + j];
      assert StageAt(s, 1 + b + i) <= StageAt(s, 1 + b + j);
    }
    if b == 2 {
      assert p[0] == s[1] && p[1] == s[2];
      assert StageAt(s, 1) <= StageAt(s, 2);
    }
  }

  /** The parts of a chain without Math or Aliasing. */
  predicate NoMathOrAlias(a: seq<SelectCondition>) {
    forall i | 0 <= i < |a| :: !IsMathOrAlias(a[i].category)
  }

  lemma {:induction false} FirstMathOrAliasShift(a: seq<SelectCondition>, t: seq<SelectCondition>)
    requires NoMathOrAlias(a)
    ensures FirstMathOrAlias(a + t) == |a| + FirstMathOrAlias(t)
  {
    if |a| > 0 {
      assert (a + t)[0] == a[0];
      assert (a + t)[1..] == a[1..] + t;
      FirstMathOrAliasShift(a[1..], t);
    } else {
      assert a + t == t;
    }
  }

  lemma InsertShift(a: seq<SelectCondition>, t: seq<SelectCondition>, k: nat, x: SelectCondition)
    requires k <= |t|
    ensures Insert(a + t, |a| + k, x) == a + Insert(t, k, x)
  {
    assert (a + t)[..|a| + k] == a + t[..k];
    assert (a + t)[|a| + k..] == t[k..];
  }

  lemma UpdateShift(a: seq<SelectCondition>, t: seq<SelectCondition>, k: nat, x: SelectCondition)
    requires k < |t|
    ensures (a + t)[|a| + k := x] == a + t[k := x]
  {
  }

  lemma InsertAtEnd(t: seq<SelectCondition>, x: SelectCondition)
    ensures Insert(t, |t|, x) == t + [x]
  {
    assert t[|t|..] == [];
  }

  /** Only the last part of a chain may be an alias. */
  predicate AliasLast(s: seq<SelectCondition>) {
    forall i | 0 <= i < |s| - 1 :: s[i].category != Aliasing
  }

  /** A part whose category is the one its operator registers. */
  predicate Registered(p: SelectCondition) {
    Op.Lookup(p.kind).Some? && Op.CategoryOf(Op.Lookup(p.kind).value) == p.category
  }

  predicate AllRegistered(s: seq<SelectCondition>) {
    forall p | p in s :: Registered(p)
  }

  /**
   * The chains the editor builds: valid, made of registered operators,
   * and with an alias only at the end.
   */
  predicate EditorChain(s: seq<SelectCondition>) {
    Staged(s) && AllRegistered(s) && AliasLast(s)
  }

  /** The part `addSelectConditions` builds for an operator. */
  function NewSelect(op: Op.OpName): (x: SelectCondition)
    ensures Registered(x) && x.kind == Op.TypeName(op) && x.category == Op.CategoryOf(op)
  {
    Op.LookupTypeName(op);
    SelectCondition(Op.TypeName(op), Op.CategoryOf(op), Op.DefaultParams(op))
  }

  /** The default select chain of a new query, `field(value)` then `count`, is an editor chain. */
  lemma DefaultChainIsEditorChain()
    ensures EditorChain([NewSelect(Op.Field), NewSelect(Op.Count)])
  {
    var s := [NewSelect(Op.Field), NewSelect(Op.Count)];
    PartsStaged(s[0], [s[1]], []);
    assert s == [s[0]] + [s[1]] + [];
  }

  // ---------------------------------------------------------------------
  // Each strategy keeps editor chains

  /** An editor chain in pieces; the pieces of an editor chain are registered and only the tail may hold an alias. */
  lemma EditorChainParts(s: seq<SelectCondition>) returns (p: seq<SelectCondition>, t: seq<SelectCondition>)
    requires EditorChain(s)
    ensures s == [s[0]] + p + t && Block(p) && TailOrdered(t)
    ensures Registered(s[0]) && AllRegistered(p) && AllRegistered(t) && AliasLast(t)
  {
    p, t := StagedParts(s);
    RegisteredPieces(s, p, t);
    AliasLastTail(s, p, t);
  }

  lemma RegisteredPieces(s: seq<SelectCondition>, p: seq<SelectCondition>, t: seq<SelectCondition>)
    requires |s| > 0 && s == [s[0]] + p + t && AllRegistered(s)
    ensures Registered(s[0]) && AllRegistered(p) && AllRegistered(t)
  {
    assert s[0] in s;
    assert forall y | y in p :: y in s;
    assert forall y | y in t :: y in s;
  }

  lemma AliasLastTail(s: seq<SelectCondition>, p: seq<SelectCondition>, t: seq<SelectCondition>)
    requires |s| > 0 && s == [s[0]] + p + t && AliasLast(s)
    ensures AliasLast(t)
  {
    forall i | 0 <= i < |t| - 1
      ensures t[i].category != Aliasing
    {
      assert t[i] == s[1 + |p| + i];
    }
  }

  /** Pieces that are registered, with an alias only at the end of the tail, make an editor chain. */
  lemma PartsEditorChain(h: SelectCondition, q: seq<SelectCondition>, t: seq<SelectCondition>)
    requires h.category == Fields && Block(q) && TailOrdered(t)
    requires Registered(h) && AllRegistered(q) && AllRegistered(t) && AliasLast(t)
    ensures EditorChain([h] + q + t)
  {
    var r := [h] + q + t;
    PartsStaged(h, q, t);
    forall i | 0 <= i < |r| - 1
      ensures r[i].category != Aliasing
    {
      if i > |q| {
        assert r[i] == t[i - 1 - |q|];
      } else if i > 0 {
        assert r[i] == q[i - 1] && AggSelAt(q, i - 1);
      }
    }
  }

  /** In a chain split into pieces the first Aggregation or Selector is the block's first part. */
  lemma FirstAggSelOfParts(s: seq<SelectCondition>, p: seq<SelectCondition>, t: seq<SelectCondition>)
    requires |s| > 0 && s == [s[0]] + p + t && s[0].category == Fields && Block(p) && TailOrdered(t)
    ensures FirstAggSel(s) == if |p| == 0 then |s| else 1
  {
    var f := FirstAggSel(s);
    if |p| == 0 {
      forall i | 1 <= i < |s|
        ensures !IsAggSel(s[i].category)
      {
        assert s[i] == t[i - 1] && StageAt(t, i - 1) >= 3;
      }
    } else {
      assert s[1] == p[0] && AggSelAt(p, 0);
    }
  }

  /** The new block `addAggregations` leaves in place of the old one; the tail is untouched. */
  lemma AggregationsBlock(s: seq<SelectCondition>, p: seq<SelectCondition>, t: seq<SelectCondition>, x: SelectCondition)
    returns (q: seq<SelectCondition>)
    requires |s| > 0 && s == [s[0]] + p + t && s[0].category == Fields && Block(p) && TailOrdered(t)
    requires AllRegistered(p) && AllRegistered(t) && Registered(x) && IsAggSel(x.category)
    ensures AggregationsPlacement(s, x) == [s[0]] + q + t && Block(q) && AllRegistered(q)
  {
    var h := s[0];
    FirstAggSelOfParts(s, p, t);
    if |p| == 0 {
      InsertShift([h], t, 0, x);
      q := [x];
    } else {
      AggregationsBlockFound(s, p, t, x);
      q := AggregationsNewBlock(p, x);
    }
  }

  /** The block after `addAggregations` when the old block is not empty. */
  function AggregationsNewBlock(p: seq<SelectCondition>, x: SelectCondition): seq<SelectCondition>
    requires |p| > 0
  {
    if p[0].category == Aggregations then
      if p[0].kind == x.kind then p
      else if p[0].kind == "count" && x.kind == "distinct" then [x] + p
      else if p[0].kind == "distinct" && x.kind == "count" then (if |p| == 2 then p else [p[0], x])
      else [x]
    else [x]
  }

  /** Parts named `distinct` or `count` that are registered are Aggregations. */
  lemma RegisteredKinds(y: SelectCondition)
    requires Registered(y)
    ensures y.kind == "distinct" || y.kind == "count" ==> y.category == Aggregations
  {
  }

  lemma NewBlockIsBlock(p: seq<SelectCondition>, x: SelectCondition)
    requires |p| > 0 && Block(p) && AllRegistered(p) && Registered(x) && IsAggSel(x.category)
    ensures Block(AggregationsNewBlock(p, x)) && AllRegistered(AggregationsNewBlock(p, x))
  {
    assert p[0] in p;
    RegisteredKinds(p[0]);
    RegisteredKinds(x);
  }

  lemma AggregationsBlockFound(s: seq<SelectCondition>, p: seq<SelectCondition>, t: seq<SelectCondition>, x: SelectCondition)
    requires |p| > 0 && |s| > 0 && s == [s[0]] + p + t && s[0].category == Fields && Block(p) && TailOrdered(t)
    requires AllRegistered(p) && AllRegistered(t) && Registered(x) && IsAggSel(x.category)
    requires FirstAggSel(s) == 1
    ensures AggregationsPlacement(s, x) == [s[0]] + AggregationsNewBlock(p, x) + t
    ensures Block(AggregationsNewBlock(p, x)) && AllRegistered(AggregationsNewBlock(p, x))
  {
    assert p[0] in p;
    RegisteredKinds(p[0]);
    if |p| == 2 {
      assert p[1] in p;
      RegisteredKinds(p[1]);
    } else if |t| > 0 {
      assert StageAt(t, 0) >= 3;
      assert t[0] in t;
      RegisteredKinds(t[0]);
    }
    AggregationsPlacementFound(s, p, t, x);
    NewBlockIsBlock(p, x);
  }

  /** `addAggregations` on a chain in pieces, with what the pieces guarantee about parts 1 and 2. */
  lemma AggregationsPlacementFound(s: seq<SelectCondition>, p: seq<SelectCondition>, t: seq<SelectCondition>, x: SelectCondition)
    requires 1 <= |p| <= 2 && |s| > 0 && s == [s[0]] + p + t
    requires FirstAggSel(s) == 1
    requires |p| == 2 ==> p[0].kind == "distinct" && p[1].kind == "count" && p[1].category == Aggregations
    requires |p| == 1 && |t| > 0 ==> t[0].category != Aggregations && t[0].kind != "count"
    requires p[0].kind == "distinct" || p[0].kind == "count" ==> p[0].category == Aggregations
    ensures AggregationsPlacement(s, x) == [s[0]] + AggregationsNewBlock(p, x) + t
  {
    assert s[1] == p[0];
    if s[1].category == Aggregations && s[1].kind == "distinct" && s[1].kind != x.kind {
      AggregationsFoundDistinct(s, p, t, x);
    } else if s[1].category == Aggregations {
      AggregationsFoundOther(s, p, t, x);
    } else {
      AggregationsReplace(s, x);
      assert |p| == 1;
      UpdateFirstShift(s[0], p, t, x);
    }
  }

  lemma AggregationsFoundDistinct(s: seq<SelectCondition>, p: seq<SelectCondition>, t: seq<SelectCondition>, x: SelectCondition)
    requires 1 <= |p| <= 2 && |s| > 0 && s == [s[0]] + p + t
    requires FirstAggSel(s) == 1
    requires |p| == 2 ==> p[0].kind == "distinct" && p[1].kind == "count" && p[1].category == Aggregations
    requires |p| == 1 && |t| > 0 ==> t[0].category != Aggregations && t[0].kind != "count"
    requires p[0].kind == "distinct" || p[0].kind == "count" ==> p[0].category == Aggregations
    requires s[1].category == Aggregations && s[1].kind == "distinct" && s[1].kind != x.kind
    ensures AggregationsPlacement(s, x) == [s[0]] + AggregationsNewBlock(p, x) + t
  {
    assert s[1] == p[0];
    if x.kind != "count" && 2 < |s| {
      DistinctReplaced(s, p, t, x);
    } else if x.kind == "count" {
      DistinctThenCount(s, p, t, x);
    } else {
      AggregationsReplace(s, x);
      assert |p| == 1;
      UpdateFirstShift(s[0], p, t, x);
    }
  }

  lemma DistinctReplaced(s: seq<SelectCondition>, p: seq<SelectCondition>, t: seq<SelectCondition>, x: SelectCondition)
    requires 1 <= |p| <= 2 && 2 < |s| && s == [s[0]] + p + t && s[1] == p[0]
    requires FirstAggSel(s) == 1
    requires |p| == 2 ==> p[0].kind == "distinct" && p[1].kind == "count" && p[1].category == Aggregations
    requires |p| == 1 && |t| > 0 ==> t[0].category != Aggregations && t[0].kind != "count"
    requires s[1].category == Aggregations && s[1].kind == "distinct" && x.kind != "distinct" && x.kind != "count"
    ensures AggregationsPlacement(s, x) == [s[0]] + AggregationsNewBlock(p, x) + t
  {
    if |p| == 2 {
      assert s[2] == p[1];
    } else {
      assert s[2] == t[0];
    }
    AggregationsReplaceDistinct(s, x);
    if s[2].category == Aggregations {
      assert |p| == 2;
      RemoveSecondShift(s[0], p, t, x);
    } else {
      assert |p| == 1;
      UpdateFirstShift(s[0], p, t, x);
    }
  }

  lemma DistinctThenCount(s: seq<SelectCondition>, p: seq<SelectCondition>, t: seq<SelectCondition>, x: SelectCondition)
    requires 1 <= |p| <= 2 && |s| > 1 && s == [s[0]] + p + t && s[1] == p[0]
    requires FirstAggSel(s) == 1
    requires |p| == 2 ==> p[0].kind == "distinct" && p[1].kind == "count" && p[1].category == Aggregations
    requires |p| == 1 && |t| > 0 ==> t[0].category != Aggregations && t[0].kind != "count"
    requires s[1].category == Aggregations && s[1].kind == "distinct" && x.kind == "count"
    ensures AggregationsPlacement(s, x) == [s[0]] + AggregationsNewBlock(p, x) + t
  {
    if |p| == 2 {
      assert s[2] == p[1];
    } else if |t| > 0 {
      assert s[2] == t[0];
    }
    AggregationsCountAfterDistinct(s, x);
    if |s| <= 2 || s[2].kind != "count" {
      assert |p| == 1;
      CountInserted(s[0], p, t, x);
    } else {
      assert |p| == 2;
    }
  }

  lemma CountInserted(h: SelectCondition, p: seq<SelectCondition>, t: seq<SelectCondition>, x: SelectCondition)
    requires |p| == 1
    ensures Insert([h] + p + t, 2, x) == [h] + [p[0], x] + t
  {
    var s := [h] + p + t;
    assert s[..2] == [h, p[0]] && s[2..] == t;
  }

  lemma AggregationsFoundOther(s: seq<SelectCondition>, p: seq<SelectCondition>, t: seq<SelectCondition>, x: SelectCondition)
    requires 1 <= |p| <= 2 && |s| > 0 && s == [s[0]] + p + t
    requires FirstAggSel(s) == 1
    requires |p| == 2 ==> p[0].kind == "distinct" && p[1].kind == "count" && p[1].category == Aggregations
    requires |p| == 1 && |t| > 0 ==> t[0].category != Aggregations && t[0].kind != "count"
    requires p[0].kind == "distinct" || p[0].kind == "count" ==> p[0].category == Aggregations
    requires s[1].category == Aggregations && (s[1].kind == "distinct" ==> s[1].kind == x.kind)
    ensures AggregationsPlacement(s, x) == [s[0]] + AggregationsNewBlock(p, x) + t
  {
    assert s[1] == p[0];
    if s[1].kind == x.kind {
      AggregationsSame(s, x);
      assert AggregationsNewBlock(p, x) == p;
    } else if s[1].kind == "count" && x.kind == "distinct" {
      FoundCountThenDistinct(s, p, t, x);
    } else {
      FoundReplaced(s, p, t, x);
    }
  }

  lemma FoundCountThenDistinct(s: seq<SelectCondition>, p: seq<SelectCondition>, t: seq<SelectCondition>, x: SelectCondition)
    requires 1 <= |p| && |s| > 1 && s == [s[0]] + p + t && s[1] == p[0]
    requires FirstAggSel(s) == 1 && s[1].category == Aggregations && s[1].kind == "count" && x.kind == "distinct"
    ensures AggregationsPlacement(s, x) == [s[0]] + AggregationsNewBlock(p, x) + t
  {
    AggregationsDistinctBeforeCount(s, x);
    InsertSecond(s[0], p, t, x);
    assert AggregationsNewBlock(p, x) == [x] + p;
  }

  lemma InsertSecond(h: SelectCondition, p: seq<SelectCondition>, t: seq<SelectCondition>, x: SelectCondition)
    ensures Insert([h] + p + t, 1, x) == [h] + ([x] + p) + t
  {
    var s := [h] + p + t;
    assert s[..1] == [h] && s[1..] == p + t;
  }

  lemma FoundReplaced(s: seq<SelectCondition>, p: seq<SelectCondition>, t: seq<SelectCondition>, x: SelectCondition)
    requires 1 <= |p| <= 2 && |s| > 1 && s == [s[0]] + p + t && s[1] == p[0]
    requires FirstAggSel(s) == 1
    requires |p| == 2 ==> p[0].kind == "distinct" && p[1].kind == "count" && p[1].category == Aggregations
    requires s[1].category == Aggregations && s[1].kind != x.kind && s[1].kind != "distinct"
    requires !(s[1].kind == "count" && x.kind == "distinct")
    ensures AggregationsPlacement(s, x) == [s[0]] + AggregationsNewBlock(p, x) + t
  {
    AggregationsReplace(s, x);
    assert |p| == 1;
    UpdateFirstShift(s[0], p, t, x);
  }

  lemma AggregationsSame(s: seq<SelectCondition>, x: SelectCondition)
    requires FirstAggSel(s) == 1 && |s| > 1 && s[1].category == Aggregations && s[1].kind == x.kind
    ensures AggregationsPlacement(s, x) == s
  {
  }

  lemma AggregationsDistinctBeforeCount(s: seq<SelectCondition>, x: SelectCondition)
    requires FirstAggSel(s) == 1 && |s| > 1 && s[1].category == Aggregations && s[1].kind == "count" && x.kind == "distinct"
    ensures AggregationsPlacement(s, x) == Insert(s, 1, x)
  {
  }

  lemma AggregationsReplaceDistinct(s: seq<SelectCondition>, x: SelectCondition)
    requires FirstAggSel(s) == 1 && |s| > 2 && s[1].category == Aggregations && s[1].kind == "distinct"
    requires x.kind != "count" && x.kind != "distinct"
    ensures AggregationsPlacement(s, x) == if s[2].category == Aggregations then RemoveAt(s, 2)[1 := x] else s[1 := x]
  {
  }

  lemma AggregationsCountAfterDistinct(s: seq<SelectCondition>, x: SelectCondition)
    requires FirstAggSel(s) == 1 && |s| > 1 && s[1].category == Aggregations && s[1].kind == "distinct" && x.kind == "count"
    ensures AggregationsPlacement(s, x) == if |s| <= 2 || s[2].kind != "count" then Insert(s, 2, x) else s
  {
  }

  /** The remaining cases replace the first Aggregation or Selector. */
  lemma AggregationsReplace(s: seq<SelectCondition>, x: SelectCondition)
    requires FirstAggSel(s) == 1 && |s| > 1
    requires s[1].category == Aggregations ==>
               s[1].kind != x.kind && !(s[1].kind == "count" && x.kind == "distinct")
               && (s[1].kind == "distinct" ==> x.kind != "count" && |s| <= 2)
    ensures AggregationsPlacement(s, x) == s[1 := x]
  {
  }

  lemma UpdateFirstShift(h: SelectCondition, p: seq<SelectCondition>, t: seq<SelectCondition>, x: SelectCondition)
    requires |p| == 1
    ensures ([h] + p + t)[1 := x] == [h] + [x] + t
  {
  }

  lemma RemoveSecondShift(h: SelectCondition, p: seq<SelectCondition>, t: seq<SelectCondition>, x: SelectCondition)
    requires |p| == 2
    ensures RemoveAt([h] + p + t, 2)[1 := x] == [h] + [x] + t
  {
  }

  lemma AggregationsKeepEditorChain(s: seq<SelectCondition>, x: SelectCondition)
    requires EditorChain(s) && Registered(x) && IsAggSel(x.category)
    ensures EditorChain(AggregationsPlacement(s, x))
  {
    var p, t := EditorChainParts(s);
    var q := AggregationsBlock(s, p, t, x);
    PartsEditorChain(s[0], q, t);
  }

  /** Inserting into a tail where the stages around the new part allow it keeps the tail well formed. */
  lemma TailInsert(t: seq<SelectCondition>, k: nat, x: SelectCondition)
    requires TailOrdered(t) && AliasLast(t) && AllRegistered(t) && Registered(x)
    requires k <= |t| && (x.category == Aliasing ==> k == |t|) && Stage(x.category) >= 3
    requires k > 0 ==> StageAt(t, k - 1) <= Stage(x.category)
    requires k < |t| ==> Stage(x.category) <= StageAt(t, k)
    requires k == |t| && |t| > 0 ==> t[|t| - 1].category != Aliasing
    ensures var r := Insert(t, k, x); TailOrdered(r) && AliasLast(r) && AllRegistered(r)
  {
    var r := Insert(t, k, x);
    forall i | 0 <= i < |r|
      ensures StageAt(r, i) >= 3
      ensures i < k ==> StageAt(r, i) <= Stage(x.category)
      ensures i > k ==> StageAt(r, i) >= Stage(x.category)
    {
      if i < k {
        assert r[i] == t[i];
        if i < k - 1 {
          assert StageAt(t, i) <= StageAt(t, k - 1);
        }
      } else if i > k {
        assert r[i] == t[i - 1];
        if i - 1 > k {
          assert StageAt(t, k) <= StageAt(t, i - 1);
        }
      }
    }
    forall i, j | 0 <= i < j < |r|
      ensures StageAt(r, i) <= StageAt(r, j)
    {
      if j < k {
        assert r[i] == t[i] && r[j] == t[j] && StageAt(t, i) <= StageAt(t, j);
      } else if i > k {
        assert r[i] == t[i - 1] && r[j] == t[j - 1] && StageAt(t, i - 1) <= StageAt(t, j - 1);
      } else if i < k < j {
        assert StageAt(r, i) <= Stage(x.category) <= StageAt(r, j);
      }
    }
    forall i | 0 <= i < |r| - 1
      ensures r[i].category != Aliasing
    {
      if i < k {
        assert r[i] == t[i];
      } else if i > k {
        assert r[i] == t[i - 1];
      }
    }
    assert forall y | y in r :: y in t || y == x;
  }

  /** Replacing a part of a tail by one of a stage between its neighbours keeps the tail well formed. */
  lemma TailUpdate(t: seq<SelectCondition>, k: nat, x: SelectCondition)
    requires TailOrdered(t) && AliasLast(t) && AllRegistered(t) && Registered(x)
    requires k < |t| && Stage(x.category) >= 3 && (x.category == Aliasing ==> k == |t| - 1)
    requires k > 0 ==> StageAt(t, k - 1) <= Stage(x.category)
    requires k + 1 < |t| ==> Stage(x.category) <= StageAt(t, k + 1)
    ensures var r := t[k := x]; TailOrdered(r) && AliasLast(r) && AllRegistered(r)
  {
    var r := t[k := x];
    forall i | 0 <= i < |r|
      ensures StageAt(r, i) >= 3
    {
      if i != k {
        assert r[i] == t[i] && StageAt(t, i) >= 3;
      }
    }
    forall i, j | 0 <= i < j < |r|
      ensures StageAt(r, i) <= StageAt(r, j)
    {
      if i == k {
        if j > k + 1 {
          assert StageAt(t, k + 1) <= StageAt(t, j);
        }
      } else if j == k {
        if i < k - 1 {
          assert StageAt(t, i) <= StageAt(t, k - 1);
        }
      } else {
        assert StageAt(t, i) <= StageAt(t, j);
      }
    }
    forall i | 0 <= i < |r| - 1
      ensures r[i].category != Aliasing
    {
      if i != k {
        assert r[i] == t[i];
      }
    }
    assert forall y | y in r :: y in t || y == x;
  }

  /** The tail of a chain split into pieces is where Math and Aliasing parts live. */
  lemma HeadNoMathOrAlias(h: SelectCondition, p: seq<SelectCondition>)
    requires h.category == Fields && Block(p)
    ensures NoMathOrAlias([h] + p)
  {
    forall i | 0 <= i < |[h] + p|
      ensures !IsMathOrAlias(([h] + p)[i].category)
    {
      if i > 0 {
        assert ([h] + p)[i] == p[i - 1] && AggSelAt(p, i - 1);
      }
    }
  }

  lemma TransformationKeepsEditorChain(s: seq<SelectCondition>, x: SelectCondition)
    requires EditorChain(s) && Registered(x) && Stage(x.category) == 3
    ensures EditorChain(TransformationPlacement(s, x))
  {
    var p, t := EditorChainParts(s);
    var a := [s[0]] + p;
    HeadNoMathOrAlias(s[0], p);
    assert s == a + t;
    FirstMathOrAliasShift(a, t);
    var k := FirstMathOrAlias(t);
    InsertShift(a, t, k, x);
    if k > 0 {
      assert StageAt(t, k - 1) >= 3 && !IsMathOrAlias(t[k - 1].category);
    }
    if k < |t| {
      assert IsMathOrAlias(t[k].category);
    } else if |t| > 0 {
      assert !IsMathOrAlias(t[|t| - 1].category);
    }
    TailInsert(t, k, x);
    PartsEditorChain(s[0], p, Insert(t, k, x));
    assert a + Insert(t, k, x) == [s[0]] + p + Insert(t, k, x);
  }

  /** `addMath` acts on the tail only. */
  lemma MathPlacementShift(a: seq<SelectCondition>, t: seq<SelectCondition>, x: SelectCondition)
    requires |a| > 0 && NoMathOrAlias(a)
    ensures MathPlacement(a + t, x) == a + MathPlacement(t, x)
  {
    var s := a + t;
    var n := |s|;
    if |t| > 0 {
      assert s[n - 1] == t[|t| - 1];
    } else {
      assert s[n - 1] == a[|a| - 1];
    }
    if |t| > 1 {
      assert s[n - 2] == t[|t| - 2];
      InsertShift(a, t, |t| - 2, x);
    } else if n > 1 {
      assert s[n - 2] == a[n - 2];
    }
    if |t| > 0 {
      InsertShift(a, t, |t| - 1, x);
    }
  }

  lemma MathKeepsTail(t: seq<SelectCondition>, x: SelectCondition)
    requires TailOrdered(t) && AliasLast(t) && AllRegistered(t) && Registered(x) && x.category == Math
    ensures var r := MathPlacement(t, x); TailOrdered(r) && AliasLast(r) && AllRegistered(r)
  {
    var n := |t|;
    if n > 0 && t[n - 1].category == Math {
      InsertAtEnd(t, x);
      TailInsert(t, n, x);
    } else if n > 1 && t[n - 2].category == Math {
      if n > 2 {
        assert StageAt(t, n - 3) <= StageAt(t, n - 2);
      }
      TailInsert(t, n - 2, x);
    } else if n > 0 && t[n - 1].category == Aliasing {
      if n > 1 {
        assert StageAt(t, n - 2) <= StageAt(t, n - 1) && t[n - 2].category != Aliasing;
      }
      TailInsert(t, n - 1, x);
    } else {
      InsertAtEnd(t, x);
      if n > 0 {
        assert StageAt(t, n - 1) >= 3;
      }
      TailInsert(t, n, x);
    }
  }

  lemma MathKeepsEditorChain(s: seq<SelectCondition>, x: SelectCondition)
    requires EditorChain(s) && Registered(x) && x.category == Math
    ensures EditorChain(MathPlacement(s, x))
  {
    var p, t := EditorChainParts(s);
    var a := [s[0]] + p;
    HeadNoMathOrAlias(s[0], p);
    assert s == a + t;
    MathPlacementShift(a, t, x);
    MathKeepsTail(t, x);
    PartsEditorChain(s[0], p, MathPlacement(t, x));
  }

  /** `addAlias` acts on the tail only. */
  lemma AliasPlacementShift(a: seq<SelectCondition>, t: seq<SelectCondition>, x: SelectCondition)
    requires |a| > 0 && NoMathOrAlias(a)
    ensures AliasPlacement(a + t, x) == a + AliasPlacement(t, x)
  {
    var s := a + t;
    if |t| > 0 {
      assert s[|s| - 1] == t[|t| - 1];
      UpdateShift(a, t, |t| - 1, x);
    } else {
      assert s[|s| - 1] == a[|a| - 1];
    }
  }

  lemma AliasKeepsEditorChain(s: seq<SelectCondition>, x: SelectCondition)
    requires EditorChain(s) && Registered(x) && x.category == Aliasing
    ensures EditorChain(AliasPlacement(s, x))
  {
    var p, t := EditorChainParts(s);
    var a := [s[0]] + p;
    HeadNoMathOrAlias(s[0], p);
    assert s == a + t;
    AliasPlacementShift(a, t, x);
    var n := |t|;
    if n > 0 && t[n - 1].category == Aliasing {
      if n > 1 {
        assert StageAt(t, n - 2) <= StageAt(t, n - 1);
      }
      TailUpdate(t, n - 1, x);
    } else {
      InsertAtEnd(t, x);
      if n > 0 {
        assert StageAt(t, n - 1) <= 5;
      }
      TailInsert(t, n, x);
    }
    PartsEditorChain(s[0], p, AliasPlacement(t, x));
  }

  /**
   * The property the editor's randomized test exercises: adding any
   * registered operator other than `field` to an editor chain gives an
   * editor chain, which therefore passes `isValidSelect`; the other chains
   * are untouched.
   */
  lemma AddKeepsEditorChain(chains: seq<seq<SelectCondition>>, index: nat, op: Op.OpName)
    requires index < |chains| && EditorChain(chains[index])
    requires Op.StrategyOf(op).Some? && Op.StrategyOf(op).value != Op.AddFieldStrategy
    ensures var r := ApplyStrategy(Op.StrategyOf(op).value, chains, index, NewSelect(op));
      |r| == |chains| && EditorChain(r[index]) && ValidSelect(r[index])
      && forall j | 0 <= j < |r| && j != index :: r[j] == chains[j]
  {
    var x := NewSelect(op);
    var s := chains[index];
    match Op.StrategyOf(op).value {
      case AddAggregations => AggregationsKeepEditorChain(s, x);
      case AddTransformation => TransformationKeepsEditorChain(s, x);
      case AddMath => MathKeepsEditorChain(s, x);
      case AddAlias => AliasKeepsEditorChain(s, x);
    }
    var r := ApplyStrategy(Op.StrategyOf(op).value, chains, index, x);
    ValidIffStaged(r[index]);
  }

  /**
   * Validity alone is not kept: `[field, alias, alias]` passes the test
   * helper, and `addMath` turns it into `[field, alias, math, alias]`,
   * which does not. The editor never builds two aliases, since `addAlias`
   * replaces a trailing one; editor chains rule them out.
   */
  lemma MathAfterDoubleAliasBreaksValidity()
    ensures var s := [NewSelect(Op.Field), NewSelect(Op.AliasOp), NewSelect(Op.AliasOp)];
      ValidSelect(s) && !ValidSelect(MathPlacement(s, NewSelect(Op.MathOp)))
  {
    var s := [NewSelect(Op.Field), NewSelect(Op.AliasOp), NewSelect(Op.AliasOp)];
    var r := MathPlacement(s, NewSelect(Op.MathOp));
    assert s[1..][..1] == [s[1]];
    assert s[1..][..0] == [];
    assert r == Insert(s, 2, NewSelect(Op.MathOp));
    assert !StepOkAt(r, 2);
  }
}
