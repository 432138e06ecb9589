/**
 * The select-chain edits of the query editor: remove a part (or a whole
 * chain), add an operator through its strategy, and change a part's
 * parameters. Each works on a copy of the query and returns it.
 */
module SelectHooks {
  import opened Wrappers
  import opened Types
  import opened Seqs
  import opened Strategies
  import opened ChainValidity
  import Op = Operators

  /** Why `addSelectConditions` fails: an unregistered name, or a group-by operator, which has no strategy. */
  datatype AddError = UnknownOperator(name: string) | NoAddStrategy(name: string)

  /**
   * `removeSelectConditions`: removing the `field` head drops the whole
   * chain, unless it is the only chain; removing any other part drops just
   * that part.
   */
  function RemovedSelect(chains: seq<seq<SelectCondition>>, partIndex: nat, index: nat): (r: seq<seq<SelectCondition>>)
    requires index < |chains| && partIndex < |chains[index]|
    ensures chains[index][partIndex].kind == "field" && |chains| > 1 ==>
              |r| == |chains| - 1 && (forall i | 0 <= i < index :: r[i] == chains[i])
              && (forall i | index <= i < |r| :: r[i] == chains[i + 1])
    ensures chains[index][partIndex].kind == "field" && |chains| == 1 ==> r == chains
    ensures chains[index][partIndex].kind != "field" ==>
              |r| == |chains| && (forall i | 0 <= i < |r| && i != index :: r[i] == chains[i])
              && r[index] == chains[index][..partIndex] + chains[index][partIndex + 1..]
  {
    if chains[index][partIndex].kind == "field" then
      if |chains| > 1 then RemoveAt(chains, index) else chains
    else
      chains[index := RemoveAt(chains[index], partIndex)]
  }

  method RemoveSelectConditions(q: Query, partIndex: nat, index: nat) returns (r: Query)
    requires index < |q.selectConditions| && partIndex < |q.selectConditions[index]|
    ensures r == q.(selectConditions := RemovedSelect(q.selectConditions, partIndex, index))
  {
    var newQuery := new QueryDraft(q);
    if q.selectConditions[index][partIndex].kind == "field" {
      if |q.selectConditions| > 1 {
        newQuery.selectConditions := RemoveAt(newQuery.selectConditions, index);
      }
    } else {
      newQuery.selectConditions := newQuery.selectConditions[index := RemoveAt(newQuery.selectConditions[index], partIndex)];
    }
    r := newQuery.Value();
  }

  /**
   * `addSelectConditions`: the part `{type: name, category, defaultParams}`
   * of the registered operator goes into chain `index` by the operator's
   * strategy; every other field of the query is kept.
   */
  function SelectAdded(q: Query, index: nat, name: string): (r: Result<Query, AddError>)
    requires index < |q.selectConditions|
    ensures Op.Lookup(name).None? ==> r == Failure(UnknownOperator(name))
    ensures Op.Lookup(name).Some? && Op.StrategyOf(Op.Lookup(name).value).None? ==> r == Failure(NoAddStrategy(name))
    ensures r.Success? ==> r.value.(selectConditions := q.selectConditions) == q
    ensures r.Success? ==> var op := Op.Lookup(name).value;
      Op.StrategyOf(op).Some? && r.value.selectConditions == ApplyStrategy(Op.StrategyOf(op).value, q.selectConditions, index, NewSelect(op))
  {
    match Op.Lookup(name)
    case None => Failure(UnknownOperator(name))
    case Some(op) =>
      match Op.StrategyOf(op)
      case None => Failure(NoAddStrategy(name))
      case Some(st) =>
        Op.TypeNameOfLookup(name);
        Success(q.(selectConditions := ApplyStrategy(st, q.selectConditions, index, SelectCondition(name, Op.CategoryOf(op), Op.DefaultParams(op)))))
  }

  method AddSelectConditions(q: Query, index: nat, name: string) returns (r: Result<Query, AddError>)
    requires index < |q.selectConditions|
    ensures r == SelectAdded(q, index, name)
  {
    var addOperator := Op.Lookup(name);
    if addOperator.None? {
      return Failure(UnknownOperator(name));
    }
    var op := addOperator.value;
    var strategy := Op.StrategyOf(op);
    if strategy.None? {
      return Failure(NoAddStrategy(name));
    }
    var newQuery := new QueryDraft(q);
    var newSelect := SelectCondition(name, Op.CategoryOf(op), Op.DefaultParams(op));
    newQuery.Apply(strategy.value, index, newSelect);
    return Success(newQuery.Value());
  }

  /** `changeSelectCondition`: only the parameters of part `partIndex` of chain `index` change. */
  function SelectChanged(q: Query, index: nat, partIndex: nat, newParams: seq<Param>): (r: Query)
    requires index < |q.selectConditions| && partIndex < |q.selectConditions[index]|
    ensures r.(selectConditions := q.selectConditions) == q
    ensures |r.selectConditions| == |q.selectConditions|
    ensures forall i | 0 <= i < |r.selectConditions| && i != index :: r.selectConditions[i] == q.selectConditions[i]
    ensures |r.selectConditions[index]| == |q.selectConditions[index]|
    ensures forall j | 0 <= j < |r.selectConditions[index]| && j != partIndex ::
              r.selectConditions[index][j] == q.selectConditions[index][j]
    ensures r.selectConditions[index][partIndex].params == newParams
    ensures r.selectConditions[index][partIndex].kind == q.selectConditions[index][partIndex].kind
    ensures r.selectConditions[index][partIndex].category == q.selectConditions[index][partIndex].category
  {
    var newSelect := q.selectConditions;
    var chain := newSelect[index];
    q.(selectConditions := newSelect[index := chain[partIndex := chain[partIndex].(params := newParams)]])
  }

  // ---------------------------------------------------------------------
  // Every edit keeps the chains the editor builds

  predicate AllEditorChains(chains: seq<seq<SelectCondition>>) {
    forall c | c in chains :: EditorChain(c)
  }

  /** The head of an editor chain is the `field` part. */
  lemma HeadIsField(s: seq<SelectCondition>)
    requires EditorChain(s)
    ensures s[0].kind == "field"
  {
    assert s[0] in s;
    Op.TypeNameOfLookup(s[0].kind);
  }

  lemma RemoveShift(a: seq<SelectCondition>, t: seq<SelectCondition>, k: nat)
    requires k < |t|
    ensures RemoveAt(a + t, |a| + k) == a + RemoveAt(t, k)
  {
    assert (a + t)[..|a| + k] == a + t[..k];
    assert (a + t)[|a| + k + 1..] == t[k + 1..];
  }

  lemma TailRemove(t: seq<SelectCondition>, k: nat)
    requires TailOrdered(t) && AliasLast(t) && AllRegistered(t) && k < |t|
    ensures var r := RemoveAt(t, k); TailOrdered(r) && AliasLast(r) && AllRegistered(r)
  {
    var r := RemoveAt(t, k);
    forall i | 0 <= i < |r|
      ensures r[i] == t[if i < k then i else i + 1]
    {
    }
    forall i | 0 <= i < |r|
      ensures StageAt(r, i) >= 3
    {
      assert StageAt(t, if i < k then i else i + 1) >= 3;
    }
    forall i, j | 0 <= i < j < |r|
      ensures StageAt(r, i) <= StageAt(r, j)
    {
      assert StageAt(t, if i < k then i else i + 1) <= StageAt(t, if j < k then j else j + 1);
    }
    assert forall y | y in r :: y in t;
  }

  lemma BlockRemove(p: seq<SelectCondition>, k: nat)
    requires Block(p) && AllRegistered(p) && k < |p|
    ensures Block(RemoveAt(p, k)) && AllRegistered(RemoveAt(p, k))
  {
    var q := RemoveAt(p, k);
    if |q| == 1 {
      assert q[0] == p[1 - k] && AggSelAt(p, 1 - k);
    }
    assert forall y | y in q :: y in p;
  }

  lemma BlockRemoveShift(h: SelectCondition, p: seq<SelectCondition>, t: seq<SelectCondition>, k: nat)
    requires k < |p|
    ensures RemoveAt([h] + p + t, k + 1) == [h] + RemoveAt(p, k) + t
  {
    var s := [h] + p + t;
    assert s[..k + 1] == [h] + p[..k];
    assert s[k + 2..] == p[k + 1..] + t;
  }

  /** Removing a part after the head keeps an editor chain. */
  lemma RemovePartKeepsEditorChain(s: seq<SelectCondition>, k: nat)
    requires EditorChain(s) && 1 <= k < |s|
    ensures EditorChain(RemoveAt(s, k))
  {
    var p, t := EditorChainParts(s);
    var h := s[0];
    if k <= |p| {
      var q := RemoveAt(p, k - 1);
      BlockRemove(p, k - 1);
      BlockRemoveShift(h, p, t, k - 1);
      PartsEditorChain(h, q, t);
    } else {
      var a := [h] + p;
      RemoveShift(a, t, k - 1 - |p|);
      TailRemove(t, k - 1 - |p|);
      PartsEditorChain(h, p, RemoveAt(t, k - 1 - |p|));
    }
  }

  lemma RemoveKeepsEditorChains(chains: seq<seq<SelectCondition>>, partIndex: nat, index: nat)
    requires index < |chains| && partIndex < |chains[index]| && AllEditorChains(chains)
    ensures AllEditorChains(RemovedSelect(chains, partIndex, index))
  {
    var s := chains[index];
    assert s in chains;
    HeadIsField(s);
    var r := RemovedSelect(chains, partIndex, index);
    if s[partIndex].kind != "field" {
      RemovePartKeepsEditorChain(s, partIndex);
      forall c | c in r
        ensures EditorChain(c)
      {
        var i :| 0 <= i < |r| && r[i] == c;
        if i != index {
          assert chains[i] in chains;
        }
      }
    } else if |chains| > 1 {
      forall c | c in r
        ensures EditorChain(c)
      {
        var i :| 0 <= i < |r| && r[i] == c;
        assert chains[if i < index then i else i + 1] in chains;
      }
    }
  }

  lemma AddKeepsEditorChains(q: Query, index: nat, name: string)
    requires index < |q.selectConditions| && AllEditorChains(q.selectConditions)
    ensures SelectAdded(q, index, name).Success? ==> AllEditorChains(SelectAdded(q, index, name).value.selectConditions)
  {
    var chains := q.selectConditions;
    var r := SelectAdded(q, index, name);
    if r.Success? {
      var op := Op.Lookup(name).value;
      var st := Op.StrategyOf(op).value;
      assert chains[index] in chains;
      var rs := r.value.selectConditions;
      if st == Op.AddFieldStrategy {
        assert forall c | c in rs :: c in chains;
      } else {
        AddKeepsEditorChain(chains, index, op);
        forall c | c in rs
          ensures EditorChain(c)
        {
          var i :| 0 <= i < |rs| && rs[i] == c;
          if i != index {
            assert chains[i] in chains;
          }
        }
      }
    }
  }

  lemma ChangeKeepsEditorChains(q: Query, index: nat, partIndex: nat, newParams: seq<Param>)
    requires index < |q.selectConditions| && partIndex < |q.selectConditions[index]|
    requires AllEditorChains(q.selectConditions)
    ensures AllEditorChains(SelectChanged(q, index, partIndex, newParams).selectConditions)
  {
    var chains := q.selectConditions;
    var rs := SelectChanged(q, index, partIndex, newParams).selectConditions;
    var s := chains[index];
    assert s in chains;
    SameShapeEditorChain(s, rs[index]);
    forall c | c in rs
      ensures EditorChain(c)
    {
      var i :| 0 <= i < |rs| && rs[i] == c;
      if i != index {
        assert chains[i] in chains;
      }
    }
  }

  /** Parts with the same operators and categories as an editor chain's form an editor chain: parameters play no part. */
  lemma SameShapeEditorChain(s: seq<SelectCondition>, r: seq<SelectCondition>)
    requires EditorChain(s) && |r| == |s|
    requires forall i | 0 <= i < |s| :: r[i].kind == s[i].kind && r[i].category == s[i].category
    ensures EditorChain(r)
  {
    forall i | 0 <= i < |r|
      ensures StageAt(r, i) == StageAt(s, i) && (AggSelAt(r, i) <==> AggSelAt(s, i))
    {
    }
    forall y | y in r
      ensures Registered(y)
    {
      var i :| 0 <= i < |r| && r[i] == y;
      assert s[i] in s;
    }
  }
}
