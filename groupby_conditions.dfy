/**
 * The GROUP BY list of the query editor: the options offered for a new
 * item, parsing an option such as `tag(location)`, and adding, removing
 * and changing items.
 */
module GroupbyConditions {
  import opened Wrappers
  import opened Types
  import opened Seqs
  import opened Text
  import opened Strategies

  /** The longest prefix of `s` made of word characters. */
  function WordPrefix(s: string): (r: string)
    ensures |r| <= |s| && r == s[..|r|]
    ensures forall i | 0 <= i < |r| :: IsWordChar(r[i])
    ensures |r| < |s| ==> !IsWordChar(s[|r|])
  {
    if |s| == 0 || !IsWordChar(s[0]) then "" else [s[0]] + WordPrefix(s[1..])
  }

  predicate IsWord(w: string) {
    |w| > 0 && forall i | 0 <= i < |w| :: IsWordChar(w[i])
  }

  /**
   * `item.match(/^(\w+)\((.*)\)$/)`: a word, `(`, any text without line
   * terminators, and a final `)`. The greedy word can only end at the
   * first non-word character, so the split is unique.
   */
  function ParseGroupbyItem(s: string): Option<(string, string)> {
    var w := WordPrefix(s);
    if |w| > 0 && |w| + 2 <= |s| && s[|w|] == '(' && s[|s| - 1] == ')' && NoLineTerminator(s[|w| + 1..|s| - 1])
    then Some((w, s[|w| + 1..|s| - 1]))
    else None
  }

  lemma {:induction false} WordPrefixOf(w: string, rest: string)
    requires forall i | 0 <= i < |w| :: IsWordChar(w[i])
    requires |rest| > 0 && !IsWordChar(rest[0])
    ensures WordPrefix(w + rest) == w
  {
    if |w| > 0 {
      assert (w + rest)[1..] == w[1..] + rest;
      WordPrefixOf(w[1..], rest);
    } else {
      assert (w + rest)[0] == rest[0];
    }
  }

  /** What the pattern accepts is exactly `word(value)` with a value on one line, and it gives back the two pieces. */
  lemma ParseGroupbyItemIff(s: string)
    ensures ParseGroupbyItem(s).Some? <==>
      exists w, v | IsWord(w) && NoLineTerminator(v) :: s == w + "(" + v + ")"
    ensures ParseGroupbyItem(s).Some? ==>
      var (w, v) := ParseGroupbyItem(s).value; IsWord(w) && NoLineTerminator(v) && s == w + "(" + v + ")"
  {
    var r := ParseGroupbyItem(s);
    if r.Some? {
      var (w, v) := r.value;
      assert s == w + "(" + v + ")";
    }
    if exists w, v | IsWord(w) && NoLineTerminator(v) :: s == w + "(" + v + ")" {
      var w, v :| IsWord(w) && NoLineTerminator(v) && s == w + "(" + v + ")";
      ParseGroupbyItemOf(w, v);
    }
  }

  /** Printing an item as `word(value)` and parsing it gives the item back. */
  lemma ParseGroupbyItemOf(w: string, v: string)
    requires IsWord(w) && NoLineTerminator(v)
    ensures ParseGroupbyItem(w + "(" + v + ")") == Some((w, v))
  {
    var s := w + "(" + v + ")";
    WordPrefixOf(w, "(" + v + ")");
    assert s == w + ("(" + v + ")");
    assert s[|w| + 1..|s| - 1] == v;
  }

  /** A value with a line terminator is never parsed. */
  lemma ParseGroupbyItemMultiline(w: string, v: string)
    requires IsWord(w) && !NoLineTerminator(v)
    ensures ParseGroupbyItem(w + "(" + v + ")") == None
  {
    var s := w + "(" + v + ")";
    WordPrefixOf(w, "(" + v + ")");
    assert s == w + ("(" + v + ")");
    assert s[|w| + 1..|s| - 1] == v;
  }

  predicate HasKind(g: seq<GroupbyCondition>, kind: string) {
    exists i | 0 <= i < |g| :: g[i].kind == kind
  }

  /** The options offered for a new GROUP BY item. */
  function GroupbyOptions(g: seq<GroupbyCondition>, tagKeys: seq<string>): (r: seq<string>)
    ensures "fill(null)" in r <==> !HasKind(g, "fill")
    ensures "time($__interval)" in r <==> !HasKind(g, "time")
    ensures var n := |r| - |tagKeys|; 0 <= n <= 2 && forall i | 0 <= i < |tagKeys| :: r[n + i] == "tag(" + tagKeys[i] + ")"
    ensures forall i | 0 <= i < |r| - |tagKeys| :: r[i] == "fill(null)" || r[i] == "time($__interval)"
  {
    TagOptionsExclude(tagKeys);
    (if HasKind(g, "fill") then [] else ["fill(null)"])
    + (if HasKind(g, "time") then [] else ["time($__interval)"])
    + TagOptions(tagKeys)
  }

  function TagOptions(tagKeys: seq<string>): (r: seq<string>)
    ensures |r| == |tagKeys| && forall i | 0 <= i < |r| :: r[i] == "tag(" + tagKeys[i] + ")"
  {
    seq(|tagKeys|, i requires 0 <= i < |tagKeys| => "tag(" + tagKeys[i] + ")")
  }

  lemma TagOptionsExclude(tagKeys: seq<string>)
    ensures "fill(null)" !in TagOptions(tagKeys) && "time($__interval)" !in TagOptions(tagKeys)
  {
    forall i | 0 <= i < |tagKeys|
      ensures TagOptions(tagKeys)[i][1] == 'a'
    {
    }
  }

  lemma HasKindSnoc(g: seq<GroupbyCondition>, i: nat, kind: string)
    requires i < |g|
    ensures HasKind(g[..i + 1], kind) <==> HasKind(g[..i], kind) || g[i].kind == kind
  {
    assert forall k | 0 <= k < i :: g[..i + 1][k] == g[..i][k];
    assert g[..i + 1][i] == g[i];
  }

  /** `getGroupbyOptions`, with the tag keys already fetched. */
  method GetGroupbyOptions(g: seq<GroupbyCondition>, tagKeys: seq<string>) returns (options: seq<string>)
    ensures options == GroupbyOptions(g, tagKeys)
  {
    var hasTime, hasFill := ScanKinds(g);
    var head: seq<string> := if hasFill then [] else ["fill(null)"];
    if !hasTime {
      head := head + ["time($__interval)"];
    }
    assert head == (if hasFill then [] else ["fill(null)"]) + (if hasTime then [] else ["time($__interval)"]);
    options := AppendTagOptions(head, tagKeys);
  }

  /** The loop of `getGroupbyOptions` that looks for `time` and `fill` items. */
  method ScanKinds(g: seq<GroupbyCondition>) returns (hasTime: bool, hasFill: bool)
    ensures hasTime == HasKind(g, "time") && hasFill == HasKind(g, "fill")
  {
    hasTime, hasFill := false, false;
    var i := 0;
    while i < |g|
      invariant 0 <= i <= |g|
      invariant hasTime == HasKind(g[..i], "time")
      invariant hasFill == HasKind(g[..i], "fill")
    {
      HasKindSnoc(g, i, "time");
      HasKindSnoc(g, i, "fill");
      if g[i].kind == "time" {
        hasTime := true;
      } else if g[i].kind == "fill" {
        hasFill := true;
      }
      i := i + 1;
    }
    assert g[..i] == g;
  }

  /** The loop of `getGroupbyOptions` that offers `tag(key)` for every tag key. */
  method AppendTagOptions(head: seq<string>, tagKeys: seq<string>) returns (options: seq<string>)
    ensures options == head + TagOptions(tagKeys)
  {
    options := head;
    var j := 0;
    while j < |tagKeys|
      invariant 0 <= j <= |tagKeys|
      invariant options == head + TagOptions(tagKeys[..j])
    {
      assert TagOptions(tagKeys[..j + 1]) == TagOptions(tagKeys[..j]) + ["tag(" + tagKeys[j] + ")"];
      options := options + ["tag(" + tagKeys[j] + ")"];
      j := j + 1;
    }
    assert tagKeys[..j] == tagKeys;
  }

  /**
   * `addGroupbyCondition`: an unparsable option changes nothing; the first
   * item goes in alone; `time` goes to the front; `tag` goes before a
   * trailing `fill`; anything else is appended.
   */
  function GroupbyAdded(g: seq<GroupbyCondition>, item: string): (r: seq<GroupbyCondition>)
    ensures ParseGroupbyItem(item).None? ==> r == g
    ensures ParseGroupbyItem(item).Some? ==> |r| == |g| + 1
  {
    match ParseGroupbyItem(item)
    case None => g
    case Some((kind, value)) =>
      var newGroup := GroupbyCondition(kind, [PStr(value)]);
      if |g| == 0 then [newGroup]
      else if kind == "time" then [newGroup] + g
      else if kind == "tag" && g[|g| - 1].kind == "fill" then
        assert g == g[..|g| - 1] + g[|g| - 1..];
        Insert(g, |g| - 1, newGroup)
      else g + [newGroup]
  }

  /**
   * A parsed option adds exactly one item, `{type, params: [value]}`, and
   * keeps the others in order: at the front for `time`, before the last
   * item for a `tag` ahead of a trailing `fill`, else at the end.
   */
  lemma GroupbyAddedInserts(g: seq<GroupbyCondition>, item: string) returns (k: nat)
    requires ParseGroupbyItem(item).Some?
    ensures var (kind, value) := ParseGroupbyItem(item).value;
      k <= |g| && GroupbyAdded(g, item) == g[..k] + [GroupbyCondition(kind, [PStr(value)])] + g[k..]
      && k == (if |g| == 0 || kind == "time" then 0
               else if kind == "tag" && g[|g| - 1].kind == "fill" then |g| - 1
               else |g|)
  {
    var (kind, value) := ParseGroupbyItem(item).value;
    if |g| == 0 || kind == "time" {
      k := 0;
    } else if kind == "tag" && g[|g| - 1].kind == "fill" {
      k := |g| - 1;
    } else {
      k := |g|;
    }
  }

  method AddGroupbyCondition(q: Query, item: string) returns (r: Query)
    ensures r == q.(groupbyConditions := GroupbyAdded(q.groupbyConditions, item))
  {
    var newQuery := new QueryDraft(q);
    var matchString := ParseGroupbyItem(item);
    if matchString.None? {
      return newQuery.Value();
    }
    var (kind, value) := matchString.value;
    var count := |newQuery.groupbyConditions|;
    var newGroup := GroupbyCondition(kind, [PStr(value)]);
    if count == 0 {
      newQuery.groupbyConditions := newQuery.groupbyConditions + [newGroup];
      return newQuery.Value();
    } else if kind == "time" {
      newQuery.groupbyConditions := [newGroup] + newQuery.groupbyConditions;
      return newQuery.Value();
    } else if kind == "tag" {
      if newQuery.groupbyConditions[count - 1].kind == "fill" {
        newQuery.groupbyConditions := Insert(newQuery.groupbyConditions, count - 1, newGroup);
        return newQuery.Value();
      }
    }
    newQuery.groupbyConditions := newQuery.groupbyConditions + [newGroup];
    return newQuery.Value();
  }

  /** `removeGroupbyCondition`: `splice(index, 1)`, which does nothing past the end. */
  function GroupbyRemoved(g: seq<GroupbyCondition>, index: nat): (r: seq<GroupbyCondition>)
    ensures index >= |g| ==> r == g
    ensures index < |g| ==> |r| == |g| - 1 && r == g[..index] + g[index + 1..]
  {
    if index < |g| then RemoveAt(g, index) else g
  }

  method RemoveGroupbyCondition(q: Query, index: nat) returns (r: Query)
    ensures r == q.(groupbyConditions := GroupbyRemoved(q.groupbyConditions, index))
  {
    var newQuery := new QueryDraft(q);
    if index < |newQuery.groupbyConditions| {
      newQuery.groupbyConditions := RemoveAt(newQuery.groupbyConditions, index);
    }
    r := newQuery.Value();
  }

  /** `changeGroupbyCondition`: new parameters for item `index`, its type and the other items kept. */
  function GroupbyChanged(q: Query, index: nat, newParams: seq<Param>): (r: Query)
    requires index < |q.groupbyConditions|
    ensures r.(groupbyConditions := q.groupbyConditions) == q
    ensures |r.groupbyConditions| == |q.groupbyConditions|
    ensures r.groupbyConditions[index] == GroupbyCondition(q.groupbyConditions[index].kind, newParams)
    ensures forall i | 0 <= i < |q.groupbyConditions| && i != index :: r.groupbyConditions[i] == q.groupbyConditions[i]
  {
    var newGroup := q.groupbyConditions;
    q.(groupbyConditions := newGroup[index := newGroup[index].(params := newParams)])
  }

  // ---------------------------------------------------------------------
  // The lists the editor builds

  /**
   * Items are `time`, `fill` or `tag`; a `time` item can only be first
   * and a `fill` item only last, so there is at most one of each.
   */
  predicate GroupbyWellFormed(g: seq<GroupbyCondition>) {
    (forall i | 0 <= i < |g| :: g[i].kind == "time" || g[i].kind == "fill" || g[i].kind == "tag")
    && (forall i | 0 <= i < |g| && g[i].kind == "time" :: i == 0)
    && (forall i | 0 <= i < |g| && g[i].kind == "fill" :: i == |g| - 1)
  }

  /** What an offered option can be. */
  lemma OfferedOption(g: seq<GroupbyCondition>, tagKeys: seq<string>, item: string)
    requires item in GroupbyOptions(g, tagKeys)
    ensures (item == "fill(null)" && !HasKind(g, "fill"))
         || (item == "time($__interval)" && !HasKind(g, "time"))
         || exists key | key in tagKeys :: item == "tag(" + key + ")"
  {
    var opts := GroupbyOptions(g, tagKeys);
    var n := |opts| - |tagKeys|;
    var k :| 0 <= k < |opts| && opts[k] == item;
    if k >= n {
      var key := tagKeys[k - n];
      assert opts[n + (k - n)] == "tag(" + key + ")";
      assert key in tagKeys && item == "tag(" + key + ")";
    } else if item == "fill(null)" {
      assert !HasKind(g, "fill");
    } else {
      assert item == "time($__interval)";
      assert !HasKind(g, "time");
    }
  }

  /** Adding any option that is offered keeps the list well formed. */
  lemma AddOfferedKeepsWellFormed(g: seq<GroupbyCondition>, tagKeys: seq<string>, item: string)
    requires GroupbyWellFormed(g) && item in GroupbyOptions(g, tagKeys)
    ensures GroupbyWellFormed(GroupbyAdded(g, item))
  {
    if item == "fill(null)" {
      FillNullText();
      AddFillKeepsWellFormed(g, "null");
    } else if item == "time($__interval)" {
      TimeIntervalText();
      AddTimeKeepsWellFormed(g, "$__interval");
    } else {
      var key := OfferedTagKey(g, tagKeys, item);
      TagText(key);
      AddTagKeepsWellFormed(g, key);
    }
  }

  lemma OfferedTagKey(g: seq<GroupbyCondition>, tagKeys: seq<string>, item: string) returns (key: string)
    requires item in GroupbyOptions(g, tagKeys) && item != "fill(null)" && item != "time($__interval)"
    ensures key in tagKeys && item == "tag(" + key + ")"
  {
    var opts := GroupbyOptions(g, tagKeys);
    var n := |opts| - |tagKeys|;
    var k :| 0 <= k < |opts| && opts[k] == item;
    key := tagKeys[k - n];
    assert opts[n + (k - n)] == "tag(" + key + ")";
  }

  lemma FillNullText()
    ensures "fill" + "(" + "null" + ")" == "fill(null)"
  {
  }

  lemma TimeIntervalText()
    ensures "time" + "(" + "$__interval" + ")" == "time($__interval)"
  {
  }

  lemma TagText(key: string)
    ensures "tag" + "(" + key + ")" == "tag(" + key + ")"
  {
    assert "tag" + "(" == "tag(";
  }

  lemma AddTagKeepsWellFormed(g: seq<GroupbyCondition>, key: string)
    requires GroupbyWellFormed(g)
    ensures GroupbyWellFormed(GroupbyAdded(g, "tag" + "(" + key + ")"))
  {
    var item := "tag" + "(" + key + ")";
    var r := GroupbyAdded(g, item);
    assert IsWord("tag");
    if NoLineTerminator(key) {
      ParseGroupbyItemOf("tag", key);
      var x := GroupbyCondition("tag", [PStr(key)]);
      if |g| > 0 && g[|g| - 1].kind == "fill" {
        assert r == Insert(g, |g| - 1, x);
        forall i | 0 <= i < |r|
          ensures r[i] == if i < |g| - 1 then g[i] else if i == |g| - 1 then x else g[|g| - 1]
        {
        }
      } else {
        assert r == g + [x];
      }
    } else {
      ParseGroupbyItemMultiline("tag", key);
    }
  }

  lemma AddFillKeepsWellFormed(g: seq<GroupbyCondition>, v: string)
    requires GroupbyWellFormed(g) && !HasKind(g, "fill") && NoLineTerminator(v)
    ensures GroupbyWellFormed(GroupbyAdded(g, "fill" + "(" + v + ")"))
  {
    assert IsWord("fill");
    ParseGroupbyItemOf("fill", v);
    var k := GroupbyAddedInserts(g, "fill" + "(" + v + ")");
    assert k == |g|;
  }

  lemma AddTimeKeepsWellFormed(g: seq<GroupbyCondition>, v: string)
    requires GroupbyWellFormed(g) && !HasKind(g, "time") && NoLineTerminator(v)
    ensures GroupbyWellFormed(GroupbyAdded(g, "time" + "(" + v + ")"))
  {
    assert IsWord("time");
    ParseGroupbyItemOf("time", v);
    var x := GroupbyCondition("time", [PStr(v)]);
    var k := GroupbyAddedInserts(g, "time" + "(" + v + ")");
    assert k == 0;
    var r := GroupbyAdded(g, "time" + "(" + v + ")");
    assert r == [x] + g;
    forall i | 1 <= i < |r|
      ensures r[i] == g[i - 1]
    {
    }
  }

  lemma RemoveKeepsWellFormed(g: seq<GroupbyCondition>, index: nat)
    requires GroupbyWellFormed(g)
    ensures GroupbyWellFormed(GroupbyRemoved(g, index))
  {
    var r := GroupbyRemoved(g, index);
    if index < |g| {
      forall i | 0 <= i < |r|
        ensures r[i] == g[if i < index then i else i + 1]
      {
      }
    }
  }

  lemma ChangeKeepsWellFormed(q: Query, index: nat, newParams: seq<Param>)
    requires index < |q.groupbyConditions| && GroupbyWellFormed(q.groupbyConditions)
    ensures GroupbyWellFormed(GroupbyChanged(q, index, newParams).groupbyConditions)
  {
  }
}
