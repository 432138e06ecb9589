/**
 * The WHERE statements of the query editor: appending a default statement
 * for a chosen column, removing a statement and changing one slot of it.
 */
module WhereSection {
  import opened Types
  import opened Seqs

  /** `defaultStatement`: `['select column', '=', 'value', 'AND']`. */
  const DefaultStatement: WhereStatement := WhereStatement("select column", "=", PStr("value"), "AND")

  /** `addCondition`: the chosen column with the rest of the default statement, after the existing ones. */
  function AddCondition(ws: seq<WhereStatement>, column: string): (r: seq<WhereStatement>)
    ensures |r| == |ws| + 1 && r[..|ws|] == ws
    ensures r[|ws|] == DefaultStatement.(key := column)
    ensures r[|ws|] == WhereStatement(column, "=", PStr("value"), "AND")
  {
    ws + [WhereStatement(column, DefaultStatement.operator, DefaultStatement.value, DefaultStatement.connector)]
  }

  /** The statement with slot `changeType` (0 key, 1 operator, 2 value, 3 connector) set to `select`. */
  function SetSlot(st: WhereStatement, changeType: nat, select: Param): (r: WhereStatement)
    requires changeType <= 3 && (changeType != 2 ==> select.PStr?)
    ensures r.key == (if changeType == 0 then select.str else st.key)
    ensures r.operator == (if changeType == 1 then select.str else st.operator)
    ensures r.value == (if changeType == 2 then select else st.value)
    ensures r.connector == (if changeType == 3 then select.str else st.connector)
  {
    match changeType
    case 0 => st.(key := select.str)
    case 1 => st.(operator := select.str)
    case 2 => st.(value := select)
    case _ => st.(connector := select.str)
  }

  /**
   * `conditionChange`: `remove` chosen in slot 0 deletes statement `index`
   * (nothing past the end); any other choice replaces that slot of
   * statement `index` and nothing else. The incoming list is a value, so it
   * is never changed.
   */
  function ConditionChange(ws: seq<WhereStatement>, select: Param, index: nat, changeType: nat): (r: seq<WhereStatement>)
    requires changeType <= 3 && (changeType != 2 ==> select.PStr?)
    ensures changeType == 0 && select == PStr("remove") ==>
              r == if index < |ws| then ws[..index] + ws[index + 1..] else ws
    ensures !(changeType == 0 && select == PStr("remove")) ==>
              |r| == |ws| && forall i | 0 <= i < |ws| :: r[i] == if i == index then SetSlot(ws[i], changeType, select) else ws[i]
  {
    if changeType == 0 && select == PStr("remove") then
      if index < |ws| then RemoveAt(ws, index) else ws
    else
      seq(|ws|, i requires 0 <= i < |ws| => if i != index then ws[i] else SetSlot(ws[i], changeType, select))
  }

  /** Removing the statement just added gives back the list. */
  lemma AddThenRemove(ws: seq<WhereStatement>, column: string)
    ensures ConditionChange(AddCondition(ws, column), PStr("remove"), |ws|, 0) == ws
  {
    var a := AddCondition(ws, column);
    assert a[..|ws|] == ws;
  }

  /** Setting a slot to the value it already holds changes nothing. */
  lemma ChangeToSameValue(ws: seq<WhereStatement>, index: nat, changeType: nat)
    requires index < |ws| && changeType <= 3 && changeType != 0
    ensures var st := ws[index];
      var select := match changeType case 1 => PStr(st.operator) case 2 => st.value case _ => PStr(st.connector);
      ConditionChange(ws, select, index, changeType) == ws
  {
  }

  /** The statement the test changes: `>` in the operator slot of `['tagKey1::tag', '=', 'value', 'AND']`. */
  lemma OperatorChangeExample()
    ensures ConditionChange(AddCondition([], "tagKey1::tag"), PStr(">"), 0, 1)
      == [WhereStatement("tagKey1::tag", ">", PStr("value"), "AND")]
  {
  }
}
