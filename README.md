# openGemini data source for Grafana: query editor and client core

This project models the logic of the Grafana data-source plugin for openGemini and proves properties of that model. It covers two parts.

**The visual query editor.**
- The operator registry: type names, categories, default parameters, insertion strategies and renderers.
- The in-place insertion strategies that place a new operator in a select chain.
- The select, group-by and WHERE editing hooks.
- The builder that turns an edited query into openGemini query text.
- The builder of metadata queries (`SHOW ... KEYS`, `SHOW MEASUREMENTS`, ...).

**The client.**
- Mapping a decoded query response to data frames: field types, field names, alias templates, tag merging for tables.
- Parsing distinct values for template variables (`responseParse`).
- Rendering the panel's time range as a `time >= ... and time <= ...` predicate and substituting it for `$timeFilter`.

## Structure

- **Modules and files.** One module per source concern:
  - `Operators` (operators.dfy);
  - `Strategies` (strategies.dfy);
  - `ChainValidity` (chain_validity.dfy);
  - `SelectHooks`, `GroupbyConditions` and `WhereSection`;
  - `QueryBuilder` and `MetaQuery`;
  - `ResponseMapper` and `Alias`;
  - `DistinctValues` and `TimeFilter`.
- **Shared modules.**
  - `Types` and `Wire` hold the query and response shapes.
  - `Text` holds the string operations the source borrows from JavaScript: `indexOf`, `replace` of the first match, `split`/`join`, `parseInt`, `toLowerCase` and number-to-string.
  - `Wrappers` and `Seqs` hold `Option`/`Result` and `splice`-style insert/remove.
- **Code that mutates in place is imperative Dafny.**
  - The operator table is a class whose `Register` updates three tables.
  - A query copy (`QueryDraft`) carries the select chains, which the `add*` strategies change with loops.
  - `resolveTableData` rewrites an `array` of series in place.
  - The text builder, the option scanner and `responseParse` accumulate with loops.
  - Each method is proved equal to a specification function, and the properties are proved about those functions.
- **Behaviour the model takes from the code that may surprise a reader:**
  - `responseParse` reads the first cell of each row for any query whose text contains `show field keys` or `show retention policies`, in any letter case. For every other query it reads the second cell when the row has one, and the first otherwise.
  - `resolveTableData` always names fields in table style, so the logs naming branch of `resolveFields` is never reached from `queryData`.
  - `addField` appends a copy of the current chain and does not use the new item.
  - When the last item of a chain is not Math but the second-to-last is, `addMath` inserts the new item at index `count - 2`, before that second-to-last item.
  - A `$tag_k` alias token for a tag the series lacks renders as the text `undefined`, except for the inherited property names listed under Left out.

## Model

| member | source | states |
|---|---|---|
| Operators.LookupTypeName | src/components/QueryEditor/VisualQueryEditor/operators.ts:38-45 | every operator is found again under the type name it was registered with |
| Operators.TypeNameOfLookup | src/components/QueryEditor/VisualQueryEditor/operators.ts:38-45 | every name the registry answers for is the type name of the operator it returns, so names and operators are in one-to-one correspondence |
| Operators.RegistrationsComplete | src/components/QueryEditor/VisualQueryEditor/operators.ts:164-490 | every operator of the closed set is among the registrations |
| Operators.MembersIn | src/components/QueryEditor/VisualQueryEditor/operators.ts:38-45 | a category's list holds exactly the registered operators of that category |
| Operators.GroupbyMembers | src/components/QueryEditor/VisualQueryEditor/operators.ts:36-45 | the group-by list holds exactly the registrations made with `isOperator` false |
| Operators.OperatorTable.constructor | src/components/QueryEditor/VisualQueryEditor/operators.ts:32-36 | the name map is empty, each of the seven select categories has an empty list, and the group-by list is empty |
| Operators.OperatorTable.Register | src/components/QueryEditor/VisualQueryEditor/operators.ts:38-45 | the name maps to the operator; a select operator is appended to its category's list and leaves the group-by list alone; a group-by operator is appended to the group-by list and leaves the categories alone |
| Operators.RegisterInOrder | src/components/QueryEditor/VisualQueryEditor/operators.ts:164-490 | after registering a sequence in order, the three tables are the name map, category lists and group-by list of that sequence |
| Operators.RegisterStep | src/components/QueryEditor/VisualQueryEditor/operators.ts:38-45 | one registration extends the specified tables of the registrations so far by exactly that operator |
| Operators.RegisterAll | src/components/QueryEditor/VisualQueryEditor/operators.ts:164-490 | the built table knows exactly the names the registry resolves, maps each to the same operator, lists each category's operators, and lists time, fill and tag as group-by operators |
| Operators.RegisteredNamesAgreeWithLookup | src/components/QueryEditor/VisualQueryEditor/operators.ts:164-490 | the name map of all registrations has the same domain and values as the registry lookup |
| Operators.NameMapAgreesWithLookup | src/components/QueryEditor/VisualQueryEditor/operators.ts:38-45 | every registered name resolves in the lookup to the operator it maps to, and every registered operator's name is in the map |
| Operators.UnquoteQuotedKey | src/components/QueryEditor/VisualQueryEditor/operators.ts:47-64 | quoting a key (with `::tag`/`::field` moved after the quotes) is undone by unquoting |
| Operators.FieldText | src/components/QueryEditor/VisualQueryEditor/operators.ts:47-64 | the rendered field, except `*`, unquotes back to the field name |
| Operators.RenderPart | src/components/utils/index.ts:17-20 | an unregistered type fails with UnknownOperator (the source throws on a missing operator); a successful rendering is never empty |
| Operators.FunctionTextNests | src/components/QueryEditor/VisualQueryEditor/operators.ts:65-71 | `type(args)` with the inner text as the first argument exactly when it is non-empty |
| Strategies.FirstAggSel | src/components/QueryEditor/VisualQueryEditor/operators.ts:86-92 | the index of the first Aggregation or Selector, and the length when there is none |
| Strategies.FirstMathOrAlias | src/components/QueryEditor/VisualQueryEditor/operators.ts:123-133 | the index of the first Math or Aliasing item, and the length when there is none |
| Strategies.QueryDraft.constructor | src/components/QueryEditor/hooks/useSelectConditions.ts:40 | the copy starts with the query's select and group-by lists |
| Strategies.QueryDraft.Value | src/components/QueryEditor/hooks/useSelectConditions.ts:40-45 | the copy's query differs from the original only in its select and group-by lists |
| Strategies.QueryDraft.AddField | src/components/QueryEditor/VisualQueryEditor/operators.ts:80-85 | a copy of chain `index` is appended to the select list and the new item is ignored |
| Strategies.QueryDraft.AddAggregations | src/components/QueryEditor/VisualQueryEditor/operators.ts:86-122 | the scan loop leaves chain `index` as the aggregation placement specifies, with every other chain unchanged |
| Strategies.QueryDraft.AddTransformation | src/components/QueryEditor/VisualQueryEditor/operators.ts:123-133 | the scan loop inserts the item as the transformation placement specifies, with every other chain unchanged |
| Strategies.QueryDraft.AddMath | src/components/QueryEditor/VisualQueryEditor/operators.ts:135-152 | chain `index` becomes its math placement, including the `count - 2` case |
| Strategies.QueryDraft.AddAlias | src/components/QueryEditor/VisualQueryEditor/operators.ts:154-162 | chain `index` becomes its alias placement |
| Strategies.QueryDraft.Apply | src/components/QueryEditor/hooks/useSelectConditions.ts:42-44 | dispatching on the operator's strategy updates the chains as that strategy's placement function says |
| Strategies.TransformationPlacementKeepsOrder | src/components/QueryEditor/VisualQueryEditor/operators.ts:123-133 | the item lands just before the first Math/Aliasing item and the order of all other items is preserved |
| Strategies.TransformationAppendsWithoutMath | src/components/QueryEditor/VisualQueryEditor/operators.ts:123-133 | without Math or Aliasing the transformation is appended |
| Strategies.AliasPlacementEndsWithAlias | src/components/QueryEditor/VisualQueryEditor/operators.ts:154-162 | the new alias is last, replacing a trailing alias and otherwise appended |
| ChainValidity.IsValidSelect | src/test/components/QueryEditor/hooks/useSelectConditions.test.ts:186-226 | the loop computes exactly the chain-validity predicate (field head, category order with the Predictor-then-Transformation exception, at most two Aggregations/Selectors and two only as `distinct, count` at 1 and 2) |
| ChainValidity.ValidIffStaged | src/test/components/QueryEditor/hooks/useSelectConditions.test.ts:186-226 | validity is equivalent to a declarative staging: field head, ordered categories, Aggregations/Selectors contiguous after the head |
| ChainValidity.StagedParts | src/test/components/QueryEditor/hooks/useSelectConditions.test.ts:186-226 | a staged chain splits into head, an aggregation block and an ordered tail |
| ChainValidity.PartsEditorChain | src/test/components/QueryEditor/hooks/useSelectConditions.test.ts:186-226 | a field head, an aggregation block and an ordered tail ending in at most one alias form a chain the editor can produce |
| ChainValidity.DefaultChainIsEditorChain | src/test/components/QueryEditor/hooks/useSelectConditions.test.ts:9-17 | the tests' starting chain `[field, count]` is such a chain |
| ChainValidity.CountAppend | src/test/components/QueryEditor/hooks/useSelectConditions.test.ts:212-214 | the Aggregation/Selector count of a concatenation is the sum of the counts |
| ChainValidity.AggregationsKeepEditorChain | src/components/QueryEditor/VisualQueryEditor/operators.ts:86-122 | adding an Aggregation or Selector keeps an editor chain an editor chain |
| ChainValidity.AggregationsSame | src/components/QueryEditor/VisualQueryEditor/operators.ts:93-96 | re-adding the Aggregation already in place is a no-op |
| ChainValidity.AggregationsDistinctBeforeCount | src/components/QueryEditor/VisualQueryEditor/operators.ts:89-96 | adding `distinct` to `[field, count, ...]` inserts it before `count` |
| ChainValidity.AggregationsReplaceDistinct | src/components/QueryEditor/VisualQueryEditor/operators.ts:97-109 | adding another Aggregation where `distinct` stands replaces `distinct` and removes a following Aggregation |
| ChainValidity.AggregationsCountAfterDistinct | src/components/QueryEditor/VisualQueryEditor/operators.ts:97-109 | adding `count` after `distinct` inserts it right after, unless a `count` already follows |
| ChainValidity.AggregationsReplace | src/components/QueryEditor/VisualQueryEditor/operators.ts:111-121 | otherwise the first Aggregation or Selector is replaced by the new item |
| ChainValidity.TransformationKeepsEditorChain | src/components/QueryEditor/VisualQueryEditor/operators.ts:123-133 | adding a Transformation or Predictor keeps an editor chain an editor chain |
| ChainValidity.MathKeepsTail | src/components/QueryEditor/VisualQueryEditor/operators.ts:135-152 | the math placement keeps the tail ordered with the alias last |
| ChainValidity.MathKeepsEditorChain | src/components/QueryEditor/VisualQueryEditor/operators.ts:135-152 | adding Math keeps an editor chain an editor chain |
| ChainValidity.AliasKeepsEditorChain | src/components/QueryEditor/VisualQueryEditor/operators.ts:154-162 | adding an alias keeps an editor chain an editor chain |
| ChainValidity.TailInsert | src/components/QueryEditor/VisualQueryEditor/operators.ts:123-152 | inserting an item between neighbours of lower and higher stage keeps the tail ordered |
| ChainValidity.TailUpdate | src/components/QueryEditor/VisualQueryEditor/operators.ts:154-162 | replacing an item by one of a fitting stage keeps the tail ordered |
| ChainValidity.AddKeepsEditorChain | src/test/components/QueryEditor/hooks/useSelectConditions.test.ts:153-170 | any non-field addition to an editor chain leaves that chain valid and still an editor chain, with every other chain unchanged |
| ChainValidity.MathAfterDoubleAliasBreaksValidity | src/components/QueryEditor/VisualQueryEditor/operators.ts:135-152 | validity alone is not preserved: `[field, alias, alias]` is valid but adding Math makes it invalid |
| SelectHooks.RemovedSelect | src/components/QueryEditor/hooks/useSelectConditions.ts:25-37 | removing a field head deletes that whole chain when there are several, and does nothing to the only chain; removing any other part deletes exactly that part |
| SelectHooks.RemoveSelectConditions | src/components/QueryEditor/hooks/useSelectConditions.ts:25-37 | the copy differs from the query only in its select list, which is as RemovedSelect specifies |
| SelectHooks.SelectAdded | src/components/QueryEditor/hooks/useSelectConditions.ts:39-46 | an unknown type fails with UnknownOperator and an operator without an add strategy (the group-by operators) with NoAddStrategy; on success only the select list changes, by the operator's strategy applied to a new item with the registry's category and default parameters |
| SelectHooks.AddSelectConditions | src/components/QueryEditor/hooks/useSelectConditions.ts:39-46 | the method's result is SelectAdded |
| SelectHooks.SelectChanged | src/components/QueryEditor/hooks/useSelectConditions.ts:48-56 | only the params of part `[index][partIndex]` change; its type, its category and every other part stay |
| SelectHooks.HeadIsField | src/components/QueryEditor/hooks/useSelectConditions.ts:28 | an editor chain's head is the `field` operator |
| SelectHooks.RemovePartKeepsEditorChain | src/components/QueryEditor/hooks/useSelectConditions.ts:32-34 | removing a non-head part keeps an editor chain an editor chain |
| SelectHooks.RemoveKeepsEditorChains | src/components/QueryEditor/hooks/useSelectConditions.ts:25-37 | removal keeps every chain an editor chain |
| SelectHooks.AddKeepsEditorChains | src/components/QueryEditor/hooks/useSelectConditions.ts:39-46 | a successful addition keeps every chain an editor chain |
| SelectHooks.ChangeKeepsEditorChains | src/components/QueryEditor/hooks/useSelectConditions.ts:48-56 | a params change keeps every chain an editor chain |
| SelectHooks.SameShapeEditorChain | src/components/QueryEditor/hooks/useSelectConditions.ts:48-56 | being an editor chain depends only on types and categories, not params |
| GroupbyConditions.WordPrefix | src/components/QueryEditor/hooks/useGroupbyConditions.ts:46 | the longest prefix of `\w` characters |
| GroupbyConditions.ParseGroupbyItemIff | src/components/QueryEditor/hooks/useGroupbyConditions.ts:46-50 | an item parses iff it is `word(value)` with a value free of line terminators, and then yields that word and value |
| GroupbyConditions.ParseGroupbyItemOf | src/components/QueryEditor/hooks/useGroupbyConditions.ts:46-50 | `word(value)` parses to exactly `(word, value)` |
| GroupbyConditions.ParseGroupbyItemMultiline | src/components/QueryEditor/hooks/useGroupbyConditions.ts:46-49 | a value spanning lines does not match |
| GroupbyConditions.GroupbyOptions | src/components/QueryEditor/hooks/useGroupbyConditions.ts:17-41 | `fill(null)` is offered iff there is no fill, `time($__interval)` iff there is no time, and then `tag(k)` for each key in order |
| GroupbyConditions.TagOptions | src/components/QueryEditor/hooks/useGroupbyConditions.ts:36-38 | one `tag(k)` option per key, in order |
| GroupbyConditions.TagOptionsExclude | src/components/QueryEditor/hooks/useGroupbyConditions.ts:30-38 | no tag option is mistaken for the fill or time option |
| GroupbyConditions.GetGroupbyOptions | src/components/QueryEditor/hooks/useGroupbyConditions.ts:17-41 | the loops build exactly GroupbyOptions |
| GroupbyConditions.ScanKinds | src/components/QueryEditor/hooks/useGroupbyConditions.ts:21-29 | the scan reports whether a time and a fill item exist |
| GroupbyConditions.AppendTagOptions | src/components/QueryEditor/hooks/useGroupbyConditions.ts:36-38 | the loop appends the tag options to what is there |
| GroupbyConditions.GroupbyAdded | src/components/QueryEditor/hooks/useGroupbyConditions.ts:43-69 | an unparsable item leaves the list unchanged, and a parsable one adds exactly one item |
| GroupbyConditions.GroupbyAddedInserts | src/components/QueryEditor/hooks/useGroupbyConditions.ts:52-68 | the parsed item is inserted: first when the list is empty or the item is time, before a trailing fill for a tag, otherwise last |
| GroupbyConditions.AddGroupbyCondition | src/components/QueryEditor/hooks/useGroupbyConditions.ts:43-69 | the copy differs from the query only by GroupbyAdded |
| GroupbyConditions.GroupbyRemoved | src/components/QueryEditor/hooks/useGroupbyConditions.ts:71-75 | exactly the element at `index` is deleted, and an out-of-range index changes nothing |
| GroupbyConditions.RemoveGroupbyCondition | src/components/QueryEditor/hooks/useGroupbyConditions.ts:71-75 | the copy differs from the query only by GroupbyRemoved |
| GroupbyConditions.GroupbyChanged | src/components/QueryEditor/hooks/useGroupbyConditions.ts:77-84 | only the params at `index` change, with its type and every other item kept |
| GroupbyConditions.OfferedOption | src/components/QueryEditor/hooks/useGroupbyConditions.ts:30-38 | every offered option is fill without a fill, time without a time, or a tag of a given key |
| GroupbyConditions.OfferedTagKey | src/components/QueryEditor/hooks/useGroupbyConditions.ts:36-38 | an offered option that is neither fill nor time names one of the tag keys |
| GroupbyConditions.AddOfferedKeepsWellFormed | src/components/QueryEditor/hooks/useGroupbyConditions.ts:17-69 | adding any offered option keeps at most one time (first) and at most one fill |
| GroupbyConditions.AddTagKeepsWellFormed | src/components/QueryEditor/hooks/useGroupbyConditions.ts:61-68 | adding a tag keeps the list well formed |
| GroupbyConditions.AddFillKeepsWellFormed | src/components/QueryEditor/hooks/useGroupbyConditions.ts:67-68 | adding a fill where there is none keeps the list well formed |
| GroupbyConditions.AddTimeKeepsWellFormed | src/components/QueryEditor/hooks/useGroupbyConditions.ts:58-60 | adding a time where there is none keeps the list well formed |
| GroupbyConditions.RemoveKeepsWellFormed | src/components/QueryEditor/hooks/useGroupbyConditions.ts:71-75 | removal keeps the list well formed |
| GroupbyConditions.ChangeKeepsWellFormed | src/components/QueryEditor/hooks/useGroupbyConditions.ts:77-84 | a params change keeps the list well formed |
| WhereSection.AddCondition | src/components/QueryEditor/VisualQueryEditor/WhereSection.tsx:16-34 | the statements are kept and `[column, '=', 'value', 'AND']` is appended |
| WhereSection.SetSlot | src/components/QueryEditor/VisualQueryEditor/WhereSection.tsx:45-46 | only slot `changeType` of the statement takes the new value |
| WhereSection.ConditionChange | src/components/QueryEditor/VisualQueryEditor/WhereSection.tsx:37-52 | `remove` in slot 0 deletes statement `index`; any other change replaces only that slot of that statement, and the length stays |
| WhereSection.AddThenRemove | src/components/QueryEditor/VisualQueryEditor/WhereSection.tsx:30-41 | removing a freshly added statement restores the list |
| WhereSection.ChangeToSameValue | src/components/QueryEditor/VisualQueryEditor/WhereSection.tsx:43-50 | setting a slot to its current value changes nothing |
| WhereSection.OperatorChangeExample | src/test/components/QueryEditor/VisualQueryEditor/WhereSection.test.tsx:29-37 | setting the operator of `tagKey1::tag` to `>` gives `[tagKey1::tag, >, value, AND]` |
| QueryBuilder.MeasurementText | src/components/utils/index.ts:74-78 | a missing measurement is `"measurement"`; any other unquotes back to itself, and the text is a `/.../` literal iff the measurement is one |
| QueryBuilder.DatabaseText | src/components/utils/index.ts:79-81 | `$database` stays bare; every other database is quoted and unquotes back |
| QueryBuilder.ReplaceAllChar | src/components/utils/index.ts:96 | a text without the character is unchanged |
| QueryBuilder.ReplaceAllCharAppend | src/components/utils/index.ts:96 | global replacement distributes over concatenation |
| QueryBuilder.EscapeCons | src/components/utils/index.ts:96 | backslashes are doubled first, then quotes escaped, character by character |
| QueryBuilder.UnescapeEscape | src/components/utils/index.ts:96 | escaping a value is undone by unescaping, so distinct values stay distinct |
| QueryBuilder.ConditionOperator | src/components/utils/index.ts:92-94 | a given operator is kept; a missing one becomes `=~` or `=` |
| QueryBuilder.ConditionValue | src/components/utils/index.ts:95-97 | for `=~`, `!~`, `>` and `<` the value is raw; otherwise it is single-quoted and unescapes back to the value |
| QueryBuilder.WhereConditionStarts | src/components/utils/index.ts:89-91 | the first statement has no connector; later ones start with their connector, `AND` by default |
| QueryBuilder.WhereTexts | src/components/utils/index.ts:29-31 | one condition text per statement |
| QueryBuilder.WhereClause | src/components/utils/index.ts:32-34 | empty iff there are no statements, otherwise `( ... ) AND ` |
| QueryBuilder.RenderPartSucceeds | src/components/utils/index.ts:17-20 | a part renders iff its type is registered (and a field has its parameter) |
| QueryBuilder.ChainTextSucceeds | src/components/utils/index.ts:16-20 | a chain renders iff every part renders |
| QueryBuilder.SelectTextSucceeds | src/components/utils/index.ts:15-25 | the select list renders iff every chain renders |
| QueryBuilder.GroupbyTextSucceeds | src/components/utils/index.ts:38-45 | the group-by section renders iff every item renders |
| QueryBuilder.ChainPrefixFails | src/components/utils/index.ts:17-20 | the first part that fails decides the failure of the whole chain |
| QueryBuilder.SelectPrefixFails | src/components/utils/index.ts:15-25 | the first chain that fails decides the error |
| QueryBuilder.GroupbyPrefixFails | src/components/utils/index.ts:38-45 | the first group-by item that fails decides the error |
| QueryBuilder.QueryText | src/components/utils/index.ts:6-69 | a raw query returns its stored text; otherwise the text is built iff the select and group-by sections render |
| QueryBuilder.TrailingClausesOnlyAppend | src/components/utils/index.ts:50-66 | order, limit, offset and tz only append, in that order, to the text built without them |
| QueryBuilder.BuildFromText | src/components/utils/index.ts:71-83 | the method computes the specified FROM text |
| QueryBuilder.BuildWhereCondition | src/components/utils/index.ts:85-108 | the method computes the specified condition text |
| QueryBuilder.BuildWhereConditions | src/components/utils/index.ts:29-31 | the loop yields one condition per statement |
| QueryBuilder.RenderChain | src/components/utils/index.ts:16-20 | the loop folds a chain through its renderers as specified |
| QueryBuilder.RenderSelect | src/components/utils/index.ts:15-25 | the loop joins the chains with `, ` as specified |
| QueryBuilder.RenderGroupby | src/components/utils/index.ts:37-45 | the loop separates items with ` ` before fill and `, ` otherwise, as specified |
| QueryBuilder.BuildQuery | src/components/utils/index.ts:6-69 | the imperative builder produces QueryText |
| QueryBuilder.SampleWhereCondition | src/test/components/utils/utils.test.ts:65-76 | `location::tag = coyote_creek` renders as `"location"::tag = 'coyote_creek'` |
| QueryBuilder.SecondWhereCondition | src/test/components/utils/utils.test.ts:65-76 | a second statement is prefixed with `AND` |
| QueryBuilder.QuotedTagKey | src/components/utils/index.ts:100-102 | a `::tag` key is quoted before the suffix |
| QueryBuilder.QuotedFieldKey | src/components/utils/index.ts:104-106 | a `::field` key is quoted before the suffix |
| QueryBuilder.EqualsCondition | src/components/utils/index.ts:85-108 | an `=` statement with a plain value renders as connector, quoted key, `=` and the quoted value |
| QueryBuilder.SampleQueryText | src/test/components/utils/utils.test.ts:23-28 | the tests' first query renders to the expected text |
| QueryBuilder.SampleQueryTextDescending | src/test/components/utils/utils.test.ts:29-35 | with `DESC`, limit and tz the clauses follow in order |
| QueryBuilder.SpreadChainText | src/test/components/utils/utils.test.ts:36-62 | field, distinct, count, spread and math fold to `spread(count(distinct("v"))) / 100` |
| QueryBuilder.SpreadQueryText | src/test/components/utils/utils.test.ts:36-62 | two such chains give the expected query |
| MetaQuery.ResolvedDatabase | src/client/builder.ts:11-13 | `$database` is replaced only when a template service is given; every other database is kept |
| MetaQuery.MeasurementName | src/client/builder.ts:32-34 | names starting like `/.../` or `merge(...)` are kept; all others are quoted and unquote back |
| MetaQuery.MeasurementTarget | src/client/builder.ts:36-39 | a retention policy other than empty or `default` qualifies the measurement as `"rp".m` |
| MetaQuery.FromClause | src/client/builder.ts:31-41 | the FROM clause is empty iff there is no measurement |
| MetaQuery.BuildMetaQuery | src/client/builder.ts:4-43 | `SHOW DATABASES`; `SHOW RETENTION POLICIES on "db"` without FROM; `SHOW <keyword> on db` plus FROM for the listings |
| MetaQuery.NoMeasurementNoFrom | src/client/builder.ts:31 | without a measurement a listing has no FROM |
| MetaQuery.RegexLiteralStartsLikeRegex | src/client/builder.ts:32 | on a full `/.../` literal the two builders agree |
| MetaQuery.BuildersDisagreeOnUnanchoredRegex | src/client/builder.ts:32 | `/cpu/x` is left bare here but quoted by the FROM text of the query builder |
| MetaQuery.PlainMeasurement | src/client/builder.ts:32-34 | an ordinary measurement is double-quoted |
| MetaQuery.FieldKeysExample | src/test/client/client.test.ts:166 | `SHOW FIELD KEYS on NOAA_water_database FROM "autogen"."h2o_pH"` |
| MetaQuery.TagKeysExample | src/test/client/client.test.ts:182 | `SHOW TAG KEYS on NOAA_water_database FROM "autogen"."h2o_pH"` |
| Alias.WordRun | src/client/index.ts:210 | the end of the longest `\w` run |
| Alias.TokenAt | src/client/index.ts:210 | a match starts only at `$` followed by a word character or at `[[`, and covers exactly the matched text |
| Alias.TagValue | src/client/index.ts:228-229 | the value of the first entry with the key, and `undefined` when there is none; own entries only, no inherited property names (see Left out) |
| Alias.TagValueOfEntry | src/client/index.ts:228-229 | with distinct keys, as an object has, the lookup gives the value of the entry with that key |
| Alias.PlainAliasUnchanged | src/client/index.ts:209-231 | an alias without `$` and `[[` passes through verbatim |
| Alias.WholeToken | src/client/index.ts:213 | an alias that is one token becomes that token's replacement |
| Alias.MeasurementToken | src/client/index.ts:217-218 | `$m` and `$measurement` give the series name |
| Alias.BracketMeasurement | src/client/index.ts:210-218 | `[[m]]` gives the series name |
| Alias.ColumnToken | src/client/index.ts:219-220 | `$col` gives the column being named |
| Alias.TagReplacement | src/client/index.ts:223-229 | a `tag_k` group is looked up among the tags when there are any, and stays as written otherwise |
| Alias.TagToken | src/client/index.ts:228-229 | `$tag_k` gives the value of tag `k` |
| Alias.MissingTag | src/client/index.ts:228-229 | `$tag_k` for a tag the series lacks gives `undefined`; in the source this holds only for keys that are not inherited property names such as `constructor` (see Left out) |
| Alias.TagTokenWithoutTags | src/client/index.ts:225-226 | on an untagged series `$tag_k` stays as written |
| Alias.OtherTokenLiteral | src/client/index.ts:223-224 | a group that is not `m`, `measurement` or `col`, not a number and not `tag_`-prefixed leaves its match as written |
| Alias.HostTokenLiteral | src/client/index.ts:209-231 | `$host` stays `$host`, whether or not the series has tags |
| Alias.SegmentReplacement | src/client/index.ts:215-222 | a numeric group selects that dot-separated segment, or stays as written past the last |
| Alias.SegmentToken | src/client/index.ts:211-222 | `$1` gives the second segment of the name |
| ResponseMapper.Column | src/client/index.ts:168 | definition of `values.map((row) => row[i])`; ResponseMapper.ColumnAppend and ResponseMapper.TableFieldsCoverAllRows prove its properties |
| ResponseMapper.ColumnAppend | src/client/index.ts:168 | the column of concatenated rows is the concatenation of the columns |
| ResponseMapper.FirstNonNullFrom | src/client/index.ts:171 | the first row whose cell is not null |
| ResponseMapper.ColumnTypeByFirstCell | src/client/index.ts:171-188 | the type is string or boolean iff the first non-null cell is, number otherwise, and never time |
| ResponseMapper.ResolveField | src/client/index.ts:163-206 | a `time` column is a time field named `Time`; any other takes its type from its cells and its name from the naming rules; values are the column |
| ResponseMapper.ResolveFields | src/client/index.ts:161-207 | one field per column, in order |
| ResponseMapper.NamingRules | src/client/index.ts:189-200 | untagged: `name.column` for time series, bare otherwise; tagged table: bare; tagged time series: the expanded alias, else `name.column {k:v, ...}` |
| ResponseMapper.AliasOnlyNamesTaggedTimeSeries | src/client/index.ts:189-200 | the alias matters only for a tagged series in time-series mode |
| ResponseMapper.KeepTimeAndNumber | src/client/index.ts:117-119 | exactly the time and number fields are kept |
| ResponseMapper.KeepTimeAndNumberAppend | src/client/index.ts:117-119 | the filter distributes over concatenation, so kept fields stay in column order with their multiplicity |
| ResponseMapper.KeepTimeAndNumberOne | src/client/index.ts:117-119 | a single field is kept exactly when it is a time or number field |
| ResponseMapper.SeriesFrame | src/client/index.ts:108-123 | a series without rows gives an empty frame; otherwise a frame with the refId and only time and number fields |
| ResponseMapper.ResolveTimeSeries | src/client/index.ts:106-125 | one frame per series, in order |
| ResponseMapper.TimeSeriesKeepsNumbers | src/client/index.ts:114-119 | a column's field is kept iff it is the time column or a number column |
| ResponseMapper.TagNames | src/client/index.ts:136-142 | definition: the tag names in entry order; ResponseMapper.MergedTagColumn proves where they land |
| ResponseMapper.TagValues | src/client/index.ts:136-142 | definition: the tag values in entry order; ResponseMapper.MergedTagColumn proves where they land |
| ResponseMapper.SpliceColumns | src/client/index.ts:143-144 | the tag names go right after the first column and the other columns follow; without columns only the tag names remain (see Left out) |
| ResponseMapper.SpliceRow | src/client/index.ts:145-147 | the tag values go at index 1 of the row |
| ResponseMapper.MergeTags | src/client/index.ts:134-149 | an untagged series is unchanged; a tagged one gets the tag columns and values spliced in |
| ResponseMapper.MergedTagColumn | src/client/index.ts:143-147 | tag `j` lands in column `1 + j` with its value in every row, and the time column stays first |
| ResponseMapper.MergeKeepsRowsAligned | src/client/index.ts:143-147 | rows as wide as the columns stay as wide after merging |
| ResponseMapper.MergedAll | src/client/index.ts:134-149 | definition: every series merged; ResponseMapper.MergeTagColumns and ResponseMapper.TableFieldsCoverAllRows use it |
| ResponseMapper.AppendRow | src/client/index.ts:155 | definition: cell `k` of the row is appended to field `k`; ResponseMapper.AppendRowsShape and ResponseMapper.AppendRowsConcat prove its properties |
| ResponseMapper.AppendRowsShape | src/client/index.ts:153-157 | appending rows appends to each field its column of those rows |
| ResponseMapper.AppendRowsConcat | src/client/index.ts:153-157 | appending two batches of rows is appending their concatenation |
| ResponseMapper.TableFieldsCoverAllRows | src/client/index.ts:127-159 | the table's fields come from series 0, named by column, and hold the column of the rows of all series |
| ResponseMapper.MergeTagColumns | src/client/index.ts:134-149 | the array of series is rewritten in place to its merged form |
| ResponseMapper.ResolveTableData | src/client/index.ts:127-159 | the series are merged in place, and the frames are the specified table |
| ResponseMapper.AppendSeriesRows | src/client/index.ts:154-156 | the loop appends each row in order |
| ResponseMapper.QueryData | src/client/index.ts:82-103 | the method computes the specified frames for each format |
| ResponseMapper.LogsIsTableWithMeta | src/client/index.ts:91-96 | the logs frame is the table frame with the logs meta |
| ResponseMapper.DefaultFormatIsTimeSeries | src/client/index.ts:83-84 | a missing format behaves as time series |
| ResponseMapper.ColumnConfigSql | src/client/index.ts:66-72 | `SHOW TAG KEYS`/`SHOW FIELD KEYS` plus ` FROM rp.m` when there is a measurement |
| ResponseMapper.ColumnConfigSqlWithout | src/client/index.ts:69 | without a measurement the bare statements |
| ResponseMapper.KeyOption | src/client/index.ts:75 | definition: label and value are the first cell plus the suffix; ResponseMapper.ColumnOptionKinds proves what the options tell apart |
| ResponseMapper.ColumnOptions | src/client/index.ts:74-79 | all `k::tag` options, then all `k::field` options, each from the row's first cell |
| ResponseMapper.ColumnOptionKinds | src/client/index.ts:74-79 | every option ends in its kind's suffix, dropping the suffix gives the key back, and no tag option equals a field option |
| ResponseExamples.TaggedTable | src/test/client/client.test.ts:269-295 | a tagged series in table mode gives Time, the tag column and the number column |
| ResponseExamples.TaggedTimeSeriesWithAlias | src/test/client/client.test.ts:296-303 | with an alias the value column takes the alias |
| ResponseExamples.AliasNamesValueColumn | src/client/index.ts:192 | any alias that expands to itself names the value column |
| ResponseExamples.UntaggedTimeSeries | src/test/client.test.ts:186-203 | an untagged series gives Time and `h2o_pH.pH`, dropping the string column |
| ResponseExamples.EmptyResults | src/test/client.test.ts:137-166 | no series, or a series without rows, gives one empty frame |
| ResponseExamples.ColumnConfigExample | src/test/client.test.ts:93-102 | tag keys come first, then field keys |
| ResponseExamples.ColumnConfigSqlExample | src/test/client.test.ts:125-131 | measurement under policy `autogen` gives ` FROM autogen.measurement` |
| DistinctValues.CellString | src/utils/index.ts:27-32 | a cell has text unless it is missing or null |
| DistinctValues.SelectedCell | src/utils/index.ts:21-33 | the first cell for field-key and retention-policy queries, otherwise the second when present and else the first |
| DistinctValues.Add | src/utils/index.ts:17-27 | adding to a set keeps it duplicate-free and holds exactly the old values and the new one |
| DistinctValues.Remove | src/utils/index.ts:23-25 | removal keeps exactly the other values |
| DistinctValues.Wrap | src/utils/index.ts:38 | definition: each value becomes `{text: v}` in order; DistinctValues.ParseResponse wraps the parsed values with it, and DistinctValues.FirstOccurrenceOrder and DistinctValues.ParseRowsDistinct prove what those values are |
| DistinctValues.AddAllDistinct | src/utils/index.ts:23-25 | re-adding a list keeps the set duplicate-free with the union of the values |
| DistinctValues.ParseRowsDistinct | src/utils/index.ts:17-38 | the result never holds a value twice |
| DistinctValues.PromoteMovesToFront | src/utils/index.ts:22-26 | a default policy moves to the front and the rest keep their order |
| DistinctValues.FirstOccurrenceOrder | src/utils/index.ts:17-38 | without promotion the result holds exactly the row values, once each, ordered by first occurrence |
| DistinctValues.AddKeepsOrder | src/utils/index.ts:27-32 | one addition keeps first-occurrence order |
| DistinctValues.ParseRowsPrefixFails | src/utils/index.ts:19-35 | an unreadable row makes the whole parse fail |
| DistinctValues.RowFails | src/utils/index.ts:27-32 | a row whose selected cell has no text makes the parse fail |
| DistinctValues.PromoteInPlace | src/utils/index.ts:23-25 | the method computes the promotion |
| DistinctValues.ParseResponse | src/utils/index.ts:4-39 | the method computes the specified parse, with no results or no series giving `[]` |
| DistinctValues.ParseSeriesRows | src/utils/index.ts:19-35 | the row loop extends the parse of the rows before |
| DistinctValues.ParseRow | src/utils/index.ts:20-34 | one row is handled as specified |
| DistinctValues.TimeIsNotAValue | src/test/datasource.test.ts:57-61 | `SHOW MEASUREMENTS` on `[time, 7]` gives `7` |
| DistinctValues.MeasurementNames | src/test/datasource.test.ts:42-55 | single-cell rows give their names in order |
| DistinctValues.RetentionPolicyQueryAnyCase | src/utils/index.ts:13-15 | the retention-policy test ignores letter case |
| DistinctValues.DefaultPolicyFirst | src/utils/index.ts:22-26 | the default policy comes first |
| DistinctValues.MeasurementsQueryReadsSecondCell | src/utils/index.ts:13-15 | `SHOW MEASUREMENTS` reads the second cell |
| Text.IndexOf | src/utils/index.ts:14-15 | found iff the needle occurs, and then at its first occurrence |
| Text.ReplaceFirst | src/datasource.ts:44 | a text without the needle is unchanged; otherwise the first occurrence, and only it, is replaced |
| Text.SplitJoin | src/client/index.ts:211 | joining the split parts with the separator restores the text |
| Text.ParseIntJsOfIntToString | src/client/index.ts:215 | `parseInt` reads a rendered integer back |
| Text.DigitsValueOfNatToString | src/datasource.ts:83-85 | the digits of a number read back as that number |
| Text.Lower | src/utils/index.ts:13 | definition of `toLowerCase`, character by character; DistinctValues.RetentionPolicyQueryAnyCase proves what it recognises |
| TimeFilter.RelativeNow | src/datasource.ts:81-86 | a match is `now-` digits and a unit `d`, `h`, `m` or `s`, and yields those groups |
| TimeFilter.RelativeNowMatches | src/datasource.ts:81 | every string of that shape matches with its own groups |
| TimeFilter.ParseDigits | src/datasource.ts:83 | `parseInt` of a run of digits is its decimal value |
| TimeFilter.TimeTransform | src/datasource.ts:73-94 | missing or empty renders as the empty text, `now` as `now()`, a date as `<ms>ms`; failure iff a non-relative text the parser rejects |
| TimeFilter.RelativeRoundTrip | src/datasource.ts:81-86 | `now-N<u>` renders as `now() - N<u>` whatever the parser does |
| TimeFilter.LeadingZerosDropped | src/datasource.ts:83-85 | `now-007m` renders as `now() - 7m` |
| TimeFilter.RangeText | src/datasource.ts:57 | the predicate starts with the lower bound and ends with the upper |
| TimeFilter.Filter | src/datasource.ts:53-58 | succeeds iff both ends render, the `from` error first, with the two ends in the predicate |
| TimeFilter.PrepareQuery | src/datasource.ts:41-44 | empty text needs no request; otherwise a filter error propagates and the first `$timeFilter` is replaced |
| TimeFilter.SecondPlaceholderSurvives | src/datasource.ts:44 | a second `$timeFilter` stays in the text sent |
| TimeFilter.SamplePlaceholder | src/test/datasource.test.ts:172-183 | the sample text has its placeholder at index 27 |
| TimeFilter.RelativeRange | src/test/datasource.test.ts:196-206 | `now-2d` to `now` gives `time >= now() - 2d and time <= now()` |
| TimeFilter.AbsoluteRange | src/test/datasource.test.ts:172-195 | parsed dates give millisecond bounds, and `now` stays `now()` |
| TimeFilter.IsoDateNotRelative | src/datasource.ts:81-87 | an ISO date is not relative, so it goes to the parser |
| Wire.CellAt | src/client/index.ts:168 | definition of `row[i]`: present exactly within the row; used by ResponseMapper.Column and DistinctValues.SelectedCell |
| Seqs.Insert | src/components/QueryEditor/VisualQueryEditor/operators.ts:119 | `splice(k, 0, x)`: `x` at `k`, with items before it kept and items after it shifted |
| Seqs.RemoveAt | src/components/QueryEditor/hooks/useSelectConditions.ts:33 | `splice(k, 1)`: the item at `k` is removed and the others close up |

## Left out

- HTTP and asynchronous I/O is left out: `request`, `querySql`, `getData`, `getRpInfo`, `showMeasurements`, `testDatasource`, and the fetch in `metricFindQuery`. The response functions take an already decoded response.
- `dateMath.parse` is the parameter `parse` of the time functions. Its rounding and time zone are inside that parameter.
- `templateSrv.replace` is an optional function parameter of the metadata query builder. Template substitution of the target in `query` (`applyTemplateVariables`) is not modelled.
- `Promise.all` over the targets in `query`, and the flattening of its frames, are not modelled. One target's text step is modelled.
- React UI, the hook plumbing (`useMemo`, `useShadowedState`, the `selectLists` memo) and plugin registration are not modelled. `removeSelectConditions` reads the head's type from the chain itself rather than from the memo.
- `getSelectParams` and `getOperatorOptions` are left out. They build Promise-based option lists for the UI.
- The stub `buildQuery` of src/components/QueryEditor/utils.ts is not part of this model.
- ResponseMapper.SpliceColumns: on a tagged series with no columns the source's `timeField` is `undefined` and `[undefined, ...tagNames]` gets one more column than the model's tag names alone, because column names here are strings. MergeTags and MergeTagColumns inherit this.
- GroupbyConditions.GroupbyRemoved: absent select, where and group-by lists are modelled as empty sequences. `removeGroupbyCondition` calls `splice` on `groupbyConditions!`, which throws when the list is absent, while the model returns the query unchanged. The editor defaults an absent WHERE list to `[]` before the WHERE section sees it. `addGroupbyCondition` and `changeGroupbyCondition` default an absent group-by list to `[]`. The select hooks index into the select list, and the in-range requires on their index already excludes an absent list.
- Numbers are integers. Floating-point cell values and their `toString` are not modelled, and neither is the `now-N` amount beyond 2^53.
- A frame is a list of `{type, name, values}` fields. `MutableDataFrame` internals are not modelled.
- `Object.entries` is taken in the order the tags are given.
- `queryData` with an empty `results` array is not modelled, because the source fails on `results[0]`. The model's input is the first result.
- `responseParse` skips rows that are not arrays. Rows here are always sequences of cells.
- `responseParse`: `toString` on a missing or null cell throws in the source. The model returns the error `NoCellText`.
- Limit, offset and tz are strings. The empty string stands for an absent value.
- Regular expressions are hand-written scanners covering only the patterns used: `^/.*/$`, `^/.*/`, `^merge\(.*\)`, `^(\w+)\((.*)\)$`, `^now-(\d+)([dhms])$` and the alias token pattern.
- `toLowerCase` maps ASCII letters and the Kelvin sign only. No other case mapping can complete a match of `show field keys` or `show retention policies`. For example, U+0130 lowercases to `i` followed by U+0307, and in both phrases every `i` is followed by a letter, so U+0307 breaks the match. The recognised queries are the same as in the source.
- Alias.TagValue: tags are modelled as the object's own entries. `series.tags[tag]` also finds names inherited from `Object.prototype`, such as `constructor`, `toString`, `valueOf` and `hasOwnProperty`. For those the source renders the engine's text for a function, which is engine-dependent and not modelled.
- Alias.MissingTag: proves `undefined` for every absent key. This matches the source only for keys that are not inherited `Object.prototype` property names, for the reason given in the line above.
- SelectHooks.RemovedSelect, SelectHooks.SelectAdded, SelectHooks.SelectChanged and GroupbyConditions.GroupbyChanged require an in-range index. The source indexes an undefined chain or item there.
- ChainValidity.AddKeepsEditorChain assumes the chain is one the editor can produce. Validity alone is not preserved: ChainValidity.MathAfterDoubleAliasBreaksValidity shows a valid chain that becomes invalid.
- ChainValidity.IsValidSelect requires a non-empty chain. The test helper reads `selectCondition[0].category`, which throws on an empty chain.
