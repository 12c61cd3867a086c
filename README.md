# py-seal data-access core in Dafny

This project models the data-access core of py-seal, a small Python web framework, and proves properties of that model. It covers these parts:

- **Condition tree and wrappers.** `Condition`/`ConditionTree` and the fluent `Wrapper`, `BaseWrapper`, `QueryWrapper`, `UpdateWrapper` and `InsertWrapper` build a tree of comparisons. The SQL builder (`build_select`, `build_count`, `build_update`, `build_delete`, `build_insert`, `build_insert_bulk`) compiles them into `(sql, args)` statements with `?` placeholders.
- **Chained builders.** There are two generations of chained builders: the newer `_base_chained_query`/`_base_chained_update` and the older `base_chained_query`/`base_chained_update`. They keep a flat where-list seeded with the not-deleted predicate, and they render statements with a configurable placeholder.
- **Connection pools.** Three revisions of the MySQL pool (`connection_pool.py`, `mysql_connection.py`, `_connection_pool.py`). Each has a list of connections with an idle/occupied status. A pool grows up to its maximum and shrinks back to its minimum.
- **Transaction holder.** `SqlContext` holds the connection of the current transaction and the transaction's id.
- **Registries and caches.** The structure registry, the LRU cache, the plain cache, the dynamic-model registry, the data-source manager and the WebSocket dispatcher.
- **Query results.** `Result`/`Results` in both the model and the db package.
- **Column classification.** The table-metadata loops that classify MySQL and SQLite column types; one of them is cached.
- **Utilities.** `group`, `camel_case`/`snake_case`, configuration lookup, and the `Response` envelope.

Conventions used throughout the model:

- A Python exception becomes the `Err` case of a `Result`, with one `Errors.Error` constructor per distinct raise.
- `None` becomes `Option`.
- A Python `dict` whose insertion order matters becomes an ordered list of pairs (`OrderedMaps`). Other dicts become `map`s.
- An object whose fields the source updates in place becomes a class whose methods say exactly how those fields change.
- The SQL builder, the result getters, the string utilities and the condition-tree `parse` are pure. They are functions with lemmas about them.

Modules, one per source file or concept:

- **Shared foundations:** `Wrappers`, `Errors`, `Values`, `Text`, `OrderedMaps`, `Lists`.
- **Conditions and wrappers:** `Conditions`, `ConditionWrapper`, `BaseWrappers`, `QueryWrappers`, `UpdateWrappers`, `InsertWrappers`, `SqlBuilder`.
- **Chained builders:** `WhereLists` (the where-list shared by the chained builders), `ChainedQueries`, `ChainedUpdates`, `LegacyChainedQueries`, `LegacyChainedUpdates`.
- **Connection pools:** `PoolStates`, `ConnectionPools`, `MysqlConnections`, `ConfiguredPools`.
- **Transactions:** `Transactions`.
- **Registries and caches:** `Structures`, `LruCaches`, `Caches`, `DynamicModels`, `DataSources`, `WsDispatchers`.
- **Results and metadata:** `ModelResults`, `DbResults`, `TableInfos`.
- **Utilities:** `ListUtils`, `StrUtils`, `Configurations`, `Responses`.

## Model

| member | source | states |
|---|---|---|
| Conditions.NewCondition | seal/db/condition.py:2-5 | a condition keeps the field, value and operator it is given; the operator defaults to `=` |
| Conditions.ParseCondition | seal/db/condition.py:7-8 | a leaf renders as `field operator ?` with exactly one `?` more than its field and operator text, and passes its value through unchanged |
| Conditions.ConditionTree.constructor | seal/db/condition.py:12-14 | a new tree has no entries and the given logic, `and` by default |
| Conditions.ConditionTree.Or | seal/db/condition.py:16-18 | the logic becomes `or`, the entries are untouched and the same tree is returned |
| Conditions.ConditionTree.AddCondition | seal/db/condition.py:20-22 | exactly one leaf is appended at the end; earlier entries and the logic are unchanged |
| Conditions.ConditionTree.AddTree | seal/db/condition.py:24-26 | exactly one subtree is appended at the end; earlier entries and the logic are unchanged |
| Conditions.ParseSucceedsIff | seal/db/condition.py:28-42 | a non-empty tree parses to an expression exactly when no subtree at any depth is empty |
| Conditions.ParseArgsAreLeaves | seal/db/condition.py:31-42 | the arguments are the leaf values in left-to-right depth-first order |
| Conditions.ClauseHasArgs | seal/db/condition.py:31-42 | a parsed expression always carries at least one argument |
| Conditions.PlaceholdersMatchArgs | seal/db/condition.py:31-42 | with no `?` in field or operator text, the expression has exactly as many `?` as there are arguments |
| Conditions.NestedIsParenthesised | seal/db/condition.py:34-36 | a tree whose only child is a subtree renders as that subtree in parentheses, with the subtree's arguments |
| Conditions.NestedIsParenthesisedAt | seal/db/condition.py:34-36 | a subtree at any position contributes, at that position among the pieces joined by the connective, its own expression in parentheses |
| Conditions.TwoLeavesJoinedByLogic | seal/db/condition.py:39-42 | siblings are joined by the node's own logic word with a space on each side |
| Conditions.NestedEmptyFails | seal/db/condition.py:35 | an empty nested subtree makes the whole parse fail (the unpacking of None) |
| Conditions.LeavesSnoc | seal/db/condition.py:20-22 | appending a leaf appends exactly its value to the argument order |
| Conditions.Compare | seal/db/wrapper.py:18-56 | each comparison keeps the field and uses its operator (`=`, `!=`, `>`, `>=`, `<`, `<=`, `in`, `like`); the like variants wrap the value as `%v`, `v%`, `%v%`, and the others keep it |
| ConditionWrapper.PublicFieldConditions | seal/db/wrapper.py:63-75 | a `logical_deleted` option injects only `option = 0`; a tenant field without a value raises before anything is appended; a tenant alone injects only its equality; soft delete alone with both sentinels injects only `field = deleted_false`; both give tenant first, then soft delete; a missing sentinel raises after the tenant condition; nothing configured injects nothing |
| ConditionWrapper.Wrapper.constructor | seal/db/wrapper.py:5-16 | stores the tenant and soft-delete settings and starts with an empty `and` tree |
| ConditionWrapper.Wrapper.Compare | seal/db/wrapper.py:18-56 | appends exactly the one comparison leaf, leaves the logic alone and returns itself |
| ConditionWrapper.Wrapper.Or | seal/db/wrapper.py:58-61 | the argument's tree is switched to `or` and appended as one subtree holding its entries |
| ConditionWrapper.Wrapper.HandlePublicFields | seal/db/wrapper.py:63-75 | appends the injected conditions after the existing ones (again on every call) and reports the raised error, if any |
| BaseWrappers.LogicalDeleteConditions | seal/db/base_wrapper.py:56-62 | with an option, only `option = 0`; otherwise `column = 0` exactly when a logical-delete column is configured; never more than one |
| BaseWrappers.BaseWrapper.constructor | seal/db/base_wrapper.py:6-10 | stores table, data source and logical-delete column and starts with an empty `and` tree |
| BaseWrappers.BaseWrapper.Compare | seal/db/base_wrapper.py:12-50 | appends exactly the one comparison leaf and returns itself |
| BaseWrappers.BaseWrapper.Or | seal/db/base_wrapper.py:52-54 | appends the other wrapper's tree as one subtree without changing its logic |
| BaseWrappers.BaseWrapper.HandleLogicalDelete | seal/db/base_wrapper.py:56-62 | appends exactly the conditions `LogicalDeleteConditions` chooses |
| SqlBuilder.Where | seal/db/sql_builder.py:7-9 | an empty tree gives no WHERE and no arguments; otherwise the parse either fails (a nested empty tree) or gives ` WHERE exp` with the tree's leaf values |
| SqlBuilder.WherePlaceholders | seal/db/sql_builder.py:7-9 | the WHERE text has one `?` per argument |
| SqlBuilder.OrderByClause | seal/db/sql_builder.py:10-11 | ORDER BY appears only when an order is set |
| SqlBuilder.LimitClause | seal/db/sql_builder.py:12-13 | LIMIT appears only when a limit is set and adds no placeholder |
| SqlBuilder.OffsetClause | seal/db/sql_builder.py:14-15 | OFFSET appears only when an offset is set and adds no placeholder |
| SqlBuilder.BuildSelect | seal/db/sql_builder.py:4-19 | `SELECT f1,f2 FROM t` followed by the WHERE part; the arguments are empty for an empty tree and exactly the leaf values otherwise |
| SqlBuilder.BuildCount | seal/db/sql_builder.py:22-31 | `SELECT COUNT(1) FROM t` followed by the WHERE part alone, with the same arguments |
| SqlBuilder.CountSharesSelectWhere | seal/db/sql_builder.py:4-31 | count and select on one tree succeed together and carry identical arguments; the count never has ORDER BY, LIMIT or OFFSET |
| SqlBuilder.SelectPlaceholders | seal/db/sql_builder.py:4-19 | with no `?` in names, the select text has one `?` per argument |
| SqlBuilder.BuildUpdate | seal/db/sql_builder.py:34-46 | one `k=?` per update field in insertion order; the arguments are the update values, then the where values; it raises only when both are empty, so a SET with an empty tree is accepted |
| SqlBuilder.UpdatePlaceholders | seal/db/sql_builder.py:34-46 | the UPDATE text has one `?` per argument |
| SqlBuilder.BuildDelete | seal/db/sql_builder.py:49-60 | an empty tree is refused as a full-table delete; otherwise `DELETE FROM t WHERE exp` with the leaf values |
| SqlBuilder.Attributes | seal/db/sql_builder.py:67-69 | `getattr` for each name in order; a missing attribute raises, naming it |
| SqlBuilder.InsertIgnoreFlag | seal/db/sql_builder.py:64 | the text starts with `INSERT OR IGNORE` exactly when the ignore flag is set |
| SqlBuilder.InsertSqlPlaceholders | seal/db/sql_builder.py:64-66 | one `?` per column, and twice that under upsert |
| SqlBuilder.InsertArgs | seal/db/sql_builder.py:65-69 | the record's values for the columns, repeated once more under upsert |
| SqlBuilder.BuildInsert | seal/db/sql_builder.py:63-72 | column count, placeholder count and argument count agree; under upsert the second half of the arguments repeats the first |
| SqlBuilder.BulkArgs | seal/db/sql_builder.py:81-84 | one argument tuple per record, each the record's values for the columns (doubled under upsert); a record lacking a column raises |
| SqlBuilder.BuildInsertBulk | seal/db/sql_builder.py:75-87 | one argument tuple per record, in input order, each as for a single insert |
| QueryWrappers.PageOffset | seal/db/query_wrapper.py:53 | the first page starts at offset 0, and no page from the first on has a negative offset |
| QueryWrappers.PagesTile | seal/db/query_wrapper.py:53 | each page starts exactly one page size after the previous one, so consecutive pages neither overlap nor leave a gap |
| QueryWrappers.QueryWrapper.constructor | seal/db/query_wrapper.py:8-15 | limit, offset and order are unset, the field lists are empty and the tree is empty |
| QueryWrappers.QueryWrapper.Select | seal/db/query_wrapper.py:17-19 | replaces the selected fields and nothing else |
| QueryWrappers.QueryWrapper.Ignore | seal/db/query_wrapper.py:21-23 | replaces the ignored fields and nothing else |
| QueryWrappers.QueryWrapper.Sort | seal/db/query_wrapper.py:25-27 | replaces the order and nothing else |
| QueryWrappers.QueryWrapper.Limit | seal/db/query_wrapper.py:11-31 | calling `limit` raises, because the attribute of that name shadows the method |
| QueryWrappers.QueryWrapper.Offset | seal/db/query_wrapper.py:12-35 | calling `offset` raises for the same reason |
| QueryWrappers.QueryWrapper.SetLimit | seal/db/query_wrapper.py:29-31 | the intended `limit`: sets the limit and nothing else |
| QueryWrappers.QueryWrapper.SetOffset | seal/db/query_wrapper.py:33-35 | the intended `offset`: sets the offset and nothing else |
| QueryWrappers.QueryWrapper.BuildSelectStatement | seal/db/query_wrapper.py:63-66 | an empty selection is filled with the result type's fields minus the ignored ones, in declaration order; an explicit selection is kept |
| QueryWrappers.QueryWrapper.Find | seal/db/query_wrapper.py:37-47 | the logical-delete conditions are appended once, then the select is built |
| QueryWrappers.QueryWrapper.Count | seal/db/query_wrapper.py:59-61 | the count is built from the wrapper's current tree |
| QueryWrappers.QueryWrapper.FindPage | seal/db/query_wrapper.py:49-57 | sets limit to the page size and offset to `(page-1)*size`, then builds the select and the count on the same tree |
| QueryWrappers.PageAndCountAgree | seal/db/query_wrapper.py:49-61 | the page's count has the same arguments as its select, and consecutive pages are one page size apart |
| UpdateWrappers.UpdateWrapper.constructor | seal/db/update_wrapper.py:7-9 | starts with no update fields and an empty tree |
| UpdateWrappers.UpdateWrapper.Set | seal/db/update_wrapper.py:11-13 | inserts or overwrites one field, keeping first-insertion order |
| UpdateWrappers.UpdateWrapper.Update | seal/db/update_wrapper.py:15-19 | the logical-delete handler runs once, then the UPDATE is built on the resulting tree |
| UpdateWrappers.UpdateWrapper.Delete | seal/db/update_wrapper.py:21-29 | a truthy logical-delete option sets that field to 1 and appends the not-deleted condition twice; otherwise a DELETE, which an empty tree refuses |
| UpdateWrappers.LogicalDeleteArgs | seal/db/update_wrapper.py:21-26 | a logical delete always compiles, and its last two arguments are the two duplicated zeros |
| InsertWrappers.InsertFields | seal/db/insert_wrapper.py:16-17 | the non-id fields whose value is not None, in declaration order; a field the data lacks raises |
| InsertWrappers.BulkFlags | seal/db/insert_wrapper.py:32-37 | the upsert option takes precedence over the ignore option; the two are never both set |
| InsertWrappers.InsertWrapper.constructor | seal/db/insert_wrapper.py:6-10 | starts with no insert fields |
| InsertWrappers.InsertWrapper.Insert | seal/db/insert_wrapper.py:12-23 | None is refused; otherwise the chosen fields are stored and the insert is built with the upsert option |
| InsertWrappers.InsertWrapper.InsertBulk | seal/db/insert_wrapper.py:25-38 | None or an empty list is refused; the columns come from the first record |
| InsertWrappers.LaterNoneIsInserted | seal/db/insert_wrapper.py:29-30 | a later record's None in a chosen column is still sent as that argument |
| Lists.Without | seal/db/_base_chained_query.py:44 | keeps the columns not ignored, in their order, and exactly those |
| Lists.Resolve | seal/db/_base_chained_query.py:40-45 | an explicit selection is returned as is; otherwise all columns minus the ignored ones, in declaration order |
| WhereLists.Seed | seal/db/_base_chained_query.py:31 | the where-list starts with the one triple `(logic_delete_col or 'deleted', 0, '=')` |
| WhereLists.Rendered | seal/db/_base_chained_query.py:58 | one `col op placeholder` text per triple, in order |
| WhereLists.BuildWhere | seal/db/_base_chained_query.py:55-58 | empty exactly for an empty list, else it starts with `where ` |
| WhereLists.BuildArgs | seal/db/_base_chained_query.py:50-53 | the values, one per triple, in the same order |
| WhereLists.SeededWhere | seal/db/_base_chained_query.py:31-58 | a seeded where-list never renders empty, begins with the not-deleted predicate, and its first argument is 0 |
| WhereLists.WherePlaceholders | seal/db/_base_chained_query.py:55-58 | with `?` as placeholder the WHERE text has one `?` per argument |
| WhereLists.Mapping | seal/db/_base_chained_query.py:178-193 | a tuple row maps positionally onto the names; a short row raises; the keys are exactly the names |
| WhereLists.ZipGet | seal/db/_base_chained_query.py:178-193 | with distinct names, each name maps to the value at its own position |
| WhereLists.Assignments | seal/db/_base_chained_update.py:115-134 | one `col = placeholder` text per column, in order |
| WhereLists.NonIdColumns | seal/db/_base_chained_update.py:36-39 | the model's columns, in order, without `id` |
| WhereLists.UpdateStatement | seal/db/_base_chained_update.py:105-119 | empty sets raise; the arguments are the stamped set values, then the where values; the text has one assignment per stamped key |
| WhereLists.Stamping | seal/db/_base_chained_update.py:111-114 | `update_by` is added only for a user id that is not None, and `update_at` always; other keys keep their values |
| WhereLists.StampByUser | seal/db/_base_chained_update.py:111-113 | a None user id leaves `update_by` as it was; any other id overwrites or appends it |
| WhereLists.StampedKeys | seal/db/_base_chained_update.py:111-115 | stamping keeps the caller's keys first, in their order |
| WhereLists.InsertTextPlaceholders | seal/db/_base_chained_update.py:158-164 | the INSERT text has one `?` per column, twice that under upsert |
| WhereLists.UpdatePlaceholders | seal/db/_base_chained_update.py:115-116 | the UPDATE text has one `?` per argument |
| ChainedQueries.SortTexts | seal/db/_base_chained_query.py:61-63 | one `col order` text per sort, in order |
| ChainedQueries.OrderByText | seal/db/_base_chained_query.py:60-63 | empty exactly when there are no sorts, else it starts with `order by ` |
| ChainedQueries.GroupBySplitsColumn | seal/db/_base_chained_query.py:133-135 | a stored string is rendered character by character, so `id` groups by `i, d` |
| ChainedQueries.GroupByAsWritten | seal/db/_base_chained_query.py:65-67 | over a stored string: empty for the empty string, else `group by ` and each character separated by `, `, so `3n - 2` characters for a string of length n |
| ChainedQueries.GroupByText | seal/db/_base_chained_query.py:65-67 | nothing for no columns; `group by col` for the one column `group_by` stores |
| ChainedQueries.RowMapping | seal/db/_base_chained_query.py:171-180 | a dict row is taken as is, a tuple row mapped positionally onto the columns |
| ChainedQueries.ChainedQuery.constructor | seal/db/_base_chained_query.py:15-38 | the where-list is the seed; selection, sorts, limit, group-by, raw and ignored columns are empty |
| ChainedQueries.ChainedQuery.Raw | seal/db/_base_chained_query.py:69-71 | stores the raw text and nothing else |
| ChainedQueries.ChainedQuery.Select | seal/db/_base_chained_query.py:73-75 | replaces the selection and nothing else |
| ChainedQueries.ChainedQuery.Ignore | seal/db/_base_chained_query.py:77-79 | replaces the ignored columns and nothing else |
| ChainedQueries.ChainedQuery.Compare | seal/db/_base_chained_query.py:81-119 | appends exactly one triple and nothing else |
| ChainedQueries.ChainedQuery.Limit | seal/db/_base_chained_query.py:121-123 | sets the limit and nothing else |
| ChainedQueries.ChainedQuery.Sort | seal/db/_base_chained_query.py:125-127 | replaces the sorts with the single `(col, order)`, `asc` by default |
| ChainedQueries.ChainedQuery.Sorts | seal/db/_base_chained_query.py:129-131 | replaces the sorts |
| ChainedQueries.ChainedQuery.GroupBy | seal/db/_base_chained_query.py:133-135 | the intended `group_by`: groups by the whole column |
| ChainedQueries.ChainedQuery.Columns | seal/db/_base_chained_query.py:40-45 | the explicit selection when there is one; else the model columns minus the ignored ones, in model order |
| ChainedQueries.ChainedQuery.CountStatement | seal/db/_base_chained_query.py:137-142 | counts what the select would return: same where and group-by, no order by and no limit; its arguments are the where values in order (one `?` each: StatementPlaceholders) |
| ChainedQueries.ChainedQuery.SelectStatement | seal/db/_base_chained_query.py:144-150 | begins with the columns, table, where, group-by and order-by parts; the arguments are the where values |
| ChainedQueries.ChainedQuery.PageStatement | seal/db/_base_chained_query.py:152-158 | the select restricted to one page; the where values are its arguments, bound one per `?` (StatementPlaceholders) |
| ChainedQueries.ChainedQuery.MappingStatement | seal/db/_base_chained_query.py:160-165 | the caller's raw statement filtered by the builder's where-list, with the where values as arguments, one per `?` (StatementPlaceholders) |
| ChainedQueries.ChainedQuery.FetchOne | seal/db/_base_chained_query.py:183-194 | no row gives None; otherwise the row mapped onto `columns()` (a dict row as is), returned as that mapping with `to_dict` and as `clz(**mapping)` by default; a short tuple row raises |
| ChainedQueries.ChainedQuery.FetchAll | seal/db/_base_chained_query.py:167-181 | one entry per row in row order, each the row's mapping with `to_dict` and `clz(**mapping)` by default; it fails exactly when some row cannot be mapped |
| WhereLists.Materialise | seal/db/_base_chained_query.py:167-194 | a row's mapping comes back as itself exactly when a dict is wanted, and otherwise as the model class applied to it |
| ChainedQueries.StatementsShareArgs | seal/db/_base_chained_query.py:137-165 | count, select, page and mapping statements carry the same arguments, the first being the seed's 0 |
| ChainedQueries.StatementPlaceholders | seal/db/_base_chained_query.py:137-165 | with `?` as the placeholder and no `?` in the names or raw text, the count, select, page and mapping statements each hold exactly one `?` per argument |
| ChainedUpdates.StampForUpdate | seal/db/_base_chained_update.py:125-132 | an entity gets `update_by` and `update_at` and keeps its other fields; a named tuple that has either field raises, and one without them is unchanged |
| ChainedUpdates.StampForInsert | seal/db/_base_chained_update.py:145-156 | an entity gets `deleted = 0`, `create_by` and `create_at`, keeps its other fields, and its keys are its own plus those three; a named tuple that has any of them raises, and otherwise is returned unchanged |
| ChainedUpdates.InsertTextMissesSpace | seal/db/_base_chained_update.py:162-164 | under upsert the written text is one character shorter than the intended text and differs from it; without upsert the two agree |
| ChainedUpdates.ChainedUpdate.constructor | seal/db/_base_chained_update.py:17-34 | the where-list is the seed and the sets are empty |
| ChainedUpdates.ChainedUpdate.Compare | seal/db/_base_chained_update.py:51-89 | appends exactly one triple; the sets are unchanged |
| ChainedUpdates.ChainedUpdate.Set | seal/db/_base_chained_update.py:91-93 | replaces the whole sets dict |
| ChainedUpdates.ChainedUpdate.DeleteStatement | seal/db/_base_chained_update.py:95-103 | the "conditions is required" guard cannot fire on a builder, whose where-list is never empty |
| ChainedUpdates.ChainedUpdate.UpdateStatement | seal/db/_base_chained_update.py:105-119 | fails exactly when the sets are empty; otherwise the sets are stamped in place and rendered |
| ChainedUpdates.ChainedUpdate.UpdateByPkStatement | seal/db/_base_chained_update.py:121-139 | succeeds exactly when a record is given, its stamping succeeds and it has every non-id column and `id`; then every non-id column is assigned, the row is chosen by `id`, and the id is the last argument |
| ChainedUpdates.ChainedUpdate.InsertStatement | seal/db/_base_chained_update.py:141-171 | succeeds exactly when a record is given, its stamping succeeds and it has every non-id column (else it raises a missing attribute); the text is the bulk text for the same flags; the arguments are the stamped record's non-id values, doubled under upsert |
| ChainedUpdates.InsertStatementPlaceholders | seal/db/_base_chained_update.py:158-168 | the single-record INSERT has one `?` per argument, upsert or not |
| ChainedUpdates.UpdateByPkPlaceholders | seal/db/_base_chained_update.py:134-136 | the by-id UPDATE has one `?` per argument |
| ChainedUpdates.ChainedUpdate.InsertBulkStatement | seal/db/_base_chained_update.py:173-181 | with `?` as the placeholder, one marker per non-id column, twice that under upsert: the count each record's arguments fill |
| ChainedUpdates.InsertTextAsWritten | seal/db/_base_chained_update.py:158-168 | the written single-record text equals the bulk text without upsert, and is one character short of it with upsert |
| ChainedUpdates.InsertIgnoreFlag | seal/db/_base_chained_update.py:161 | `OR IGNORE` follows `INSERT` exactly when it is asked for |
| LegacyChainedQueries.JoinItems | seal/db/base_chained_query.py:30 | `', '.join` raises exactly when some element is not a string |
| LegacyChainedQueries.UnselectedItemsAsWritten | seal/db/base_chained_query.py:30-31 | the written comprehension yields `True` for every column not ignored and `''` for every ignored one |
| LegacyChainedQueries.UnselectedColumnsRaise | seal/db/base_chained_query.py:29-31 | without a selection the written `columns()` raises whenever a column is not ignored, and yields only separators otherwise |
| LegacyChainedQueries.UnselectedColumnsExample | seal/db/base_chained_query.py:29-31 | for the columns `id, name` the written code raises where `id, name` is meant |
| LegacyChainedQueries.LegacyChainedQuery.constructor | seal/db/base_chained_query.py:10-24 | the where-list is the seed; selection, sorts, ignored columns and raw text are empty |
| LegacyChainedQueries.LegacyChainedQuery.SelectedColumns | seal/db/base_chained_query.py:26-32 | the dynamic mode takes every metadata column and ignores select/ignore; otherwise the selection, or the entity columns minus the ignored ones |
| LegacyChainedQueries.LegacyChainedQuery.ColumnsAgreeWhenSelected | seal/db/base_chained_query.py:26-32 | the written and intended `columns()` agree in dynamic mode and with a selection |
| LegacyChainedQueries.LegacyChainedQuery.Raw | seal/db/base_chained_query.py:44-46 | stores the raw text and nothing else |
| LegacyChainedQueries.LegacyChainedQuery.Select | seal/db/base_chained_query.py:48-50 | replaces the selection and nothing else |
| LegacyChainedQueries.LegacyChainedQuery.Ignore | seal/db/base_chained_query.py:52-54 | replaces the ignored columns and nothing else |
| LegacyChainedQueries.LegacyChainedQuery.Compare | seal/db/base_chained_query.py:56-94 | appends exactly one triple and nothing else |
| LegacyChainedQueries.LegacyChainedQuery.OrderBy | seal/db/base_chained_query.py:96-98 | replaces the sorts and nothing else |
| LegacyChainedQueries.LegacyChainedQuery.CountStatement | seal/db/base_chained_query.py:100-105 | counts what the select would return: same where, no order by; its arguments are the where values in order (one `?` each: LegacyStatementPlaceholders) |
| LegacyChainedQueries.LegacyChainedQuery.SelectStatement | seal/db/base_chained_query.py:107-114 | begins with the columns, the table and the where part; the arguments are the where values |
| LegacyChainedQueries.LegacyChainedQuery.PageStatement | seal/db/base_chained_query.py:116-124 | the select statement restricted to one page; the same arguments, one per `?` (LegacyStatementPlaceholders) |
| LegacyChainedQueries.LegacyChainedQuery.MappingStatement | seal/db/base_chained_query.py:126-131 | the caller's raw statement filtered by the builder's where-list, with the where values as arguments, one per `?` (LegacyStatementPlaceholders) |
| LegacyChainedQueries.LegacyChainedQuery.FetchColumns | seal/db/base_chained_query.py:137-141 | `fetchall` maps onto the model fields when dynamic, else onto the selection or all entity columns |
| LegacyChainedQueries.LegacyChainedQuery.FetchAll | seal/db/base_chained_query.py:133-142 | one entry per row in order: the mapping when dynamic, else `clz(**mapping)`; it fails exactly when some row is shorter than the names |
| LegacyChainedQueries.LegacyChainedQuery.FetchOne | seal/db/base_chained_query.py:144-151 | the intended `fetchone`: None for no row; otherwise, when the row is long enough, exactly the row mapped onto the model fields and returned as that mapping (dynamic), or mapped onto the selected columns and returned as `clz(**mapping)`; a short row raises |
| LegacyChainedQueries.FetchOneSplitsColumns | seal/db/base_chained_query.py:151 | with the selection `id` and the row `(7,)`, the written `fetchone` indexes past the row, while the intended one returns `clz(id=7)` |
| LegacyChainedQueries.LegacyStatementsShareArgs | seal/db/base_chained_query.py:100-131 | count, select, page and mapping statements carry the same arguments, the first being the seed's 0, and the where part is never empty |
| LegacyChainedQueries.LegacyStatementPlaceholders | seal/db/base_chained_query.py:100-131 | with `?` as the placeholder and no `?` in the names or raw text, every statement holds exactly one `?` per argument |
| LegacyChainedQueries.LegacyChainedQuery.ColumnsText | seal/db/base_chained_query.py:26-32 | the intended `columns()`: empty for no columns, the column itself for one, and otherwise starting with the first selected column |
| LegacyChainedQueries.LegacyChainedQuery.ColumnsTextAsWritten | seal/db/base_chained_query.py:26-32 | the written `columns()` succeeds in dynamic mode or with a selection; without a selection it succeeds exactly when every entity column is ignored |
| LegacyChainedQueries.LegacyChainedQuery.FetchOneAsWritten | seal/db/base_chained_query.py:144-151 | the written `fetchone`: None for no row, and in dynamic mode the same as the intended one, so the defect is confined to the entity mode |
| LegacyChainedUpdates.LegacyChainedUpdate.constructor | seal/db/base_chained_update.py:9-14 | the conditions are the seed and the sets are empty |
| LegacyChainedUpdates.LegacyChainedUpdate.Compare | seal/db/base_chained_update.py:26-64 | appends exactly one triple; the sets are unchanged |
| LegacyChainedUpdates.LegacyChainedUpdate.Set | seal/db/base_chained_update.py:66-68 | replaces the whole sets dict |
| LegacyChainedUpdates.LegacyChainedUpdate.DeleteStatement | seal/db/base_chained_update.py:70-78 | the delete guard cannot fire on a builder |
| LegacyChainedUpdates.LegacyChainedUpdate.UpdateStatement | seal/db/base_chained_update.py:80-94 | fails exactly when the sets are empty; otherwise they are stamped in place and rendered |
| LegacyChainedUpdates.LegacyChainedUpdate.UpdateEntityStatement | seal/db/base_chained_update.py:96-104 | the non-id columns are assigned, `where id = ph`, and the arguments end with the entity's id |
| LegacyChainedUpdates.LegacyChainedUpdate.InsertEntityStatement | seal/db/base_chained_update.py:106-118 | one placeholder per non-id column; the entity is stamped with `deleted = 0`, creator and time |
| LegacyChainedUpdates.InsertedEntityNotDeleted | seal/db/base_chained_update.py:108 | an inserted entity's `deleted` argument is always 0 |
| LegacyChainedUpdates.InsertEntityPlaceholders | seal/db/base_chained_update.py:112-115 | one `?` per argument in the entity INSERT |
| LegacyChainedUpdates.UpdateEntityPlaceholders | seal/db/base_chained_update.py:99-101 | one `?` per argument in the entity UPDATE |
| PoolStates.FirstIdle | seal/db/mysql/connection_pool.py:63-68 | the first idle position, or none exactly when no connection is idle |
| PoolStates.FirstIdleAt | seal/db/mysql/connection_pool.py:64-66 | an idle position with no idle one before it is the one `occupy` scans to |
| PoolStates.OccupyCountsDown | seal/db/mysql/connection_pool.py:63-68 | occupying one connection takes exactly one from the idle count and adds one to the occupied count |
| PoolStates.RemoveAt | seal/db/mysql/connection_pool.py:73 | `list.remove` drops exactly that element and keeps the others in order |
| PoolStates.IndexOf | seal/db/mysql/connection_pool.py:73 | the first position of an element, none exactly when it is absent |
| ConnectionPools.ConnectionPool.constructor | seal/db/mysql/connection_pool.py:10-24 | exactly `min_connections` connections, all idle, each newly opened |
| ConnectionPools.ConnectionPool.Statuses | seal/db/mysql/connection_pool.py:63-68 | the status of each pooled connection, position by position |
| ConnectionPools.ConnectionPool.Occupy | seal/db/mysql/connection_pool.py:63-68 | the first idle connection becomes occupied and is returned; none when nothing is idle; nothing else changes |
| ConnectionPools.ConnectionPool.GetConnection | seal/db/mysql/connection_pool.py:34-50 | an idle connection is reused without growing; else below the maximum exactly one occupied connection is appended; else a given timeout raises at once |
| ConnectionPools.ConnectionPool.Grow | seal/db/mysql/connection_pool.py:42-47 | one new occupied connection is appended |
| ConnectionPools.ConnectionPool.Release | seal/db/mysql/connection_pool.py:70-75 | above the minimum the connection is closed and removed; otherwise it becomes idle; the size never drops below the minimum |
| ConnectionPools.ConnectionPool.Drop | seal/db/mysql/connection_pool.py:72-73 | the driver connection is recorded closed first; a delegate in the pool is removed at its position with the others' statuses kept, and one not in the pool raises with the list unchanged |
| ConnectionPools.ConnectionPool.MarkIdle | seal/db/mysql/connection_pool.py:75 | the delegate becomes idle; the list is unchanged and only its own status entry changes |
| ConnectionPools.DelegateConnection.constructor | seal/db/mysql/connection_pool.py:79-83 | a delegate starts idle |
| ConnectionPools.DelegateConnection.Close | seal/db/mysql/connection_pool.py:85-86 | hands the connection back to its pool: above the minimum its driver connection is closed and it is removed (one no longer in the pool raises `list.remove`'s error), otherwise it becomes idle in place |
| MysqlConnections.ConnectionPool.constructor | seal/db/mysql/mysql_connection.py:40-54 | exactly `min_connections` connections, all IDLE |
| MysqlConnections.ConnectionPool.Statuses | seal/db/mysql/mysql_connection.py:93-98 | the status of each pooled connection, position by position |
| MysqlConnections.ConnectionPool.Occupy | seal/db/mysql/mysql_connection.py:93-98 | the first IDLE connection becomes OCCUPIED and is returned, or none |
| MysqlConnections.ConnectionPool.GetConnection | seal/db/mysql/mysql_connection.py:64-80 | as in the first revision, but the timeout defaults to 3, so an exhausted pool raises at once unless None is passed |
| MysqlConnections.ConnectionPool.Grow | seal/db/mysql/mysql_connection.py:72-77 | one OCCUPIED connection is appended, only below the maximum |
| MysqlConnections.ConnectionPool.Release | seal/db/mysql/mysql_connection.py:100-105 | shrinks above the minimum, else sets IDLE |
| MysqlConnections.ConnectionPool.Drop | seal/db/mysql/mysql_connection.py:102-103 | the connection is recorded closed, then removed at its position; one not in the pool raises |
| MysqlConnections.ConnectionPool.MarkIdle | seal/db/mysql/mysql_connection.py:105 | the connection becomes IDLE and only its own status entry changes |
| MysqlConnections.MysqlConnection.constructor | seal/db/mysql/mysql_connection.py:11-15 | a connection starts IDLE |
| MysqlConnections.MysqlConnection.Close | seal/db/mysql/mysql_connection.py:17-18 | hands the connection back to its pool: above the minimum its driver connection is closed and it is removed (one no longer in the pool raises `list.remove`'s error), otherwise it becomes idle in place |
| ConfiguredPools.ConnectionPool.constructor | seal/db/mysql/_connection_pool.py:8-15 | pre-filled with `min_connections` idle delegates |
| ConfiguredPools.ConnectionPool.Statuses | seal/db/mysql/_connection_pool.py:44-49 | the status of each pooled delegate, position by position |
| ConfiguredPools.ConnectionPool.Occupy | seal/db/mysql/_connection_pool.py:44-49 | the first idle delegate becomes occupied and is returned, or none |
| ConfiguredPools.ConnectionPool.GetConnection | seal/db/mysql/_connection_pool.py:17-32 | reuse, else grow below the maximum, else a given timeout raises |
| ConfiguredPools.ConnectionPool.Grow | seal/db/mysql/_connection_pool.py:24-29 | one occupied delegate is appended |
| ConfiguredPools.ConnectionPool.Release | seal/db/mysql/_connection_pool.py:51-56 | the intended `release`: above the minimum the driver connection is closed and the delegate removed at its position (one not in the pool raises); otherwise it is marked idle |
| ConfiguredPools.ConnectionPool.ReleaseAsWritten | seal/db/mysql/_connection_pool.py:51-56 | the written `release`: above the minimum it raises on the missing `connection` attribute, closing and removing nothing and leaving the delegate's status as it was; otherwise the delegate becomes idle |
| ConfiguredPools.ConnectionPool.Drop | seal/db/mysql/_connection_pool.py:53-54 | the connection is recorded closed, then removed at its position; one not in the pool raises |
| ConfiguredPools.ConnectionPool.MarkIdle | seal/db/mysql/_connection_pool.py:56 | the connection becomes idle and only its own status entry changes |
| ConfiguredPools.DelegateConnection.constructor | seal/db/mysql/_connection_pool.py:60-64 | a delegate starts idle |
| ConfiguredPools.DelegateConnection.CloseAsWritten | seal/db/mysql/_connection_pool.py:66-67 | handing over the raw connection raises above the minimum and otherwise changes nothing the pool can see |
| ConfiguredPools.DelegateConnection.Close | seal/db/mysql/_connection_pool.py:66-67 | the intended `close`: hands the connection back to its pool: above the minimum its driver connection is closed and it is removed (one no longer in the pool raises `list.remove`'s error), otherwise it becomes idle in place |
| ConfiguredPools.CloseAsWrittenLeaks | seal/db/mysql/_connection_pool.py:66-67 | in a one-connection pool, after a close as written, the next request finds no idle delegate and waits |
| ConfiguredPools.CloseReturnsDelegate | seal/db/mysql/_connection_pool.py:66-67 | with the intended close, the next request gets the same delegate back |
| ConfiguredPools.ReleaseAsWrittenStrands | seal/db/mysql/_connection_pool.py:51-54 | in a pool with no minimum and room for one, a delegate released as written stays occupied and the next request waits |
| ConfiguredPools.ReleaseFreesSlot | seal/db/mysql/_connection_pool.py:51-54 | with the intended `release` the same sequence closes the first driver connection and the next request opens a second one |
| Transactions.Connection.constructor | seal/db/transaction.py:17 | a connection from the data source has had nothing called on it yet |
| Transactions.SqlContext.constructor | seal/db/transaction.py:11-13 | nothing is held before `begin` |
| Transactions.SqlContext.Begin | seal/db/transaction.py:15-18 | holds the given connection and fresh id and calls `begin` on it exactly once |
| Transactions.SqlContext.Commit | seal/db/transaction.py:22-25 | commit then close on the held connection, which stays held with its id; before any `begin` it raises |
| Transactions.SqlContext.Rollback | seal/db/transaction.py:27-30 | rollback then close on the held connection, which stays held; before any `begin` it raises |
| Transactions.BeginTwiceLeaks | seal/db/transaction.py:15-18 | a second `begin` replaces the first connection, which has begun and is never closed |
| Transactions.CommitNeedsBegin | seal/db/transaction.py:12-36 | a commit before `begin` raises; after it the connection and id remain visible |
| Structures.RegisterThenLookup | seal/db/structures.py:5-19 | `get` after `register` of the same triple returns the structure; every other `(key, table)` is unaffected |
| Structures.NoneIsEmptyDatabase | seal/db/structures.py:6-14 | a None database behaves exactly like `''` |
| Structures.KeysCollide | seal/db/structures.py:8-15 | `('a.b', 'c')` and `('a', 'b.c')` share one table map |
| Structures.StructureRegistry.constructor | seal/db/structures.py:2-3 | starts empty |
| Structures.StructureRegistry.Register | seal/db/structures.py:5-10 | the registry becomes the registered one and `get` returns the structure |
| Structures.StructureRegistry.Get | seal/db/structures.py:12-19 | a structure exactly when its key and then its table are registered, and then the one stored there |
| Structures.Lookup | seal/db/structures.py:12-19 | on the registry value: None for an unknown key or table, else the stored structure; RegisterThenLookup relates it to `register` |
| LruCaches.LRUCache.constructor | seal/cache/lru_cache.py:7-9 | starts empty with the given capacity |
| LruCaches.LRUCache.Get | seal/cache/lru_cache.py:11-16 | returns the stored value or None, and moves a present key to most-recent |
| LruCaches.TouchedMovesLast | seal/cache/lru_cache.py:14-16 | a touched key is last, the others keep their relative order, and the entries are unchanged as a map |
| LruCaches.LRUCache.Set | seal/cache/lru_cache.py:18-23 | stores the value as most recent and evicts the oldest entry on overflow |
| LruCaches.StoredThenGet | seal/cache/lru_cache.py:18-23 | after `set` the key holds its value and is the most recent, the keys stay distinct and the size stays within capacity |
| LruCaches.StoredEvictsOldest | seal/cache/lru_cache.py:22-23 | at capacity a new key evicts exactly the least recently used one |
| LruCaches.StoredExistingKeepsSize | seal/cache/lru_cache.py:19-21 | overwriting a present key keeps the size |
| LruCaches.LRUCache.Remove | seal/cache/lru_cache.py:25-27 | the key is gone afterwards; an absent key is a no-op |
| LruCaches.LRUCache.RemovePrefix | seal/cache/lru_cache.py:29-35 | an empty prefix raises and changes nothing; otherwise exactly the prefixed keys go and the rest keep their order |
| LruCaches.WithoutPrefixed | seal/cache/lru_cache.py:33-35 | the keys kept are exactly those without the prefix |
| Caches.Cache.constructor | seal/cache/cache.py:6-7 | starts empty |
| Caches.Cache.Set | seal/cache/cache.py:12-13 | `get` afterwards returns the value, overwriting any old one, and every other key is unchanged |
| Caches.Cache.Get | seal/cache/cache.py:9-10 | a value exactly for a key that was set, and then the value last stored under it (`Set` is the partner) |
| DynamicModels.DynamicModelRegistry.constructor | seal/model/_dynamic_model.py:2-3 | starts empty |
| DynamicModels.DynamicModelRegistry.Register | seal/model/_dynamic_model.py:5-6 | `has` is then true and `get` returns the model; other names are unchanged |
| DynamicModels.DynamicModelRegistry.Get | seal/model/_dynamic_model.py:8-12 | succeeds exactly for registered names, with the registered model; an unregistered name raises KeyError |
| DynamicModels.DynamicModelRegistry.Has | seal/model/_dynamic_model.py:11-12 | true exactly for a registered name, so exactly when `get` succeeds |
| DataSources.DataSourceManager.constructor | seal/db/data_source.py:23 | starts empty |
| DataSources.DataSourceManager.Register | seal/db/data_source.py:25-27 | `get` then returns the data source, overwriting; other names are unchanged |
| DataSources.DataSourceManager.Get | seal/db/data_source.py:29-31 | fails with KeyError exactly for unregistered names, and otherwise gives the registered data source |
| WsDispatchers.WSDispatcher.constructor | seal/ws/ws_dispatcher.py:3-4 | starts empty |
| WsDispatchers.WSDispatcher.Register | seal/ws/ws_dispatcher.py:9-10 | `dispatch` then returns the handler, overwriting; other paths are unchanged |
| WsDispatchers.WSDispatcher.Dispatch | seal/ws/ws_dispatcher.py:6-7 | the handler exactly for a registered path, the one last registered there (`Register` is the partner) |
| ModelResults.Result.Get | seal/model/result.py:16-21 | raises exactly when there is a row but no type; None exactly when there is no row; otherwise the object built from the row |
| ModelResults.Result.AsDict | seal/model/result.py:23-26 | the row when present, else None |
| ModelResults.Empty | seal/model/result.py:9-11 | the empty result is not present |
| ModelResults.Results.Get | seal/model/result.py:41-46 | `[]` for no rows; raises for rows (even an empty list) without a type; otherwise one object per row, in order |
| ModelResults.Results.AsDict | seal/model/result.py:48-51 | the rows or `[]`; non-empty exactly when present |
| ModelResults.EmptyList | seal/model/result.py:34-36 | the empty list result is not present and yields no rows and no objects |
| ModelResults.PresentGetsObjects | seal/model/result.py:38-46 | a successful get yields objects exactly when the result is present |
| DbResults.Result.Get | seal/db/result.py:10-15 | raises exactly when there is a row but no model; None exactly when there is no row; otherwise the model built from the row |
| DbResults.Result.AsDict | seal/db/result.py:17-20 | the row or None |
| DbResults.Empty | seal/db/result.py:6-8 | the empty result has no row |
| DbResults.Results.Get | seal/db/result.py:35-40 | `[]` for no rows; raises with rows but no model; else one model per row in order |
| DbResults.Results.AsDict | seal/db/result.py:42-45 | the rows or `[]`; non-empty exactly when present |
| DbResults.EmptyList | seal/db/result.py:28-30 | the empty list result is not present |
| TableInfos.TableInfo.constructor | seal/db/table_info.py:2-4 | a new table info has no columns and no model fields |
| TableInfos.MysqlType | seal/db/mysql/_meta.py:21-32 | int for `bigint`/`int`/`tinyint` prefixes, float exactly for `decimal`/`float`, bytes exactly for `blob`, datetime exactly for `datetime`, str for `varchar`/`text` and anything else |
| TableInfos.MysqlTypeIgnoresWidth | seal/db/mysql/_meta.py:21-30 | widths after the prefix do not matter |
| TableInfos.MysqlDateIsStr | seal/db/mysql/_meta.py:29-32 | `date` is str, not datetime |
| TableInfos.MysqlTableInfo | seal/db/mysql/_meta.py:17-32 | one `(Field, Type)` column and one classified model field per row, in row order |
| TableInfos.CacheKey | seal/db/mysql/meta.py:11 | the key is `table_info_` followed by the table name |
| TableInfos.CacheKeysDistinct | seal/db/mysql/meta.py:11 | different tables never share a key |
| TableInfos.CachedMysqlTableInfo | seal/db/mysql/meta.py:10-38 | a hit returns the cached info and leaves the cache alone; a miss builds the info as the uncached loop does and stores it under the same key |
| TableInfos.SqliteType | seal/db/sqlite/_meta.py:19-32 | exact, case-sensitive matches, each type for exactly its name: None for `NULL`, int for `INTEGER`, float for `REAL`, bytes for `BLOB`, datetime for `DATETIME`; str for `TEXT` and every name not listed |
| TableInfos.SqliteTableInfo | seal/db/sqlite/_meta.py:17-32 | one `(name, type)` column and one classified model field per PRAGMA row, in order |
| ListUtils.Group | seal/utils/list_utils.py:1-14 | the loop computes the grouping defined by the fold over the items |
| ListUtils.GroupedOk | seal/utils/list_utils.py:7-10 | grouping succeeds exactly when every item has the key (dict entry or attribute) |
| ListUtils.GroupedMembers | seal/utils/list_utils.py:11-13 | the group keys are exactly the key values, and each group holds exactly the items with that value, in input order |
| ListUtils.KeyValues | seal/utils/list_utils.py:7-10 | the key value of each item, in input order |
| ListUtils.FirstIndex | seal/utils/list_utils.py:11-12 | the position where a key value first occurs, which is where its group is created |
| ListUtils.GroupedKeyOrder | seal/utils/list_utils.py:11-12 | group keys appear in order of first occurrence |
| ListUtils.GroupedSizes | seal/utils/list_utils.py:6-13 | the group sizes sum to the input length |
| ListUtils.EmptyGroups | seal/utils/list_utils.py:5-14 | an empty input gives an empty grouping |
| StrUtils.Split | seal/utils/str_utils.py:5 | one more piece than separators, and no piece contains the separator |
| StrUtils.Capitalize | seal/utils/str_utils.py:5 | the first character upper-cased, the rest lower-cased, same length |
| StrUtils.CamelCase | seal/utils/str_utils.py:4-5 | the result contains no `_` |
| StrUtils.CamelCaseDropsEmptyPieces | seal/utils/str_utils.py:4-5 | empty pieces vanish: `a__b` becomes `AB` |
| StrUtils.CamelCaseDropsLeadingUnderscore | seal/utils/str_utils.py:4-5 | `_user` becomes `User` |
| StrUtils.SnakeCaseLength | seal/utils/str_utils.py:8-9 | the length grows by the number of upper-case letters after the first position |
| StrUtils.SnakeCaseLower | seal/utils/str_utils.py:8-9 | the result has no upper-case letter |
| StrUtils.SnakeCase | seal/utils/str_utils.py:8-9 | no underscore is inserted before the first character, which is only lower-cased |
| StrUtils.SnakeCaseOfCamelCase | seal/utils/str_utils.py:4-9 | `snake_case(camel_case(s)) == s` for words of lower-case letters and digits, each beginning with a letter, joined by single underscores |
| StrUtils.SplitJoin | seal/utils/str_utils.py:5 | splitting an underscore-joined list of underscore-free words gives the words back |
| Configurations.Lookup | seal/config/configuration.py:13-19 | no keys give the whole config; a successful lookup is never falsy |
| Configurations.Configuration.constructor | seal/config/configuration.py:6-7 | starts with an empty mapping |
| Configurations.Configuration.Load | seal/config/configuration.py:9-11 | the config becomes the parsed tree |
| Configurations.Configuration.GetConf | seal/config/configuration.py:13-19 | the key walk computes the recursive lookup, raising at the first falsy step, and leaves the config unchanged |
| Configurations.Configuration.GetConfDefault | seal/config/configuration.py:21-27 | the key walk computes the defaulting lookup (default None) and leaves the config unchanged |
| Configurations.LookupDefault | seal/config/configuration.py:21-27 | an empty path gives the config itself; a walk that succeeds gives the default or a value that is not None; the only failure is a step into a non-mapping |
| Configurations.LookupPath | seal/config/configuration.py:15-19 | following a path of truthy entries finds the entry at its end |
| Configurations.LookupAgrees | seal/config/configuration.py:13-27 | where `get_conf` succeeds, `get_conf_default` gives the same value |
| Configurations.FalsyZero | seal/config/configuration.py:17-26 | a stored 0 makes `get_conf` raise but is returned by `get_conf_default` |
| Configurations.MissingGivesDefault | seal/config/configuration.py:17-26 | a missing key gives the default, and makes `get_conf` raise |
| Responses.Response.Build | seal/model/_response.py:7-16 | data is the argument, code 0, message `''` |
| Responses.Response.Success | seal/model/_response.py:18-21 | code 0 and the message (default `success`); the same object; data unchanged |
| Responses.Response.Error | seal/model/_response.py:23-26 | the code (default -1) and message (default `error`); the same object; data unchanged |

## Left out

- Drivers, cursors and executors (pymysql, sqlite3, `ping`, `cursor`, `commit` on the driver, `execute`, `fetchall`) are foreign calls. The pools number the driver connections they open and record which they close. The transaction holder records the calls it makes on its connection. Fetched rows are parameters.
- The blocking wait of `get_connection` (sleep and clock polling) is modelled as the result `WouldBlock`. It is reached only without a timeout.
- `seal/db/mysql/_mysql_connector.py` is not part of this model. The configured pool and the uncached MySQL metadata loop get their connections from it; here the connections are numbers and the rows are parameters.
- `seal/enum/connection_status.py` is not part of this model. Its two states are `PoolStates.Status`.
- Entity classes: `BaseEntity.columns()`, a named tuple's `_fields` and `dataclasses.fields(...)` are sequences of column names given to the constructors.
- Dynamic-model creation: the chained builders' constructors build a named tuple from the table metadata and register it. The builders here take the column list directly. The registry itself is `DynamicModels`.
- `WebContext().uid()`, `datetime.now()` and `uuid.uuid4()` are parameters. Logging is left out.
- The `ContextVar` holding the transaction context is left out. `SqlContext` is a plain object.
- `Configuration.load` reads and parses a YAML file. Here the parsed tree is the argument.
- `DataSourceManager.data_sources` is a class attribute. Here it is a field of one manager object.
- Object construction from a row (`bean_type(**row)`, `model(**row)`, `clz(**row)`) is a total function parameter of the member that performs it. A constructor that rejects the row is not modelled.
- Values are null, booleans, integers and strings. Floats, dates and bytes never reach a contract. `str(value)` in the like variants is `Values.Show`.
- StrUtils.Capitalize and StrUtils.Lower change only ASCII letters. Python's `capitalize`/`lower` also map other Unicode letters. The `[A-Z]` of `snake_case` is ASCII in both.
- ConditionWrapper.Wrapper.Or: the argument's tree is appended as a snapshot of its entries. In the source the same tree object is shared, so later changes to the argument would show up in this wrapper.
- BaseWrappers.BaseWrapper.Or: the same as for `Wrapper.Or`. The other wrapper's tree is appended as a snapshot of its entries. In the source the tree object is shared, so later conditions added to the other wrapper would also appear here.
- ListUtils.Group: group keys are compared as model values, so `True` and `1` form two groups, as do `False` and `0`. In Python each pair is equal with equal hashes, so it shares one dict key and one group.
- Caches.Cache: the source class is a `@singleton`, so every `Cache()` call returns the one shared instance. The model has an ordinary class, and sharing is up to the caller.
- ChainedUpdates.ChainedUpdate.UpdateByPkStatement and ChainedUpdates.ChainedUpdate.InsertStatement return only the statement. They compute the stamped record as a value (`StampForUpdate`/`StampForInsert`) and read the arguments from it. The caller's record is not changed, while in the source the entity object is stamped in place.
- LegacyChainedUpdates.LegacyChainedUpdate.UpdateEntityStatement and LegacyChainedUpdates.LegacyChainedUpdate.InsertEntityStatement also return only the statement. The stamped record is stated inside their contracts as a map update of the caller's record, which itself is not changed; in the source the entity object is stamped in place.
- ConditionWrapper.Wrapper.HandlePublicFields and BaseWrappers.BaseWrapper.HandleLogicalDelete take the per-call option as an optional column name. The source tests whether the keyword is present, so `logical_deleted=None` appends a condition on the column `None`; the model cannot express a present-but-None option.
- Responses.Response.Build: the source's `data=None` default is not modelled; the data is always an argument of type `T`.
- ChainedQueries.ChainedQuery.SelectStatement: the contract fixes the text up to the order-by part. The trailing limit part is stated only by the `LimitText` it appends.
- ChainedQueries.ChainedQuery.MappingStatement: the contract fixes the raw text and the where part. The trailing group-by and order-by parts are stated only in the body.
- LegacyChainedQueries.LegacyChainedQuery.SelectStatement: the contract fixes the text up to the where part. The order-by tail is stated only in the body.
- SqlBuilder.BuildUpdate: the contract fixes the text up to the SET list. The WHERE tail is stated through `Where` only in the body.
- TableInfos.MysqlTableInfo and TableInfos.CachedMysqlTableInfo read `Field` and `Type` from each row, which is assumed to have both.

## Findings

| source | as written | input that shows it | evidently intended | confidence | as-written member | corrected member |
|---|---|---|---|---|---|---|
| seal/db/query_wrapper.py:11-35 | `__init__` assigns the instance attributes `limit` and `offset`, which hide the methods of the same name | `QueryWrapper(t, ds).limit(10)` calls `None` and raises | `limit(n)`/`offset(n)` set the value and return the wrapper | high, not executed | QueryWrappers.QueryWrapper.Limit | QueryWrappers.QueryWrapper.SetLimit |
| seal/db/_base_chained_query.py:133-135 | `group_by(col)` stores the string itself, and `', '.join` iterates its characters | `group_by('id')` renders `group by i, d` | `group by id` | high, not executed | ChainedQueries.GroupBySplitsColumn | ChainedQueries.ChainedQuery.GroupBy |
| seal/db/_base_chained_update.py:162-164 | the upsert keyword is appended without a trailing space | `insert_statement(r, duplicated_key_update=True)` with column `a` gives `... UPDATEa = ?` | `... ON DUPLICATE KEY UPDATE a = ?`, as `insert_bulk_statement` writes it (line 178) | high, not executed | ChainedUpdates.InsertTextMissesSpace | ChainedUpdates.ChainedUpdate.InsertStatement |
| seal/db/base_chained_query.py:29-31 | `col in self.clz.columns() if col not in ignored else ''` yields `True` for every column not ignored, and `join` raises on it | an entity with columns `id, name`, no `select` | `id, name` | high, not executed | LegacyChainedQueries.UnselectedColumnsExample | LegacyChainedQueries.LegacyChainedQuery.SelectedColumns |
| seal/db/mysql/_connection_pool.py:66-67 | `close` passes the wrapped driver connection to `release`, not the delegate | a pool of size 1: take the connection, close it, take again; the delegate is still occupied and the second request waits | the delegate is released and reused | high, not executed | ConfiguredPools.CloseAsWrittenLeaks | ConfiguredPools.CloseReturnsDelegate |
| seal/db/mysql/_connection_pool.py:53 | `release` reads `connection.connection`, but the delegate stores its driver connection as `_connection` | a pool with no minimum and room for one: take a connection, pass the delegate to `release`, take again; `release` raises AttributeError, the delegate stays occupied and the second request waits | the driver connection is closed and the delegate dropped, freeing the slot | high, not executed | ConfiguredPools.ReleaseAsWrittenStrands | ConfiguredPools.ReleaseFreesSlot |
| seal/db/base_chained_query.py:151 | non-dynamic `fetchone` enumerates `self.columns()`, which is a string, so each character becomes a column | `select('id')`, row `(7,)`: the comprehension reads `row[1]` | `clz(id=7)` | high, not executed | LegacyChainedQueries.FetchOneSplitsColumns | LegacyChainedQueries.LegacyChainedQuery.FetchOne |
