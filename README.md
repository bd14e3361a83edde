# Onboarding questionnaire and generic table reader — a Dafny model

This project models the onboarding core of a FastAPI service.

- **Questionnaire tables.** A questionnaire is described per role by configurations (`onboarding_configs`), their steps (`onboarding_steps`) and the steps' fields (`onboarding_fields`).
- **Answer store.** Users' answers live in `user_onboarding_data`, one row per (user, configuration, step key, field key). An atomic `INSERT … ON CONFLICT … DO UPDATE` keeps it that way.
- **Generic reader.** `GET /api/v1/{table_name}` exposes sixteen other tables. Filters are `column__operator` keys, ordering is `column[:direction]` and the limit lies in [1, 1000].

The model is split into modules:

- `Sql`: the part of SQL the queries rely on, as functions over in-memory tables.
  - WHERE is `Filter`.
  - ORDER BY is `SortBy`, a stable insertion sort. NULL sorts after every value, as in PostgreSQL.
  - LIMIT is `Take`.
  - ORDER BY leaves the order of equal keys to the database. The sort properties are stated as "sorted and a permutation of the matching rows", which holds for any tie order.
  - Without ORDER BY, SQL promises no row order. The model returns storage order there (see "## Left out").
- `Strings`: Python's `str.split` on one character, `str.strip`, and the search for the first `"__"`.
- `Schema`: the table rows, the column names an `order_by` can use, and the `Database` class holding the four tables.
- `OnboardingService`: `OnboardingService` in `app/services/onboarding_service.py`.
  - Each read is a query function, and a class method returns its value. The method's contract says which rows come back, that they are a permutation of the matching rows, and in what order.
  - `save_user_data` is a method that updates `db.answers` in place. It has a key-search loop and a primary-key check, and is proved equal to the function `Save`. The lemmas about `Upsert` state the ON CONFLICT semantics.
- `OnboardingRouter`: the handlers in `app/routers/onboarding.py`. Five of them build their own SQL; only `/onboarding_configs` calls the service. For `/onboarding_fields`, a `step_id` with a comma becomes an IN list of stripped parts.
- `TableReader`: `list_rows` in `app/main_new.py`.
  - It covers the registry, filter parsing, ordering, limit and projection.
  - Both loops are methods: `Conditions` for filters and `Project` for converting rows to dicts. Each is proved equal to a recursive function.

Inputs the source takes from its environment become parameters:

- `now` is `NOW()`.
- `freshId` is `uuid.uuid4()`.
- `fault` means the database fails the statement. The transaction is then rolled back.
- `catalog` gives each registered table's columns and rows.

Where the code's behaviour may surprise a reader, the model follows the code:

- An `order_by` naming no column is not ignored by the steps and fields reads. It goes into the SQL text, the database rejects it, and the router answers 500. `StepOrder`/`FieldOrder` make this an error. `list_rows` ignores an unknown order column.
- The seven answer slots are not exclusive. A request that fills several slots has all of them stored (`SlotsNotExclusive`).
- Replaying a save does not give bit-for-bit the same row. `updated_at` moves to the new `NOW()` (`UpsertReplay`).
- A role without an active default configuration is not a not-found error. The service returns `None` and the router returns `[]`.

## Model

| member | source | states |
|---|---|---|
| `Sql.Filter` | app/services/onboarding_service.py:27-40 | WHERE keeps exactly the rows that satisfy the conditions: a row is in the result iff it is in the table and matches, each matching row as often as the table holds it, and no more rows than the table |
| `Sql.SortBy` | app/services/onboarding_service.py:42 | ORDER BY returns a permutation of its input (same multiset, same members, same length) in which every earlier row may precede every later one in the requested direction |
| `Sql.CellLeTotal` | app/main_new.py:143-147 | the order ORDER BY uses (NULL after every value; text by code point, see "## Left out") compares any two values |
| `Sql.CellLeTransitive` | app/main_new.py:143-147 | that order is transitive, so a sorted result is ordered between any two positions |
| `Sql.TakeOfSorted` | app/main_new.py:145-150 | LIMIT after ORDER BY keeps a sorted sub-multiset, and every row it drops may come after every row it keeps |
| `Strings.Split` | app/routers/onboarding.py:95 | `split(",")` gives at least one piece and no piece holds a comma |
| `Strings.JoinSplit` | app/routers/onboarding.py:95 | joining the pieces of `split(sep)` with `sep` gives the text back |
| `Strings.SplitWithSeparator` | app/routers/onboarding.py:94-95 | a text holding the separator splits into at least two pieces |
| `Strings.SplitWithoutSeparator` | app/main_new.py:139-141 | a text without the separator splits into itself alone, so `parts[0]` is the whole text |
| `Strings.SplitAtFirst` | app/main_new.py:139-141 | the first piece stops at the first separator and the rest split as the remainder does |
| `Strings.LeadingSpaces` | app/routers/onboarding.py:95 | the number of leading characters `strip()` removes: all of them whitespace, the next one not |
| `Strings.TrailingSpaces` | app/routers/onboarding.py:95 | the number of trailing characters `strip()` removes: all of them whitespace, the one before them not |
| `Strings.Strip` | app/routers/onboarding.py:95 | Python's `strip()`: drops the leading whitespace, then the trailing whitespace of what is left; its meaning is stated by the `Strip…` lemmas below |
| `Strings.StripIsSlice` | app/routers/onboarding.py:95 | `strip()` returns the contiguous slice of the text that starts after the leading whitespace |
| `Strings.StripSurroundedBySpace` | app/routers/onboarding.py:95 | only whitespace lies before and after what `strip()` keeps |
| `Strings.StripEnds` | app/routers/onboarding.py:95 | a non-empty result of `strip()` neither starts nor ends with whitespace |
| `Strings.StripIdempotent` | app/routers/onboarding.py:95 | stripping twice is stripping once |
| `Strings.StripUnpadded` | app/routers/onboarding.py:95 | a text that neither starts nor ends with whitespace is unchanged by `strip()` |
| `Strings.StripLeadingSpace` | app/routers/onboarding.py:95 | a leading whitespace character does not affect the result of `strip()` |
| `Strings.FirstPair` | app/main_new.py:125 | the position of the first `"__"`, with none before it, or none when the key holds no `"__"` |
| `Strings.SplitAtPair` | app/main_new.py:126 | `split("__", 1)` gives a column and an operator with key = column + `"__"` + operator, where the column holds no `"__"` and does not end with `_` |
| `Strings.SplitAtPairOfJoined` | app/main_new.py:125-126 | a column without `"__"` and not ending in `_` is recovered from column + `"__"` + any operator |
| `Schema.StepColumnNamed` | app/services/onboarding_service.py:84-85 | resolves an `order_by` text to the step column with that name, or to none when no step column has it |
| `Schema.FieldColumnNamed` | app/services/onboarding_service.py:134-135 | resolves an `order_by` text to the field column with that name, or to none when no field column has it |
| `Schema.StepColumnRoundTrip` | app/services/onboarding_service.py:84-85 | every step column is found by its own name (the names are distinct) |
| `Schema.FieldColumnRoundTrip` | app/services/onboarding_service.py:134-135 | every field column is found by its own name (the names are distinct) |
| `OnboardingService.ConfigsQuery` | app/services/onboarding_service.py:27-44 | the configuration read holds exactly the configurations that match every filter given, each as often as stored, ordered by `created_at` descending |
| `OnboardingService.StepOrder` | app/services/onboarding_service.py:84-85 | an empty `order_by` means no ORDER BY; otherwise the query orders by the column of that name, or fails with an unknown-column error exactly when no step column has that name |
| `OnboardingService.FieldOrder` | app/services/onboarding_service.py:134-135 | the same for field columns |
| `OnboardingService.StepsQuery` | app/services/onboarding_service.py:73-85 | the steps query as filter and optional sort: `config_id` and `is_active` narrow only when given; `StepsRequest` states what it holds |
| `OnboardingService.StepsRequest` | app/services/onboarding_service.py:73-87 | the steps read fails exactly when `order_by` names no step column; otherwise it holds exactly the matching steps, each as often as stored, sorted by the named column |
| `OnboardingService.SelectorOf` | app/services/onboarding_service.py:121-128 | which steps a fields read selects: `step_id` if given, else the `step_ids` list, else every step; `SelectorOfAdmits` states what each admits |
| `OnboardingService.SelectorOfAdmits` | app/services/onboarding_service.py:121-128 | `step_id` wins over `step_ids`: with `step_id` only that id is selected, otherwise exactly the ids in `step_ids`, otherwise every step |
| `OnboardingService.FieldsQuery` | app/services/onboarding_service.py:118-135 | the fields query as filter and optional sort under a resolved column; `FieldsQueryRows` states what it holds |
| `OnboardingService.FieldsRequest` | app/services/onboarding_service.py:118-137 | the fields read as a value: `IN ()` for an empty list, an unknown order column, or the field query; `FieldsRequestOutcome` states when it fails and `FieldsQueryRows` what it holds |
| `OnboardingService.FieldsRequestOutcome` | app/services/onboarding_service.py:121-135 | the fields read fails with `IN ()` exactly when `step_ids` is empty, and fails exactly when that holds or `order_by` names no field column |
| `OnboardingService.FieldsQueryRows` | app/services/onboarding_service.py:118-137 | the field query returns the matching fields, as a permutation of the filtered rows, sorted by the chosen column or in storage order without one |
| `OnboardingService.ConfigByRole` | app/services/onboarding_service.py:171-182 | the first row of the role's active defaults ordered by `created_at` descending, or none; `ConfigByRoleNewest` states what that row is |
| `OnboardingService.ConfigByRoleNewest` | app/services/onboarding_service.py:171-182 | no configuration is found exactly when no row is an active default of the role; otherwise the one found is such a row and no such row is newer |
| `OnboardingService.JoinStep` | app/services/onboarding_service.py:206-208 | the join rows of one step: one per configuration with its id that targets the role, when the step is active; `JoinStepOnce` states what it yields |
| `OnboardingService.RoleJoin` | app/services/onboarding_service.py:206-209 | the JOIN over all steps in storage order; `JoinIsRoleSteps` states what it holds |
| `OnboardingService.JoinStepWithoutOwner` | app/services/onboarding_service.py:206-208 | a step whose configuration id matches no configuration contributes no join row |
| `OnboardingService.JoinStepOnce` | app/services/onboarding_service.py:206-209 | with unique configuration ids a step joins once when it is active and its configuration targets the role, and otherwise not at all; its row carries its configuration's name |
| `OnboardingService.JoinIsRoleSteps` | app/services/onboarding_service.py:206-209 | the join's steps are exactly the active steps whose configuration targets the role, in storage order, each named by its configuration |
| `OnboardingService.StepsByRole` | app/services/onboarding_service.py:205-213 | the join's rows, each as often as the join yields it, ordered by `step_number` |
| `OnboardingService.StepsByRoleMeaning` | app/services/onboarding_service.py:205-213 | the steps-by-role result is a permutation of those steps, each row named by its configuration, ordered by `step_number` |
| `OnboardingService.UserDataQuery` | app/services/onboarding_service.py:291-298 | exactly the user's answers, narrowed to `config_id` only when it is a non-empty string, each as often as stored, ordered by `created_at` |
| `OnboardingService.ParseSubmission` | app/services/onboarding_service.py:263-275 | a submission is formed exactly when the three key columns hold text, and its key is the user and those three texts; otherwise the error names a key column without text; `SaveStoresRequest` states what it stores |
| `OnboardingService.KeyIndex` | app/services/onboarding_service.py:248 | finds the first row holding the conflict key, or reports that no row holds it |
| `OnboardingService.UpsertStoresSubmission` | app/services/onboarding_service.py:240-259 | after the upsert exactly one row holds the key, with the submitted slots and flag and `updated_at` at now; ids and keys stay unique |
| `OnboardingService.UpsertKeepsOtherRows` | app/services/onboarding_service.py:240-259 | rows with other keys keep their place and contents, and the only row added is the new one for the key |
| `OnboardingService.UpsertOnConflict` | app/services/onboarding_service.py:248-258 | on a key conflict no row is added and the row keeps its id, key and `created_at` while `updated_at` becomes now |
| `OnboardingService.UpsertReplay` | app/services/onboarding_service.py:240-259 | replaying the same submission changes nothing but the row's `updated_at`, whatever clock reading and fresh id the replay gets |
| `OnboardingService.Upsert` | app/services/onboarding_service.py:240-259 | the table after `INSERT … ON CONFLICT … DO UPDATE`; the `Upsert…` lemmas above state what it does |
| `OnboardingService.Save` | app/services/onboarding_service.py:261-286 | the table after `save_user_data`; `SaveOutcome` states when it succeeds and how it fails |
| `OnboardingService.SaveOutcome` | app/services/onboarding_service.py:261-286 | a save succeeds exactly when the database does not fail, the three key columns hold text, and the key is already stored or the fresh id is free; a database failure, a key column without text and a taken id each give their own error; a save that succeeds is the upsert of the parsed submission |
| `OnboardingService.SaveStoresRequest` | app/services/onboarding_service.py:240-276 | after a successful save exactly one row holds the request's key; each of the seven slots holds the value sent for it, or NULL when the request leaves it out; `is_completed` holds the sent flag, or false when absent; `updated_at` is now |
| `OnboardingService.SlotsNotExclusive` | app/services/onboarding_service.py:262-276 | a request that fills both `text_value` and `number_value` stores both: the store does not enforce one slot per answer |
| `OnboardingService.ResubmissionScenario` | app/services/onboarding_service.py:240-281 | submitting 4 and then 5 for `child_age` of user `u1` leaves one row for that key, holding 5 |
| `OnboardingService.OnboardingService.GetConfigs` | app/services/onboarding_service.py:19-59 | returns exactly the configurations matching each given filter, as a permutation of those rows, newest first |
| `OnboardingService.OnboardingService.GetSteps` | app/services/onboarding_service.py:65-103 | fails exactly on an unknown order column; otherwise returns exactly the matching steps, permuted, sorted by the named column or in storage order for an empty `order_by` |
| `OnboardingService.OnboardingService.GetFields` | app/services/onboarding_service.py:109-162 | fails exactly on an empty `step_ids` (with no `step_id`) or an unknown order column; otherwise returns exactly the selected fields, permuted, sorted by the named column or in storage order |
| `OnboardingService.OnboardingService.GetConfigByRole` | app/services/onboarding_service.py:168-196 | none exactly when the role has no active default configuration; otherwise such a configuration, with no newer one |
| `OnboardingService.OnboardingService.GetStepsByRole` | app/services/onboarding_service.py:202-230 | the active steps of the role's configurations, each with its configuration's name, ordered by `step_number` |
| `OnboardingService.OnboardingService.SaveUserData` | app/services/onboarding_service.py:236-286 | on success the answer table becomes the upsert's result and the acknowledgement is returned; on any failure the table is unchanged (rollback) and the error is returned; table constraints are kept |
| `OnboardingService.OnboardingService.GetUserData` | app/services/onboarding_service.py:288-322 | returns exactly the user's answers, narrowed to a non-empty `config_id` when given, as a permutation oldest first |
| `OnboardingRouter.StepIdSelector` | app/routers/onboarding.py:92-102 | which steps `/onboarding_fields` selects from its `step_id`; the `StepIdSelector…` lemmas state what each form yields |
| `OnboardingRouter.StepIdSelectorList` | app/routers/onboarding.py:94-99 | a `step_id` with a comma becomes an IN list of at least two ids (never `IN ()`), each the stripped piece; the pieces rejoin to the text |
| `OnboardingRouter.StepIdSelectorAbsent` | app/routers/onboarding.py:92 | a request without `step_id` selects the fields of every step |
| `OnboardingRouter.StepIdSelectorSingle` | app/routers/onboarding.py:100-102 | a `step_id` without a comma selects that id as given, unstripped |
| `OnboardingRouter.StepIdSelectorPair` | app/routers/onboarding.py:94-99 | `a,b` selects exactly the two stripped parts |
| `OnboardingRouter.GetOnboardingConfigs` | app/routers/onboarding.py:20-33 | the service's configuration read: the matching configurations, newest first |
| `OnboardingRouter.GetOnboardingSteps` | app/routers/onboarding.py:35-78 | 500 exactly on an unknown order column; otherwise exactly the matching steps, permuted and ordered as `order_by` says |
| `OnboardingRouter.GetOnboardingFields` | app/routers/onboarding.py:80-140 | 500 exactly on an unknown order column (the comma split never yields an empty list); otherwise exactly the selected fields, permuted and ordered as `order_by` says |
| `OnboardingRouter.GetOnboardingConfigByRole` | app/routers/onboarding.py:144-180 | `[]` exactly when the role has no active default configuration, otherwise a one-element list holding the newest one |
| `OnboardingRouter.GetOnboardingStepsByRole` | app/routers/onboarding.py:182-218 | the active steps of the role's configurations with their configuration names, ordered by `step_number` |
| `OnboardingRouter.GetOnboardingFieldsByStep` | app/routers/onboarding.py:220-262 | exactly the active fields of the step, permuted, ordered by `field_order` |
| `OnboardingRouter.FieldsByStepAgrees` | app/routers/onboarding.py:227-233 | for an id without a comma, this endpoint gives what `/onboarding_fields` gives with that `step_id`, `is_active=true` and its default order |
| `TableReader.NameOf` | app/main_new.py:98-115 | the registry name of each of the sixteen tables |
| `TableReader.RegistryNames` | app/main_new.py:98-115 | every table is registered under its name, and each registered name maps back to it: the registry is one-to-one |
| `TableReader.Holds` | app/main_new.py:129-135 | an `eq` condition holds when the cell equals the value; an `in` condition when the cell is non-NULL and among the values |
| `TableReader.HoldsWithNull` | app/main_new.py:129-135 | `== None` asks for a NULL cell (`IS NULL`); a NULL cell never satisfies `in_`, even with NULL among the values |
| `TableReader.TextCells` | app/main_new.py:131-132 | one text value per comma-separated piece of an `in` operand, in order |
| `TableReader.FilterOf` | app/main_new.py:124-135 | a filter key either adds a condition, adds nothing, or makes the request fail with a server error |
| `TableReader.FiltersOf` | app/main_new.py:124-135 | the conditions of all filter keys, or a server error |
| `TableReader.FilterOfIgnored` | app/main_new.py:125-135 | a key without `"__"`, on a column the table lacks, or with an operator other than `eq`/`in` adds nothing |
| `TableReader.FilterOfColumn` | app/main_new.py:125-135 | `column__eq` on a declared column adds an equality; `column__in` adds membership in the comma-split values, or in the given list |
| `TableReader.FilterOfDoubleSeparator` | app/main_new.py:126 | `a__b__c` splits into column `a` and operator `b__c`, which is ignored |
| `TableReader.FiltersOfIgnored` | app/main_new.py:124-135 | a filter that adds nothing leaves the list of conditions unchanged |
| `TableReader.FiltersOfIgnoredWithin` | app/main_new.py:124-135 | a filter that adds nothing, anywhere in the list, leaves the conditions as they are without it |
| `TableReader.FiltersOfFailure` | app/main_new.py:124-135 | once one filter fails, the request fails |
| `TableReader.FiltersOfColumns` | app/main_new.py:127 | every condition is on a declared column of the table |
| `TableReader.FiltersOfContains` | app/main_new.py:124-135 | the condition of every key that adds one is among the conditions the request runs with |
| `TableReader.FiltersOfFromKeys` | app/main_new.py:124-135 | every condition the request runs with is the condition of one of its keys |
| `TableReader.OrderingOf` | app/main_new.py:138-147 | an ordering is used only for a non-empty `order_by` whose part before the first `:` is a declared column, and that part holds no `:` |
| `TableReader.OrderingOfColumn` | app/main_new.py:138-147 | `column` sorts ascending; `column:d` and `column:d:rest` sort descending exactly when `d` is `desc` (only the second part is read); an undeclared column gives no ordering |
| `TableReader.Select` | app/main_new.py:121-150 | the query returns `limit` rows, or every matching row when fewer match |
| `TableReader.SelectMeaning` | app/main_new.py:121-153 | exactly min(`limit`, matching) rows, each a row of the table meeting every condition, none more often than stored, in the requested order, and all matching rows when they fit the limit |
| `TableReader.SelectKeepsFirst` | app/main_new.py:138-153 | under an ordering, every matching row the limit drops may come after every row it keeps |
| `TableReader.SelectUnfiltered` | app/main_new.py:121-153 | with no conditions, no ordering and room for all rows, the table comes back as stored |
| `TableReader.ProjectRow` | app/main_new.py:158-163 | a response row has exactly the declared columns as keys, each mapped to the rendered value |
| `TableReader.ProjectRows` | app/main_new.py:156-164 | one response row per result row, in order |
| `TableReader.List` | app/main_new.py:80-166 | the response as a value: 422, then 404, then a failing filter, otherwise the projection of the query's rows; `ListRows` and the lemmas after it state what it holds |
| `TableReader.Conditions` | app/main_new.py:124-135 | the filter loop computes the conditions of all filters, or the first failure |
| `TableReader.Project` | app/main_new.py:155-166 | the conversion loop computes the projection of every result row |
| `TableReader.ListRows` | app/main_new.py:80-166 | a limit outside [1, 1000] is refused first (the default is 100), then an unregistered table; otherwise exactly min(`limit`, matching) rows, each keyed by exactly the table's declared columns |
| `TableReader.UnknownTable` | app/main_new.py:117-118 | an unregistered table name gets a 404, whatever the filters and ordering |
| `TableReader.IgnoredFilterNoOp` | app/main_new.py:124-135 | a filter the endpoint ignores (e.g. on an undeclared column), wherever it sits among the filters, gives the same response as leaving it out |
| `TableReader.ResponseMeaning` | app/main_new.py:152-166 | each response row is the rendering of a table row that meets every condition |
| `TableReader.ResponseHolds` | app/main_new.py:121-164 | every condition the query runs with holds of the row behind each response row |
| `TableReader.ListOk` | app/main_new.py:80-166 | a successful response to a registered table is the projection of the query under the parsed filters, ordering and limit |
| `TableReader.ListEqFilter` | app/main_new.py:124-129 | with `column__eq=v` on a declared column, every response row holds the rendered `v` in that column, whatever the other filters |
| `TableReader.ListInFilter` | app/main_new.py:124-135 | with `column__in=a,b,…` on a declared column, every response row holds one of the comma-separated texts in that column |

## Left out

- Building SQL text and binding parameters are not modelled. Each query is modelled by its meaning: filter, sort, take and join. The injection risk of interpolating `order_by` into the text is not modelled.
- OnboardingService.StepOrder: only a bare column name, written exactly, is recognised. PostgreSQL also accepts inputs like `step_number DESC`, an upper-case name or an expression. The model treats these as unknown columns, so it reports an error where the database may succeed.
- OnboardingService.FieldOrder: as for `StepOrder`, only a bare column name is recognised. Ordering by the JSON columns `validation_rules` and `field_config` is treated as an unknown column. How the database orders such values is not modelled.
- Rendering service and router rows to dicts is not modelled: the `str()` of ids and `isoformat()` of timestamps. Those rows are returned as typed records.
- A response row is a map, so the order of its keys is not modelled. The program builds each dict in the table's column declaration order.
- TableReader.Render: the ISO text itself is left abstract. Only which values go through `isoformat()` is modelled. So the model keeps a rendered date apart from a text cell holding the same characters, which the program's response does not.
- Logging, and the `Session` lifecycle and commit/rollback, are not modelled. A database failure is the `fault` input, and the model gives the net effect: an unchanged table after a failure.
- `list_rows` relies on the database converting query-string values to column types; this conversion is not modelled. An `eq` condition compares the stored cell with the given value as it is. The model does not know which operands the database refuses: `InternalError` covers only a non-text `in` operand and a list `eq` operand.
- `hasattr(model, column)` is modelled as "column is declared in the table". Non-column attributes of a model class are not modelled.
- Collecting `**filters` from the query string is not modelled: `filters` is a sequence of pairs. So is parameter validation: a limit outside [1, 1000] is `InvalidLimit`, status 422.
- `OnboardingService.OnboardingService.GetStepsByRole` and `OnboardingRouter.GetOnboardingStepsByRole` require unique configuration ids `db.Valid()`, which the primary key guarantees. `OnboardingService.OnboardingService.SaveUserData` likewise requires unique answer ids and keys, which the primary key and the conflict target's unique index guarantee.
- The model assumes that `user_id`, `config_id`, `step_key` and `field_key` are NOT NULL text columns in the table definition, which is not part of this model. A missing or NULL key is then a failed, rolled-back save. Without that constraint the database would insert such a row every time, because a unique index treats NULLs as distinct and never reports the conflict.
- OnboardingService.ParseSubmission: refuses every key value that is not a JSON string. The database would cast a number or a boolean bound to a text key column to text and store the row (`"step_key": 1` stores `'1'`); the model reports `KeyNotText` instead. Likewise the value slots keep the request's JSON type, while the database casts them to the column's type (a `number_value` of `"4"` is stored as the number 4). The text form of cast values is not modelled.
- Row order without ORDER BY: `OnboardingService.OnboardingService.GetSteps`, `OnboardingService.OnboardingService.GetFields`, `OnboardingService.FieldsQueryRows`, `OnboardingRouter.GetOnboardingSteps`, `OnboardingRouter.GetOnboardingFields` and `TableReader.SelectUnfiltered` state storage order when no ORDER BY is sent. That order is the model's choice. PostgreSQL promises no order there, and LIMIT without ORDER BY may return any `limit` of the matching rows. The membership, permutation and count clauses beside these hold for every order the database may choose.
- Text order: `Sql.TextLe` compares by code point, as the "C" collation does. The source sets no collation, and under a locale collation such as `en_US.UTF-8` text sorts differently (`"a"` before `"B"`). So every "sorted by" claim on a text column assumes the "C" collation.
- Ids are modelled as text compared by equality. In the database `config_id`, `step_id` and `user_id` are UUID columns (the code wraps them in `str()` and mints them with `uuid.uuid4()`). A parameter the column's type rejects, such as `config_id=abc` or the empty piece of `step_id=a,`, is a database error, and the router answers 500; the model returns no rows instead. An upper-case or braced UUID matches its canonical form in the database but not in the model. So the "fails exactly on …" clauses of `OnboardingService.OnboardingService.GetSteps`, `OnboardingService.OnboardingService.GetFields`, `OnboardingRouter.GetOnboardingSteps` and `OnboardingRouter.GetOnboardingFields` hold only for ids in canonical UUID form, and `OnboardingRouter.StepIdSelectorSingle`'s unstripped id is compared as text.
- A read can also fail when the database fails for a reason outside the model: a lost connection, a missing table. The reads have no such input. So "fails exactly on …" covers only the failures the SQL text itself causes.
- Races between concurrent submissions are not modelled. One `SaveUserData` call is one atomic statement.
