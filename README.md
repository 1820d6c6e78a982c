# Krag framework core, modelled in Dafny

This project models the core of the Krag PHP web framework and proves properties of the
model. The framework ships two generations of most classes: the current ones under `src/`
and the earlier ones at the repository root. Both are modelled, each in its own module.

- **Dependency-injection container** (`Container` for `src/Injection.php` and
  `examples/legacy/LegacyInjection.php`; `EarlyContainer` for `Injection.php`).
  - It keeps a class-mapping table, a singleton store and an optional leader container.
  - It resolves constructor and method parameters one by one. It tries the container
    itself, then the caller's values (by position or by name), then a recursive `make` of
    the parameter's type, then the declared default, then a fallback.
  - Reflection is replaced by explicit tables: class name to constructor parameters, and
    callable to method parameters.
  - The recursive `make` is bounded by a `fuel` argument because the source has no cycle
    detection.
- **SQL text builders** (`Sql` for `src/SQL.php`, `EarlySql` for `SQL.php`).
  - Each builder appends to an append-only `query` string.
  - Two flags, `haveSelect` and `haveWhere`, decide between `SELECT `/nothing and
    ` WHERE `/` AND `.
  - Also modelled: `LIMIT` arithmetic and the `INSERT` statement text.
- **Identifier escapers and dialect tables** (`Database` for `src/DB.php`,
  `EarlyDatabase` for `DB.php`). These cover the DSN, the quote characters, the
  random-order function and the character filters.
- **Log levels** (`LogLevels` for `src/LogLevel.php`, `EarlyStructures` for
  `Structures.php`, `EarlyInterfaces` for `Interfaces.php`).
- **In-memory log** (`Logging` for `src/Log.php`, `EarlyLogging` for `Log.php`). It
  covers threshold filtering, storing or forwarding to a leader, and the order-preserving
  `filter`.
- **Routing** (`Routing` for `src/Routing.php` and `Routing.php`, `EarlyRouting` for the
  earlier `makeLink`). These are request paths to controller methods, and relative links.
- **Results and responses** (`Results` for `src/Result.php`, `EarlyResponse` for
  `Response.php`). A redirect merges data and headers with PHP's `array_merge`.
- **The earlier dispatcher** (`EarlyApp` for `App.php`). It covers controller
  registration, handler lookup, argument filling and the data handed to the view.
- **Template paths** (`Views` for `src/Views.php`, `TwigViews` for
  `examples/integrations/TwigViews.php`).

Three helper modules are shared by the others:

- `Php` models PHP arrays as ordered association lists, with `array_merge`, `array_is_list`
  and key lookup.
- `PhpStrings` holds the string functions the framework calls.
- `Selection` is the order-preserving filter behind both logs' `filter`.

Objects whose fields the source updates in place are classes with `modifies` clauses. The
container, the query builders, the logs, the result and the dispatcher are modelled this
way. The source's loops are methods with loop invariants, each proved against a
specification function.

## Model

| member | source | states |
|---|---|---|
| Container.MatchParamToValues | src/Injection.php:44-59 | a non-null value comes from the object's property of that name, from the list at that position (only when in range), or from the associative array under that name |
| Container.MatchParamToValuesFinds | src/Injection.php:44-59 | conversely, a value stored where the parameter is looked up is the one returned |
| Container.MatchByNameIgnoresPosition | src/Injection.php:50-57 | an associative array is read by name only: the position never changes the result |
| Container.LegacyArgument | examples/legacy/LegacyInjection.php:17-25 | the override never yields null, and a non-null parent result is returned unchanged |
| Container.LegacyScalars | examples/legacy/LegacyInjection.php:18-25 | for a null parent result: untyped or `string` gives `''`, `int` gives 0, `float` gives 0.0, `bool` gives false, any other type gives `''` |
| Container.Resolve | src/Injection.php:61-78 | the container itself wins, then the caller's value, then the built object; when all three are null, the declared default of an optional parameter or the fallback of a required one; the result is null exactly when all three are null and the parameter is required or its default is null (the base fallback returns null) |
| Container.PassArgumentsKeys | src/Injection.php:84-90 | every key of the passed arguments is the name of a declared parameter |
| Container.PassArgumentsGet | src/Injection.php:84-90 | with distinct parameter names, a parameter appears under its name exactly when it is required or resolved to non-null, holding its resolved value |
| Container.MappingKeysCases | src/Injection.php:102-121 | any bool flag adds the `…Interface` alias, false included; a falsy string adds none; a truthy string behaves like a bool |
| Container.MappedResolves | src/Injection.php:102-121 | after `setClassMapping` every assigned key maps to the target, every other key maps as before, and no other key is added |
| Container.KragMapping | src/Injection.php:22-30 | a framework class registered in the `Krag` namespace with its interface gets the short name, the namespaced name and the namespaced interface name |
| Container.DefaultMappingsLog | src/Injection.php:26-31 | after construction `Log` and `\Psr\Log\LoggerInterface` both map to `Krag\Log` |
| Container.NormaliseSingletons | src/Injection.php:18-21 | a list of class names becomes a table with exactly those names, each slot empty |
| Container.MapClassSingleHop | src/Injection.php:160 | mapping is one lookup: a class mapped to a target that is itself mapped elsewhere stops at the first target |
| Container.Injection.constructor | src/Injection.php:12-32 | no leader; the singleton table normalised; the mapping table with the nine framework classes and the PSR logger interface added |
| Container.Injection.SetInjection | src/Injection.php:39-42 | the given container becomes the leader; the leader chain stays acyclic |
| Container.Injection.SetSingleton | src/Injection.php:96-100 | the slot for the class holds the object (null empties it), no other slot changes, and the container is returned |
| Container.Injection.SetClassMapping | src/Injection.php:102-123 | the mapping table becomes the one `Mapped` describes, and the container is returned |
| Container.Injection.ArgumentForProperties | src/Injection.php:66-78 | a parameter typed as the container's own class, parent or interface gets the container; a legacy container never yields null; otherwise a value the caller provides is used |
| Container.Injection.MakeArgumentForParameter | src/Injection.php:66-78 | the argument is the resolver's choice given what `make` built; `make` of the parameter's type is tried exactly when neither self-reference nor a provided value fills the parameter and fuel is left, and then gives what `make` answers in the state the call started from; otherwise nothing is built; no singleton slot is added or removed |
| Container.Injection.MakeArgumentsForMethod | src/Injection.php:80-94 | each parameter is resolved in order as the resolver says; an object `make` gave for a parameter's type is a possible answer of `make` for that type (the container that maps the type to its own class, a slot, or a new object of the class the type maps to); the result is keyed by parameter name with optional nulls dropped |
| Container.Injection.PostMakeNew | src/Injection.php:136-139 | a class that owns a singleton slot keeps the new object there; otherwise nothing changes |
| Container.Injection.Make | src/Injection.php:150-176 | the result is the leader's non-null answer when there is one, down the chain; otherwise, with the class mapped once, the container for its own class with no values, a filled slot as it is, a new object of an existing class built from the arguments its builder resolved and stored in that builder's slot, or null; when nothing is built, no slot of any container in the chain changes |
| Container.Injection.MakeNew | src/Injection.php:142-148 | a new object of the class, whose constructor gets the arguments resolved for its parameters |
| Container.Injection.ExpectedPossible | src/Injection.php:150-176 | whatever the slots hold, `make` of a type with no values answers with a container of the chain that maps the type to its own class, the slot of one that does not, a new object of the existing class a container maps the type to, or nothing only when no container maps it to its own class or to an existing one |
| Container.Injection.CallMethod | src/Injection.php:178-196 | with a leader the whole call goes to the last container of the chain and this one changes nothing; the callable is the target or the `[target, method]` pair; it is invoked with the arguments that container resolves for its parameters, as `MakeArgumentsForMethod` states them; an unknown callable gives no result |
| Container.SingletonIdentity | src/Injection.php:136-168 | two `make` calls for a class that owns a singleton slot return the identical object |
| EarlyContainer.IsAssoc | Injection.php:8-15 | true exactly for a non-empty array whose keys are not `0 .. count - 1` in order |
| EarlyContainer.MatchParamToArguments | Injection.php:17-37 | nothing from an empty array; an associative array is read by name, a list by position when in range |
| EarlyContainer.MatchParamToArgumentsFinds | Injection.php:21-34 | conversely, a value stored where the parameter is looked up is found |
| EarlyContainer.AssocIgnoresPosition | Injection.php:21-27 | an associative array is never read by position |
| EarlyContainer.Injection.MakeArgumentsForMethod | Injection.php:39-55 | a list with one entry per parameter, in order: the provided value where there is one, else a new object of the parameter's type when that type is an existing class and fuel is left, else null |
| EarlyContainer.Injection.Make | Injection.php:57-67 | an object exactly for a known class: a new object of that class whose constructor gets the arguments `makeArgumentsForMethod` describes; null for an unknown class |
| EarlyContainer.Injection.CallMethodWithInjection | Injection.php:69-83 | an unknown callable gives no result; otherwise the callable is invoked with the arguments `makeArgumentsForMethod` describes: provided values in their places, new objects of existing parameter types elsewhere, null for the rest |
| Database.MakeDSN | src/DB.php:25-31 | the DSN is the type and a colon, then `host=` and `dbname=` each only when truthy, with no separator between them |
| Database.MakeDSNSegments | src/DB.php:25-31 | a falsy host and a `"0"` database leave only `type:`; both segments are glued together |
| Database.NoSpecialsWords | src/DB.php:137-140 | what survives contains only `[A-Za-z0-9_]` and is no longer than the input |
| Database.NoSpecialsIdempotent | src/DB.php:137-140 | stripping twice is stripping once |
| Database.NoSpecialsAppend | src/DB.php:137-140 | stripping distributes over concatenation, so word characters keep their order |
| Database.NoSpecialsCounts | src/DB.php:137-140 | every word character is kept as often as it occurs, every other character is removed |
| Database.NoSpecialsWordString | src/DB.php:137-140 | a name made of word characters passes unchanged |
| Database.DB.constructor | src/DB.php:12-23 | the DSN is `makeDSN` of the arguments, and the dialect fields are those `setDatabaseParameters` sets for the type |
| Database.DB.SetDatabaseParameters | src/DB.php:33-53 | mysql uses backticks and `RAND()`, sqlsrv brackets and `RAND()`, pgsql and every other type double quotes and `RANDOM()` |
| Database.DB.TableEscapeShape | src/DB.php:142-147 | an escaped table is the left quote, the stripped name (word characters only) and the right quote |
| Database.DB.TableEscapeIdempotent | src/DB.php:142-147 | escaping an escaped table name changes nothing |
| Database.DB.EscapeStripsEnds | src/DB.php:129-135 | the escaped value is the driver's quoted literal without its first and last character |
| Database.DB.ColumnEscapeAsWritten | src/DB.php:152-162 | a qualified column as written: the column's left quote, then the escaped table and a dot, then the stripped name and the right quote; otherwise as `ColumnEscape` |
| Database.DB.ColumnEscapeNestsQuotes | src/DB.php:159-161 | as written, the table's quotes sit inside the column's: two left quotes open the result |
| Database.DB.ColumnEscape | src/DB.php:152-162 | a single unqualified name is escaped like a table name |
| Database.DB.QualifiedColumnParts | src/DB.php:152-162 | a qualified column splits at its one dot into the escaped table and the escaped column |
| Database.DB.EscapeEach | src/DB.php:156-158 | each name of a list is escaped on its own, in order |
| Database.DB.ColumnListCommas | src/DB.php:156-158 | a list ignores the table, and `n` names give exactly `n - 1` commas |
| Database.DB.AliasEscapeWords | src/DB.php:164-167 | an alias keeps only word characters, unquoted, and one made of them is left as it is |
| EarlyDatabase.LineOf | DB.php:20 | the text before the first line break, which is where `.` stops matching |
| EarlyDatabase.BeforeLast | DB.php:20 | the text before the last occurrence of the character |
| EarlyDatabase.DbType | DB.php:20-24 | a type exactly when the DSN has a colon; on one line it is the text before the last colon |
| EarlyDatabase.DbTypeGreedy | DB.php:20-24 | the match is greedy: `pgsql:host=::1` gives the type `pgsql:host=:` |
| EarlyDatabase.QuoteChar | DB.php:25-40 | `"` exactly for pgsql and sqlsrv, a backtick for every other type |
| EarlyDatabase.RandomFunc | DB.php:25-40 | `RANDOM()` exactly for pgsql, `RAND()` otherwise |
| EarlyDatabase.DB.constructor | DB.php:13-41 | the type parsed out of the DSN picks the quote character and the random function |
| EarlyDatabase.TableEscape | DB.php:142-145 | the result holds none of the backtick, double quote, single quote or bar, and a name without them passes unchanged |
| EarlyDatabase.NothingToStrip | DB.php:142-145 | a name without the stripped characters is not changed |
| EarlyDatabase.TableEscapeCounts | DB.php:142-145 | every other character survives as often as it occurs |
| EarlyDatabase.TableEscapeAppend | DB.php:142-145 | stripping distributes over concatenation, so the order is kept |
| EarlyDatabase.TableEscapeIdempotent | DB.php:142-145 | stripping twice is stripping once |
| EarlyDatabase.ColumnEscape | DB.php:133-140 | a column name is stripped exactly as a table name |
| Sql.NonEmptyFrom | src/SQL.php:43 | `array_diff` keeps the non-empty pieces under their original positions |
| Sql.SplitByCommaAsWritten | src/SQL.php:41-44 | each entry is a trimmed, non-empty piece under the key of its position |
| Sql.SplitByCommaLeavesGaps | src/SQL.php:43-56 | `x,,y` gives keys 0 and 2, which is not a list |
| Sql.SplitByComma | src/SQL.php:41-44 | the same pieces as a list; none is empty, none holds a comma, each is trimmed |
| Sql.SplitByCommaPieces | src/SQL.php:43 | every piece is non-empty, free of commas and already trimmed |
| Sql.LimitArgumentsAsWritten | src/SQL.php:243-246 | as written the page size and the page are the same value |
| Sql.LimitIgnoresPerPage | src/SQL.php:243-246 | ten per page on page three fetches three rows from offset six |
| Sql.LimitArguments | src/SQL.php:243-246 | the page size is the `per_page` value, and the page defaults to 1 |
| Sql.SQL.constructor | src/SQL.php:8-14 | an empty query with neither flag set |
| Sql.SQL.FieldValueShape | src/SQL.php:18-27 | a condition starts with the escaped table and a dot exactly when the table is truthy, and ends with the quoted value |
| Sql.SQL.FieldsValues | src/SQL.php:29-39 | the conditions joined by `', '`; the operator is not passed on |
| Sql.SQL.SelectColumns | src/SQL.php:56-66 | no columns give `* `; a list of columns is their escaped list and a space, never qualified by the table |
| Sql.SQL.FieldArray | src/SQL.php:55 | a string becomes the list of its comma-separated pieces; an array is kept |
| Sql.SQL.AliasedList | src/SQL.php:60-65 | the loop yields the aliased columns joined by `', '` |
| Sql.SQL.Select | src/SQL.php:48-69 | `SELECT ` is written only while the flag is unset, then the flag is set and the columns appended; the old query is a prefix |
| Sql.SQL.CountTargetAsWritten | src/SQL.php:71-78 | with no field and no table the target is `*` |
| Sql.SQL.CountTargetMisplacesDot | src/SQL.php:74-76 | as written, with a table the target starts with a dot and runs the quoted table into the quoted field |
| Sql.SQL.CountTargetQualifies | src/SQL.php:71-78 | the intended target is the column qualified by the table as `columnEscape` does it, or `*` after the table and a dot |
| Sql.SQL.Count | src/SQL.php:71-78 | ` COUNT(...) ` and any alias are appended |
| Sql.SQL.From | src/SQL.php:80-92 | the flag is set but no `SELECT ` is written; ` FROM `, the escaped table and any alias are appended |
| Sql.SQL.Qualify | src/SQL.php:94-128 | each join keyword is appended between spaces |
| Sql.SQL.Join | src/SQL.php:130-136 | ` JOIN `, the escaped table and any alias are appended |
| Sql.SQL.Where | src/SQL.php:138-152 | no conditions leave query and flag unchanged; otherwise ` WHERE (` the first time and ` AND (` later, then the conditions |
| Sql.SQL.Comparison | src/SQL.php:154-177 | the single condition every comparison writes, with `=` |
| Sql.SQL.Eq | src/SQL.php:154-157 | one condition is appended after ` WHERE ` or ` AND ` |
| Sql.SQL.Lt | src/SQL.php:159-162 | `<` is asked for, `=` is written |
| Sql.SQL.Lte | src/SQL.php:164-167 | `<=` is asked for, `=` is written |
| Sql.SQL.Gt | src/SQL.php:169-172 | `>` is asked for, `=` is written |
| Sql.SQL.Gte | src/SQL.php:174-177 | `>=` is asked for, `=` is written |
| Sql.SQL.Group | src/SQL.php:179-185 | ` GROUP BY ` and the escaped columns; one name counts as a list of one |
| Sql.SQL.OrderPartDirection | src/SQL.php:187-191 | the escaped column comes first, and ` DESC` follows exactly when the direction is truthy |
| Sql.SQL.Order | src/SQL.php:193-211 | ` ORDER BY ` and the first sort column are appended |
| Sql.SQL.Random | src/SQL.php:213-217 | the dialect's random function is appended between spaces |
| Sql.SQL.Limit | src/SQL.php:219-226 | ` LIMIT ` with offset `perPage * (page - 1)` and count `perPage` is appended |
| Sql.SQL.OrderLimit | src/SQL.php:228-249 | a sort only when `sort` is given, then a limit only when `per_page` is given |
| Sql.SQL.EscapeValues | src/SQL.php:315 | each value is escaped, in order |
| Sql.SQL.JoinTuples | src/SQL.php:309-316 | the loop yields the tuples joined by `', '` |
| Sql.SQL.InsertQuery | src/SQL.php:302-321 | no statement for no records; a flat record counts as one; otherwise the table, the first record's columns and one tuple per record |
| EarlySql.AsArray | SQL.php:91 | a string field becomes a one-element list |
| EarlySql.FieldValueShape | SQL.php:16-26 | a condition names the stripped table first exactly when the table is truthy, then the stripped column, the operator and the quoted value |
| EarlySql.SelectColumns | SQL.php:92-95 | no fields add no column text; otherwise the columns end with a space |
| EarlySql.AliasSuffix | SQL.php:127 | ` AS alias` only when an alias is given |
| EarlySql.OrderPartDirection | SQL.php:231-235 | the stripped column comes first, and ` DESC` follows exactly when the direction is truthy |
| EarlySql.LimitOffsets | SQL.php:260-267 | page 1 starts at offset 0 and page 2 one page further on |
| EarlySql.TupleShape | SQL.php:61 | a tuple opens with `('` and closes with `')` |
| EarlySql.InsertStatementSingle | SQL.php:50-64 | the statement starts with `INSERT INTO` and the stripped table, and one record gives one tuple |
| EarlySql.SQL.constructor | SQL.php:8-12 | an empty query with neither flag set |
| EarlySql.SQL.FieldsValues | SQL.php:28-42 | the conditions joined by `', '`; the operator is not passed on |
| EarlySql.SQL.InsertSQL | SQL.php:50-64 | the head, then the records' tuples separated by `', '` |
| EarlySql.SQL.Insert | SQL.php:317-325 | no statement for no records, otherwise the `insertSQL` statement |
| EarlySql.SQL.Select | SQL.php:84-98 | `SELECT ` is written only on the first select, then the columns |
| EarlySql.SQL.AliasedList | SQL.php:111-118 | the loop yields the aliased columns joined by `', '` |
| EarlySql.SQL.SelectAliased | SQL.php:100-122 | `SELECT ` is written only on the first select, then the aliased columns |
| EarlySql.SQL.From | SQL.php:124-130 | ` FROM `, the stripped table and any alias are appended |
| EarlySql.SQL.Join | SQL.php:168-174 | ` JOIN `, the stripped table and any alias are appended |
| EarlySql.SQL.Where | SQL.php:176-196 | no conditions leave query and flag unchanged; otherwise ` WHERE ` the first time and ` AND ` later |
| EarlySql.SQL.Order | SQL.php:237-258 | ` ORDER BY ` and the first sort column are appended |
| EarlySql.SQL.Limit | SQL.php:260-267 | ` LIMIT ` with offset `perPage * (page - 1)` and count `perPage` is appended |
| Routing.MethodForRequest | src/Routing.php:10-25 | `/` is the index; three or more `/`-separated parts give parts 1 and 2; anything else gives nothing |
| Routing.MethodForRequestParts | src/Routing.php:18-23 | `/controller/method` followed by any further segments routes to that controller and method |
| Routing.CommonPrefix | src/Routing.php:31-35 | the length of the longest common leading run of the current segments and the target |
| Routing.CommonPrefixUnique | src/Routing.php:31-35 | the common run is the only one followed by a difference or an end |
| Routing.MakeLink | src/Routing.php:27-40 | the loop strips the common run, then writes one `../` per leftover current segment, the leftover target joined by `/` with a trailing `/`, and `?query` only for non-empty data |
| Routing.RootSegments | src/Routing.php:29 | the root path has a single, empty segment |
| Routing.LinkFromRoot | src/Routing.php:29-38 | from `/` a non-empty class name gives one leading `../` |
| EarlyRouting.MakeLinkUp | Routing.php:25-32 | the link starts with one `../` per separator inside the trimmed current path, or with `/` when there is none |
| EarlyRouting.MakeLinkFromRoot | Routing.php:25-32 | from `/` the link is `/class/method`, with no trailing slash, and `?query` only for non-empty data |
| EarlyRouting.TrimTwoLevels | Routing.php:27 | trimming `/a/b/` leaves `a/b` |
| EarlyRouting.MakeLinkTwoLevels | Routing.php:25-32 | from `/a/b/` exactly one level is climbed |
| LogLevels.FromStringToString | src/LogLevel.php:17-46 | reading back a level's name gives the level |
| LogLevels.ToStringInjective | src/LogLevel.php:33-46 | two levels with the same name are the same level |
| LogLevels.ToStringIsName | src/LogLevel.php:33-46 | every name is one of the nine |
| LogLevels.FromStringUnknown | src/LogLevel.php:29 | an unknown name is read as DEBUG |
| LogLevels.ValueMonotone | src/LogLevel.php:7-15 | the values strictly increase in declaration order, from TRACE to EMERGENCY |
| LogLevels.ToPSRLevels | src/LogLevel.php:48-61 | TRACE reports as PSR debug, every other level as the PSR level of its own name |
| EarlyStructures.FromString | Structures.php:18-32 | a level exactly for the nine names; any other name fails |
| EarlyStructures.FromStringToString | Structures.php:18-48 | reading back a level's name gives the level |
| EarlyStructures.ValueMonotone | Structures.php:8-16 | the values strictly increase in declaration order |
| EarlyStructures.TraceReportsAsDebug | Structures.php:54-55 | TRACE and DEBUG report as the same PSR level |
| EarlyStructures.NewLogEntry | Structures.php:73-82 | the given time when there is one, otherwise the current time; the other fields as given |
| EarlyStructures.NewResponse | Structures.php:98-107 | only data, code and headers are kept |
| EarlyStructures.ResponseDropsRedirect | Structures.php:104-105 | the redirect flag and method given to the constructor leave no trace |
| EarlyInterfaces.ValueMonotone | Interfaces.php:7-12 | the values strictly increase from TRACE (10) to FATAL (60) |
| EarlyInterfaces.ToStringInjective | Interfaces.php:14-25 | the six names are distinct |
| EarlyInterfaces.ToStringNames | Interfaces.php:22-23 | WARN is `warn` and FATAL is `fatal` |
| EarlyInterfaces.NewResponseInfo | Interfaces.php:28-37 | only data, code and headers are kept |
| Logging.Resolve | src/Log.php:28 | a level given by name is read with `fromString`, so an unknown name is DEBUG |
| Logging.Log.constructor | src/Log.php:11-14 | no records, no leader |
| Logging.Log.SetLogger | src/Log.php:16-19 | the leader is the given logger |
| Logging.Log.Log | src/Log.php:26-49 | below the minimum level nothing happens; with no leader one record is appended at the end; a framework leader gets the `toString` name with the component, any other leader the PSR name; the component is the argument or the log's own |
| Logging.Log.LogAt | src/Log.php:66-109 | each shorthand is `log` at its level: dropped below the minimum; with no leader the record of that level, message, data, component (the argument or the log's own) and time is appended; a framework leader gets the level's name with message, data and component; any other leader the PSR name with message and data |
| Logging.Log.Filter | src/Log.php:51-64 | the loop returns the records that meet the level and component, in order |
| Logging.MatchingExactly | src/Log.php:51-64 | a record is listed exactly when it is stored and meets the level and component, and the listing keeps the order |
| Logging.DefaultFilterHidesTrace | src/Log.php:51 | the default threshold lists every record but the TRACE ones |
| Logging.FilterTraceListsAll | src/Log.php:56-57 | at TRACE with a falsy component every record is listed |
| Logging.FilterIdempotent | src/Log.php:51-64 | filtering the filtered records again changes nothing |
| Logging.StoredRecordListed | src/Log.php:44-64 | a record `log` stores shows up at the end of every filter it meets |
| EarlyLogging.Log.constructor | Log.php:10-15 | no records; component, level and leader as given |
| EarlyLogging.Log.MakeFollower | Log.php:22-35 | a log without a leader builds a fresh follower of the component at its own level, reporting to it |
| EarlyLogging.Log.Log | Log.php:37-53 | an unknown level name fails; below the minimum nothing happens; with no leader one record is appended; with a leader it is forwarded under the `toString` name |
| EarlyLogging.Log.LogAt | Log.php:70-113 | each shorthand is `log` at its level: dropped below the minimum; with no leader the record of that level, message, data, component (the argument or the log's own) and time is appended; with a leader it is forwarded under the level's name with message, data and component |
| EarlyLogging.Log.Filter | Log.php:55-68 | the loop returns the records that meet the level and component, in order |
| EarlyLogging.DefaultFilterListsAll | Log.php:55-61 | the default arguments list every record, in order |
| EarlyLogging.ComponentFilter | Log.php:60-62 | a component filter lists exactly that component's records at or above the level, in order |
| Results.KeptCode | src/Result.php:28-30 | a non-null, non-zero code replaces the current one; null or 0 keeps it |
| Results.KeptCodeLastGiven | src/Result.php:28-30 | after several redirects the code is the last non-zero one given, or the original when there is none |
| Results.Result.constructor | src/Result.php:14-16 | data, code and headers as given; no redirect |
| Results.Result.Redirect | src/Result.php:22-32 | the result is a redirect to the target; data and headers are `array_merge`d; the code is kept unless a truthy one is given; the same object is returned |
| Results.Result.GetResponseAsWritten | src/Result.php:8-37 | as written, a response exists exactly when the redirect target was ever set |
| Results.Result.GetResponse | src/Result.php:34-37 | the response copies data, code, headers and the redirect flag and target |
| Results.PlainResultHasNoResponse | src/Result.php:8-36 | as written, a freshly constructed result yields no response; corrected, it yields one that is no redirect |
| EarlyResponse.Response.constructor | Response.php:8-11 | data, code and headers as given; not a redirect |
| EarlyResponse.Response.Redirect | Response.php:13-23 | the response is a redirect to the target; data and headers are `array_merge`d; the code changes only for a truthy one |
| Php.MergeStringKey | src/Result.php:26-27 | `array_merge` is right-biased on string keys |
| Php.MergeIntValues | src/Result.php:26-27 | `array_merge` appends the integer-keyed values of the right array to those of the left |
| EarlyApp.MethodMapKeys | App.php:18-39 | the method map has exactly the visible method names as keys |
| EarlyApp.MethodMapParams | App.php:28-35 | a hidden method is absent; a visible one maps to its parameter names |
| EarlyApp.FirstWith | App.php:92-98 | the first controller in registration order whose method map has the action, or none |
| EarlyApp.RequestedAction | App.php:91 | the request's `action`, or `index` without one |
| EarlyApp.FirstControllerHandles | App.php:92-98 | the first controller with the action handles it, with that method's parameter names |
| EarlyApp.UnmatchedFallsBack | App.php:99-100 | an unmatched action goes to the App's own `index` for `index` and to `notFound` otherwise, with no arguments |
| EarlyApp.HiddenNeverDispatched | App.php:18-101 | a hidden method is never dispatched to a controller |
| EarlyApp.Argument | App.php:108 | the request's entry of that name, or `''` |
| EarlyApp.FetchedEntries | App.php:115-120 | one entry per fetcher name, in order, each the fetcher's result |
| EarlyApp.App.constructor | App.php:8-16 | no controllers, no method maps, the given fetchers |
| EarlyApp.App.MapMethods | App.php:22-39 | the loop builds the map of visible methods to their parameter names |
| EarlyApp.App.RegisterController | App.php:59-67 | under the given name, or the class name when it is falsy; a name registered before is replaced in place |
| EarlyApp.App.AddGlobalFetcher | App.php:123-126 | the fetcher is stored under its name, replacing any earlier one |
| EarlyApp.App.FindHandler | App.php:89-101 | the loop picks the handler `HandlerFor` describes |
| EarlyApp.App.CallHandler | App.php:103-111 | the method is invoked with the arguments `Pass` describes |
| EarlyApp.App.ProcessGlobalFetchers | App.php:113-121 | the loop yields each fetcher's result under its name |
| EarlyApp.App.Run | App.php:128-140 | the view gets the handler's controller and method names and the fetched data merged with the method's data, the method's winning |
| Views.TemplateFileParts | src/Views.php:11-15 | the path splits into the template path's levels, the controller with no backslash left, and the method with `.html.php` at the end |
| Views.TemplateFileInjective | src/Views.php:11-15 | two actions share a template exactly when their methods agree and their controllers agree after backslashes become `_` |
| TwigViews.MethodDataWins | examples/integrations/TwigViews.php:45-49 | in `render` a name the method sets hides the global one; every other global value is kept |

## Left out

- Reflection and dynamic calls (`ReflectionClass`, `ReflectionMethod`, `class_exists`,
  `newInstanceArgs`, `call_user_func_array`, `get_class_methods`): they are replaced by
  class and method tables and by an `invoke` function parameter.
- The logger wiring of `postMakeNew` (src/Injection.php:127-135): only the singleton
  write-back is modelled.
- The `WeakMap` fields, the undefined `$i`, `$withValues` and `$rMethod`, and the undefined
  `$ret` of the current container. Position and values are parameters, using the signature of
  examples/legacy/LegacyInjection.php:11-16, and `setClassMapping` returns the container.
- Container.Resolve: models the intended order of src/Injection.php:69-76. As written,
  line 72 parses as `($arg ?? isOptional()) ? default : null`, which replaces a found
  argument by the default or null.
- Container.Injection.Make: the recursive `make` is bounded by `fuel`. With no fuel left a
  parameter's type is not built. Cyclic class graphs, which never terminate in the source,
  are not modelled.
- Container.Injection.CallMethod: a callable missing from the method table gives no result
  (`None`). In the source, `new \ReflectionMethod(...)` at src/Injection.php:186 and :191
  throws a `ReflectionException` instead.
- Loose `==` comparisons (`$class == static::class`, `$withValues == []`) are modelled as
  equality of the modelled values.
- Container.Injection.MakeArgumentsForMethod: the answer of each recursive `make` after the
  first comes from a state the contract does not name, so it is stated as a possible answer:
  an object taken from a slot is known only to come from the slot of a container that does
  not map the type to its own class.
- Container.Injection.SetInjection: requires the new leader's chain not to contain this
  container. The source accepts a cyclic chain, on which `make` and `callMethod` recurse
  without end.
- Container.Injection.MakeNew and EarlyContainer.Injection.Make: a class without a
  constructor is built with no arguments. In the source `getConstructor()` gives null, and
  passing it to `makeArgumentsForMethod` raises a `TypeError` (src/Injection.php:145-146,
  Injection.php:62-63).
- Injection.php:49 reads the undefined `$param`. The model uses the parameter in hand.
- All PDO input and output: connections, `query`, the fetch methods, transactions,
  `setBlob` and `updateBlob`, `insertId`, `affectedRows`. The result readers of both query
  builders are also left out.
- The execute halves of `update`, `delete`, `replace` and `setBlob`. `transactionForLines`
  and `deleteSQL` are left out too.
- `PDO::quote` is a function parameter, `quote`.
- DB.php:130 reads the undefined `$str`; `escape` is modelled on its argument.
- DB.php:19 opens the PDO connection before parsing the DSN, and PDO refuses a DSN
  without a colon. So EarlyDatabase.DB.constructor requires a colon.
- Sql.SQL.Order and EarlySql.SQL.Order: only the first sort column is modelled. The extra
  `sortN`/`orderN` columns sorted by `ksort` are not.
- Sql.SQL.OrderLimit: takes the page size from `per_page`, the corrected `LimitArguments`.
  src/SQL.php:245 reads `page` instead, as `LimitArgumentsAsWritten` and the Findings show.
  The extra sort columns it filters out are not modelled.
- Sql.SQL.Count: appends the corrected target, the column qualified by the table and a dot.
  src/SQL.php:74-76 writes a dot before the table and none after it, as
  `CountTargetAsWritten` and the Findings show.
- Sql.SQL.SelectColumns: qualifies each aliased column with the corrected
  `Database.DB.ColumnEscape`. With a table, src/SQL.php:63 nests the table's quotes inside
  the column's, as `ColumnEscapeAsWritten` and the Findings show.
- Sql.SQL.AliasedList: uses the same corrected column escaper as `SelectColumns`.
- Sql.SQL.FieldArray: splits a string with the corrected `SplitByComma`, which always gives
  a list. src/SQL.php:43 keeps the positions of the pieces left after empty ones are removed,
  so `'a,,b'` is no list, as `SplitByCommaAsWritten` and the Findings show.
- Sql.SQL.Select: inherits the three corrections above. So `select('a,,b')` writes the
  columns `a` and `b`, and an aliased select with a table writes the qualified columns
  unnested.
- DB.php:128 and :137 return the array from `array_map` out of a method declared `: string`,
  which raises a `TypeError`. EarlyDatabase.DB.EscapeEach and EarlyDatabase.ColumnEscapeEach
  model the repaired path that returns the escaped list. EarlySql.SQL.Select and
  EarlySql.SQL.InsertSQL use that repaired path.
- DB.php defines no `aliasEscape`, which `from`, `join` and `selectAliased` of SQL.php call.
  EarlySql.SQL takes the alias escaper as a given function, `aliasEscape`.
- SQL.php:191 applies `implode` to a string. EarlySql.SQL.Where writes the conditions,
  joined by `', '`, between ` (` and `) `.
- SQL.php:88 and :104 append to an undefined `$ret`. The model starts from the empty string.
- Builder methods return the builder (`$this`) for chaining; the methods here return
  nothing.
- `http_build_query`, `time()` and `DIRECTORY_SEPARATOR` are parameters: `query`, `now` and
  `sep`.
- `parse_url` is assumed to give the path, which `MethodForRequest` takes directly.
- Routing.MethodForRequest: the declared `?callable` return type is not checked. In the
  source, returning `'index'` or a `[controller, method]` pair that is not callable raises a
  `TypeError` (src/Routing.php:10, Routing.php:8). The model returns the name or the pair.
- Routing.MakeLink: segments are compared as strings. The loose `==` of src/Routing.php:31
  also treats numeric strings such as `"1"` and `"01"` as equal.
- PHP integers are 64-bit; the model's integers are unbounded, so `LIMIT` arithmetic
  overflow is not modelled.
- Numeric-string array keys (which PHP turns into integers) are not modelled; keys are
  modelled as either integers or strings.
- A `Stringable` message is modelled as the string it converts to.
- `getIterator` of both logs is not modelled. It only wraps the records in an iterator.
- EarlyLogging.Log.MakeFollower: models the intended argument order. Log.php:26 passes
  `$this` as the level and the level as the leader, which fails with a `TypeError`. A log
  with a leader hands the work to its container's `make`, and that case gives no follower
  here.
- A framework logger leader is modelled by what is called on it (`Forwarded`), not by
  running its own `log`.
- `registerControllers` (App.php:75-87) reads a directory and `require`s files; it is
  left out. `preFlight` and `cleanup` do nothing; they are left out too.
- Views rendering (`extract`, `include`, the Twig engine and `print`) is left out. Only the
  template paths and the data merge are modelled.
- Request values in `EarlyApp` are strings.

## Findings

| source | as written | input that shows it | evidently intended | confidence | as-written member | corrected member |
|---|---|---|---|---|---|---|
| src/DB.php:159-161 | a qualified column puts the escaped table and its dot inside the column's own quotes | `columnEscape('id', 'users')` on MySQL gives ``` ``users`.id` ``` | `` `users`.`id` `` | high, not executed | Database.DB.ColumnEscapeNestsQuotes | Database.DB.QualifiedColumnParts |
| src/SQL.php:74-76 | `count` puts a dot before the table and none between table and field | `count('id', 'users')` writes ``` COUNT(.`users``id`) ``` | ``` COUNT(`users`.`id`) ``` | high, not executed | Sql.SQL.CountTargetMisplacesDot | Sql.SQL.CountTargetQualifies |
| src/SQL.php:243-246 | `orderLimit` reads the page size from `page` | `['per_page' => 10, 'page' => 3]` limits to 3 rows from offset 6 | 10 rows from offset 20 | high, not executed | Sql.LimitIgnoresPerPage | Sql.LimitArguments |
| src/SQL.php:43-56 | `array_diff` keeps the original keys, so an empty piece leaves a gap and `select` takes the aliased branch | `select('a,,b')` sees `[0 => 'a', 2 => 'b']`, which is not a list | the list `['a', 'b']` | high, not executed | Sql.SplitByCommaLeavesGaps | Sql.SplitByComma |
| src/Result.php:8-36 | `redirectMethod` is a typed property with no default, so reading it before `redirect` fails | `(new Result())->getResponse()` | a response with no redirect target | high, not executed | Results.PlainResultHasNoResponse | Results.Result.GetResponse |
