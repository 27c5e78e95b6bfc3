# Verified model of the gateway's account persistence and audit gate

The repository keeps its upstream accounts in SQL tables behind a generated `ent` layer, and gates
releases on a dependency audit. This project models the three places where that code does more than
forward a call, and proves what they promise.

**Eager loading** (`backend/ent/account_query.go`, `accountgroup_query.go`, `account.go`). A query is a
builder with a tree of `With*` sub-builders. Running it issues at most one statement per vertex: the
rows of each batched statement are handed back to the nodes they belong to through hash maps. `Driver`
stands for the database: a query returns the rows of one table that satisfy its predicates, in any order,
or fails. Everything else is modelled as the code has it: builders and entities are classes with the same
fields, the loaders fill the same maps and append to the same edge lists. `Relational` holds the meaning to
be met, one lookup per row and edge (`NaiveAccount`). The main results are `AccountQuery.All` with
`LoadedGraphIsNaive` (what is reachable along the real edge fields is exactly the naive graph; every
"unexpected node" and "unexpected foreign-key" error is unreachable; only a failed statement or a field
list that names no column can make it fail), and, on top of it: the two routes to groups, the converse of
parent and children, exactly one entry per matching row in every to-many list (`OneEntryPerRow`), edges that
do not depend on the selected columns (`SelectionKeepsLoadedEdges`), the exact number of statements
(`Statements`), order and partition of lists, and what a LIMIT on a sub-query does to loaded nodes
(`LimitedLogs`).

The naive graph and the loaders share the functions that project rows to selected columns and decide predicates.
So `All` also promises something that names none of them: `Mirrors` says of a loaded object, and of all objects
behind it, which rows of the tables its edges lead to, one object per row, and which columns each object holds,
with the values of its row; `Columns` says what a selection keeps, and that the default selection is the table
as the migration declares it.

To connect heap and meaning, every account object carries a ghost `view`, the graph it is to stand for, fixed
when its row is scanned. `Settled` ties the real fields to it one edge deep, `Complete` says so for a set
of objects that edges do not leave, and `Read` shows that nothing else is meant: it follows the real fields.
Only join rows, which have no id that is always selected, are told apart by a ghost `origin`, the row they
were scanned from.

**Creating accounts** (`backend/ent/account_create.go`). `Creation` has the default values and checks in
source order; `BulkCreate` has `AccountCreateBulk.Save`: hooks wrapped around steps that call the next
builder's hooks, the one batch insert, and the results recorded on the way back. The imperative `Save` is
proved equal to a function of the builders' contents (`BulkCreate.Mutate`), about which the theorems are:
those for hooks that call on once and pass errors on in `BulkCreate`, those for hooks that may skip, repeat
or swallow in `HookOutcomes`. `TableChecks` ties defaults and checks to the table's NOT NULL columns, sizes, enums
and default values, as the migration declares them. `Upsert` has the ordered list of conflict options and what it
does to each column.

**The audit gate** (`tools/check_pnpm_audit_exceptions.py`). `Texts` has Python's strip and line splitting and what
they mean, `ExceptionFile` the line parser with its round trip, `AuditReport` the flattening of a report into
tuples, `AuditGate` the loops of `main` against an if-and-only-if specification that mentions no index, no `seen`
set and no order of exceptions. `AuditPolicy` says the same once more of the texts as they stand, without keys or
normal forms (`Accepts`); the exit code is proved to meet both.

## Where the code differs from what is said of it

- No error from bulk `Save` does not mean that the rows are there, nor an error that they are not. For hooks
  that fail, skip, repeat or swallow, and any answers of the database, `AnyHooks` gives the exact conditions:
  no error if nothing fails, or if some hook skips what it wraps or swallows its error and nothing outside it
  fails; a batch if every hook calls on and every check passes; as many as the calls multiply to when nothing
  fails, so one exactly when every hook calls on once. `SuccessWithoutInsert` and `DoneWithoutInsert` say
  exactly when success, or a mutation marked done, comes without an accepted insert; `SkippingHook`,
  `SwallowingHook`, `RepeatingHook` and `LateFailure` are the four ways in which a single hook brings such a
  thing about.
- A batch that is sent again is a copy of the first as long as no hook of a builder after the first calls on
  twice (`NoIDsSent`); otherwise it can carry the ids that came back before (`IDsSentAgain`).
- `UpdateNewValues` is documented as equivalent to `OnConflict(ResolveWithNewValues())`. It keeps
  `created_at`; the two agree on every other column, and on `created_at` exactly when it is not among the
  inserted columns or a `DoNothing` came before (`DocumentedEquivalence`). Defaults puts it there, so for no
  row that bulk `Save` can insert are they equivalent, unless nothing is to be done
  (`EquivalenceFailsOnSavedRows`).
- The upsert builder has no setter for `created_at`, but `Update` takes any function on the update set.
  `created_at` moves exactly when no `DoNothing` is among the options and calls, and such a function moves it
  and no later call protects or sets it, or the options given to `OnConflict` do and no call does either
  (`CreatedAtMoves`); `Update` moves it even without options and after `UpdateNewValues`
  (`UpdateMovesCreatedAt`).
- The gate compares an exception's severity only with the first tuple of its key. So some order of the tuples
  changes the exit code exactly when the exceptions are sound, every key has a tuple that fits its exception,
  and some tuple does not fit (`OrderMatters`); a tuple put in front turns a failure into a pass exactly as
  `FrontTupleMatters` says.
- Printing exceptions and parsing them gives them back exactly when after the first entry no key looks like a
  list item, and one that looks like a comment or a header repeats the first entry (`RoundTrip`).
- A `vulnerabilities` entry none of whose `via` items identifies an advisory yields no tuple at all, so a
  high or critical one goes unnoticed, while an unidentified `advisories` entry fails the gate
  (`UnidentifiedEntries`).
- A limit on an O2M sub-query counts over the whole batch. Each node has as many logs as a limited lookup for
  it alone would give exactly when the limit cuts nothing or only one node has any (`LimitedLogs`).

## Files

`Wrappers`, `Schema`, `Relational`, `Columns`, `Statements`, `Driver`, `Entities` and `Mirrors` are the ground;
`LeafQueries`, `Agreement`, `EagerLoading`, `AccountLoading` and `AccountQueries` are eager loading;
`EagerProperties` and `StreamProperties` its theorems; `Creation`, `TableChecks`, `BulkCreate`, `HookOutcomes`,
`Upsert`; `Texts`, `ExceptionFile`, `AuditReport`, `AuditPolicy`, `AuditGate`.
Every lemma switches automatic induction off, so its body is its proof. `hide` statements keep definitions a
proof does not need away from the solver.

## Model

| member | source | states |
|---|---|---|
| `Schema.SwitchesAgree` | backend/ent/account.go:193-472 | the two switches over columns, in scanValues and in assignValues, name the same target type for every column, the one that takes the column's type in the migration; they know exactly the columns of the table |
| `Schema.JoinSwitchesAgree` | backend/ent/accountgroup.go:69-122 | the same for the join table |
| `Schema.RefusedByType` | backend/ent/account.go:217-472 | in terms of the table's column types: a value is refused only for a column of the table, and exactly when its target is not of that type or its JSON does not decode |
| `Schema.AssignSetsCell` | backend/ent/account.go:217-472 | an accepted value becomes the cell of its own column; NULL and empty JSON leave what was there, except that an id becomes zero |
| `Schema.AssignKeepsCells` | backend/ent/account.go:217-472 | and it touches no other column |
| `Columns.ColumnsAreTheTable` | backend/ent/account/account.go:151-189 | the list of all columns is exactly the table as the migration declares it, for accounts and for join rows |
| `Columns.AccountSelection` | backend/ent/account_query.go:933-958 | the selected columns are those of the table, or the fields, the id and each needed foreign key, and no other |
| `Columns.JoinSelection` | backend/ent/accountgroup_query.go:448-467 | the same for the join table, which has no id |
| `Columns.AccountProjectionKeeps` | backend/ent/account_query.go:933-958 | what a query leaves of a well-typed row: the id always, each foreign key if it is listed or an edge or a loader needs it, every other column if and only if it is listed, with the row's values; the whole row without a field list |
| `Columns.JoinProjectionKeeps` | backend/ent/accountgroup_query.go:448-467 | the same for join rows |
| `Columns.LeafProjectionKeeps` | backend/ent/account_query.go:686-716 | a group, proxy or user keeps its id and exactly the listed columns, all without a list |
| `Columns.LogProjectionKeeps` | backend/ent/account_query.go:870-879 | a usage log keeps its id, its account and exactly the listed columns, all without a list |
| `Schema.AssignExtendsProjection` | backend/ent/account.go:193-472 | scanning one more cell of a well-typed row is not refused and extends the selected part of the row by exactly that column |
| `Schema.AssignExtendsJoin` | backend/ent/accountgroup.go:69-122 | the same for join rows |
| `Entities.Account.AssignValues` | backend/ent/account.go:217-472 | fewer values than columns is a mismatch that changes nothing; otherwise values are moved into the fields up to the first that is refused (another target type than its column's, or JSON that does not decode), and that is the error; the cells of a table row are all accepted and leave exactly the row's selected columns |
| `Entities.AccountGroup.AssignValues` | backend/ent/accountgroup.go:86-122 | the same for join rows |
| `EagerProperties.AccessorTrichotomy` | backend/ent/account.go:124-189 | each accessor reports "not loaded" exactly for edges not requested, "not found" exactly for requested unique edges whose own lookup finds nothing, and otherwise the entity that lookup finds |
| `EagerProperties.JoinAccessorTrichotomy` | backend/ent/accountgroup.go:45-66 | the same for the two edges of a join row, including what an accessor without error returns |
| `Relational.NeededColumnsKept` | backend/ent/account_query.go:933-958 | no field list loses the id, a foreign key that a requested edge needs, or the foreign key an O2M load asked for |
| `Relational.NeededJoinColumnsKept` | backend/ent/accountgroup_query.go:448-467 | the same for the join entity, which has no id |
| `AccountQueries.AccountQuery.QuerySpec` | backend/ent/account_query.go:941-958 | without fields the selected columns are exactly those of the table; with fields they are the fields, the id and the foreign keys of requested to-one edges, and the id comes first and only once |
| `AccountQueries.AccountGroupQuery.QuerySpec` | backend/ent/accountgroup_query.go:456-467 | without fields the selected columns are exactly those of the join table; with fields they are the fields and the foreign keys of requested edges |
| `AccountLoading.InvalidColumn` | backend/ent/account_query.go:571-575 | the first field that is no column is reported exactly when there is one |
| `AccountLoading.NewNode` | backend/ent/account_query.go:600-608 | a row becomes a fresh node with its selected columns, the requested edges recorded and no edge filled in; scanning a table row cannot fail |
| `AccountLoading.NewNodes` | backend/ent/account_query.go:600-614 | one fresh node per row, in row order |
| `AccountLoading.NewJoins` | backend/ent/accountgroup_query.go:346-364 | one fresh join node per row, in row order, its fields what assignValues leaves of the scanned cells |
| `AccountQueries.AccountQuery.constructor` | backend/ent/account_query.go:437-510 | builders given fresh, separate sub-builders form a tree whose configuration is the one given |
| `AccountQueries.AccountGroupQuery.constructor` | backend/ent/accountgroup_query.go:240-258 | the same for the join builder |
| `AccountQueries.VerticesAreTreeSize` | backend/ent/account_query.go:437-510 | a query has as many builders as the tree of With* calls has vertices |
| `Wrappers.GroupByKey` | backend/ent/account_query.go:731-746 | nodes are sorted into one non-empty list per foreign key that occurs, nil keys skipped, and each key is requested once |
| `Wrappers.GroupedKeys` | backend/ent/account_query.go:731-750 | the requested ids are exactly the non-nil foreign keys of the nodes |
| `EagerLoading.AssignProxies` | backend/ent/account_query.go:752-760 | every node gets the neighbour with its foreign key, if there is one; the error is unreachable when neighbours are among those asked for |
| `EagerLoading.LoadProxy` | backend/ent/account_query.go:731-762 | also for duplicate parents: each proxy edge resolves as the node's own lookup would, to the wanted row with its key and the selected columns of it; equal keys share one object, and no statement is issued when all keys are nil |
| `EagerLoading.AssignOwners` | backend/ent/account_query.go:784-792 | as AssignProxies, for owners |
| `EagerLoading.LoadOwner` | backend/ent/account_query.go:763-794 | as LoadProxy, for owners |
| `AccountLoading.AssignParents` | backend/ent/account_query.go:816-824 | as AssignProxies, for parents |
| `AccountQueries.AccountQuery.LoadParent` | backend/ent/account_query.go:795-826 | each parent edge resolves to an object that stands for the graph of the node's own lookup; parents belong to a complete graph of fresh objects; the whole sub-query is saved when all keys are nil, and otherwise takes exactly the statements of a query that finds the parents |
| `EagerLoading.AssignJoinGroups` | backend/ent/accountgroup_query.go:426-434 | as AssignProxies, for the group of a join row |
| `EagerLoading.LoadJoinGroup` | backend/ent/accountgroup_query.go:408-436 | each join row's group edge resolves as its own lookup would, to the wanted row with its key and the selected columns of it |
| `AccountLoading.AssignJoinAccounts` | backend/ent/accountgroup_query.go:397-405 | as AssignProxies, for the account of a join row |
| `AccountQueries.AccountGroupQuery.LoadAccount` | backend/ent/accountgroup_query.go:379-407 | each join row's account edge resolves to an object that stands for the graph of its own lookup |
| `LeafQueries.LeafQuery.AllByID` | backend/ent/account_query.go:747-751 | the neighbours are exactly the rows that the sub-query's predicates and the ids allow, one object each |
| `LeafQueries.LeafBatchAnswers` | backend/ent/account_query.go:747-761 | one batched lookup by primary key finds what single lookups would, for every id |
| `Agreement.LeafAgrees` | backend/ent/account_query.go:731-794 | handing out a batch by foreign key gives each node its own lookup's result |
| `Agreement.AccountAgrees` | backend/ent/account_query.go:795-826 | the same when the neighbour is an account with a graph of its own |
| `EagerLoading.IndexByID` | backend/ent/account_query.go:828-836 | with distinct ids, the map finds exactly the node with a given id |
| `EagerLoading.AssignUsageLogs` | backend/ent/account_query.go:880-887 | each node's list is the neighbour list filtered by foreign key, in order; the error is unreachable for neighbours that were asked for |
| `LeafQueries.UsageLogQuery.AllByAccount` | backend/ent/account_query.go:870-879 | the foreign key is among the selected columns, and exactly the rows of the asked accounts come back, cut at the limit if one is set |
| `EagerLoading.LoadUsageLogs` | backend/ent/account_query.go:860-889 | each node's logs are those its own lookup would find, once each, in stream order: one object per wanted row, with the selected columns of it; every neighbour belongs to some node; with a limit the neighbours are a prefix of what is wanted, handed out in the same way |
| `AccountLoading.AssignChildren` | backend/ent/account_query.go:847-857 | as AssignUsageLogs, with a nullable key; both errors are unreachable for neighbours that were asked for |
| `AccountQueries.AccountQuery.LoadChildren` | backend/ent/account_query.go:827-859 | each node's children stand for the graphs its own lookup would find, once each, in stream order; every neighbour belongs to some node |
| `AccountLoading.AssignAccountGroups` | backend/ent/account_query.go:910-917 | as AssignUsageLogs, for join rows |
| `AccountQueries.AccountQuery.LoadAccountGroups` | backend/ent/account_query.go:890-919 | each node's join rows are those its own lookup would find, one node per row even where the selected columns coincide, in stream order; every neighbour belongs to some node |
| `Agreement.ChildrenAgree` | backend/ent/account_query.go:837-858 | filtering the batch by foreign key gives the children of a lookup for one parent |
| `Agreement.LogsAgree` | backend/ent/account_query.go:870-888 | the same for usage logs |
| `Agreement.JoinsAgree` | backend/ent/account_query.go:900-918 | the same for join rows, each told apart by its row |
| `StreamProperties.Partition` | backend/ent/account_query.go:847-887 | over distinct ids that cover all keys, the lengths of the lists add up to the number of neighbours |
| `StreamProperties.LoadedLogsPartition` | backend/ent/account_query.go:860-889 | after loadUsageLogs the list lengths of the nodes add up to the number of neighbours |
| `StreamProperties.LoadedChildrenPartition` | backend/ent/account_query.go:827-859 | the same after loadChildren |
| `StreamProperties.LoadedJoinsPartition` | backend/ent/account_query.go:890-919 | the same after loadAccountGroups |
| `StreamProperties.WithConcat` | backend/ent/account_query.go:847-887 | handing out respects concatenation of streams, so each list is in stream order |
| `StreamProperties.LimitedBatch` | backend/ent/account_query.go:966-968 | cutting a batch and then handing it out agrees with cutting each key's own list if and only if the limit cuts nothing or all neighbours have one parent |
| `StreamProperties.LimitedLogs` | backend/ent/usagelog_query.go:784-786 | after loadUsageLogs with a limited sub-query every log a node has is its own, and every node has as many as a limited lookup for it alone would return if and only if the limit cuts nothing or at most one node has any |
| `EagerLoading.ScanGroups` | backend/ent/account_query.go:702-716 | the hooked scan keeps the first row of each group, in order, and collects for each group exactly the accounts its rows name |
| `EagerLoading.AssignGroups` | backend/ent/account_query.go:720-728 | whatever order a group's accounts are visited in, each account's list is the neighbours linked to it, in neighbour order; the error is unreachable |
| `EagerLoading.LoadGroups` | backend/ent/account_query.go:670-730 | each account's groups are those its own lookup through the join table would find, without duplicates even when join rows repeat: one object per wanted row that a join row links, with the selected columns of it |
| `Agreement.GroupsAgree` | backend/ent/account_query.go:670-730 | the distinct groups of the row stream that link to an account are exactly the groups the join gives for that account alone |
| `Agreement.FirstAppearancesDistinct` | backend/ent/account_query.go:706-716 | no group becomes two nodes |
| `StreamProperties.LoadedGroupsInOrder` | backend/ent/account_query.go:670-730 | every account's groups are ordered by their first appearance in the row stream |
| `EagerLoading.LoadLeafEdges` | backend/ent/account_query.go:618-641 | groups, proxies and owners loaded in turn do not disturb one another |
| `AccountQueries.AccountQuery.LoadFromParent` | backend/ent/account_query.go:639-666 | the same for the last four edges, whose neighbours form one complete graph |
| `AccountQueries.AccountQuery.LoadEdges` | backend/ent/account_query.go:618-667 | every requested edge of every node is as its own lookup would have it, by exactly the statements counted per edge |
| `AccountQueries.AccountQuery.Scan` | backend/ent/account_query.go:560-614 | exactly the matching rows, one fresh node each, by one statement; none if a field names no column, and the first such field is the error; success only with valid fields |
| `AccountQueries.AccountQuery.AllByID` | backend/ent/account_query.go:813-818 | the sub-query restricted to ids returns a complete graph for exactly the rows allowed |
| `AccountQueries.AccountQuery.AllByParent` | backend/ent/account_query.go:837-846 | the sub-query restricted to parents returns a complete graph, and its nodes keep the foreign key |
| `AccountQueries.AccountQuery.All` | backend/ent/account_query.go:586-668 | on success one node per matching row, in row order, each the root of a complete graph of fresh objects that stands for the naive graph of its row, by exactly as many statements as the tree and the rows found at each of its vertices call for; never more than that, nor than builders; the rows are those on which every predicate holds, and each node mirrors its row, all the way down (`Mirrors.ResultMirrors`): without a field list it holds the whole row; failure only from a failed statement or a field somewhere in the tree that names no column, which is the one reported |
| `AccountQueries.AccountQuery.StatementsBound` | backend/ent/account_query.go:615-668 | that count is never more than there are builders, one when nothing was found, and strictly less when a requested to-one edge has only nil keys |
| `Statements.AtMostTreeSize` | backend/ent/account_query.go:615-919 | the same for any tree, vertex by vertex |
| `Statements.MoreRows` | backend/ent/account_query.go:615-919 | finding more rows never takes fewer statements |
| `AccountQueries.AccountGroupQuery.Scan` | backend/ent/accountgroup_query.go:334-364 | the same for join rows |
| `AccountQueries.AccountGroupQuery.LoadEdges` | backend/ent/accountgroup_query.go:365-377 | both edges of every join row are as its own lookups would have them |
| `AccountQueries.AccountGroupQuery.AllByAccount` | backend/ent/account_query.go:900-908 | the join sub-query restricted to accounts returns a complete graph, and its nodes keep the foreign key |
| `AccountQueries.AccountGroupQuery.All` | backend/ent/accountgroup_query.go:334-377 | as AccountQuery.All, for join rows, with the exact number of statements and the mirrored rows too |
| `EagerProperties.LoadedGraphIsNaive` | backend/ent/account_query.go:586-919 | the graph read along real edges from each node equals the one that looks up each row's edges one row at a time, join rows told apart by their rows |
| `Mirrors.ResultMirrored` | backend/ent/account_query.go:586-668 | what All returns, in terms of the tables alone: the rows are those on which every predicate holds, once each, and node i and all objects behind it mirror row i and the rows its edges lead to; without a field list node i holds exactly row i |
| `Mirrors.AccountMirrored` | backend/ent/account_query.go:586-919 | an object of a complete graph that stands for a row has the selected columns of that row and the flags of the requested edges, and each edge leads to one object per wanted row, or to the wanted row with its key, or to nothing if there is none; so on for every account and join row behind it |
| `Mirrors.JoinMirrored` | backend/ent/accountgroup_query.go:334-436 | the same for a join row, its account and its group |
| `Mirrors.GroupsMirrored` | backend/ent/account_query.go:670-730 | a group list agrees with its naive lookup only if it has one object for each group that satisfies the predicates and that some join row links, with the selected columns of it |
| `Mirrors.LogsMirrored` | backend/ent/account_query.go:860-889 | the same for usage logs of the account |
| `Mirrors.LeafMirrored` | backend/ent/account_query.go:731-794 | a unique edge agrees with its naive lookup only if it leads to the wanted row with its key, with the selected columns of it, or to nothing if there is none |
| `Mirrors.WantedMatch` | backend/ent/account_query.go:586-668 | a row matches a query exactly when every predicate the caller gave holds on it, its id is among those asked for and its parent is among those asked for |
| `EagerProperties.OneEntryPerRow` | backend/ent/account_query.go:670-919 | each to-many list of each object has exactly one entry per row that a lookup for that object alone finds, whatever columns are selected |
| `EagerProperties.TwoRoutesToGroups` | backend/ent/account_query.go:670-730 | groups reached through join rows are among those loaded directly; they are all of them exactly when every link has a join row that passes the join predicates, so always without such predicates |
| `EagerProperties.RoutesAgreeOnObjects` | backend/ent/account_query.go:890-919 | on loaded objects, WithGroups and WithAccountGroups followed by WithGroup give one set of groups |
| `EagerProperties.ParentAndChildrenConverse` | backend/ent/account_query.go:795-859 | a's loaded parent has id p exactly when a's id occurs once among p's loaded children, and it never occurs twice |
| `EagerProperties.SelectionKeepsEdges` | backend/ent/account_query.go:933-958 | the naive graphs of two queries that differ only in selected columns, anywhere in their trees, have the same edges, join rows told apart by their rows |
| `EagerProperties.SelectionKeepsLoadedEdges` | backend/ent/account_query.go:586-958 | the same on objects: two runs whose queries differ only in selected columns load the same edges for a row |
| `Creation.AccountCreate.Defaults` | backend/ent/account_create.go:617-687 | exactly the unset columns before the first uninitialised default function get their defaults, and that function's column is the error |
| `Creation.AccountCreate.Check` | backend/ent/account_create.go:690-788 | the first failing test in source order is reported |
| `Creation.CheckMeans` | backend/ent/account_create.go:690-788 | check passes if and only if every required column is set and every validator accepts what is set |
| `Creation.FailedDefaultsFailCheck` | backend/ent/account_create.go:617-788 | for every mutation state and set of uninitialised default functions, a failing defaults implies a failing check |
| `Creation.AfterDefaults` | backend/ent/account_create.go:617-788 | after a successful defaults only name, platform and type can be missing; all other failures are validators |
| `TableChecks.ColumnsAsDeclared` | backend/ent/migrate/schema.go:146-184 | required columns are those that the migration declares NOT NULL besides the id, validated ones those with a size or an enum, constant defaults those with a default |
| `TableChecks.CheckGuardsTable` | backend/ent/account_create.go:690-788 | check passes if and only if no NOT NULL column is unset and no sized or enum column holds what its validator refuses; otherwise it reports the first such column in the order of the column list, and what is wrong with it |
| `TableChecks.DefaultsFill` | backend/ent/account_create.go:617-687 | each unset column gets its own constant or what its own function returns, set columns keep their values and no other column is set; defaults stops at the first needed function that is nil, in the order of the column list, and sets nothing from there on |
| `BulkCreate.OnlyCheckedRowsInserted` | backend/ent/account_create.go:2430-2457 | for hooks that fail, skip, repeat or swallow as they like (with fixed call counts, leaving the mutation as it is), every batch sent has one row per builder, each from that builder, and all checks have passed |
| `BulkCreate.DefaultsErrorInsertsNothing` | backend/ent/account_create.go:2433-2441 | for such hooks, one builder's failed defaults keeps everything from being inserted, and what is inserted has all required columns with valid values |
| `BulkCreate.DisciplinedRun` | backend/ent/account_create.go:2430-2478 | from any hook inwards: whether the run fails, which batch it sends and which mutations it marks done, as conditions on hooks, checks and the database's answer |
| `BulkCreate.WellBracketed` | backend/ent/account_create.go:2467-2478 | the events of a run, all of them: a prefix of the hooks in flat order entered, then the batch if the insert is reached, in which case all hooks were entered, then the same hooks left |
| `BulkCreate.BracketsNest` | backend/ent/account_create.go:2467-2478 | entered in order and left in exactly the opposite order, with everything else in between |
| `BulkCreate.SaveOutcome` | backend/ent/account_create.go:2423-2480 | at most one batch, without ids; none, and nothing done, if a check fails; the done mutations form a suffix, non-empty exactly when the insert was accepted; no error exactly when all are done and builder 0's hooks let success out |
| `BulkCreate.SaveRecords` | backend/ent/account_create.go:2458-2466 | for the same hooks: a done mutation and its node have the id that the database returned for the row, or 0, and the node the builder's columns; any other mutation keeps the id it had |
| `BulkCreate.ErrorOrigin` | backend/ent/account_create.go:2434-2478 | and the error is that of the first hook to fail on the way in, of the first check to fail, of the insert, or of the first hook to fail on the way out, whichever comes first |
| `BulkCreate.NoInventedIDs` | backend/ent/account_create.go:2444-2466 | however hooks behave and however often batches are sent: rows and nodes hold their builder's columns, and every id in a row, in a node or put into a mutation is 0 or one that the database returned for that row; only done mutations get one |
| `HookOutcomes.AnyHooks` | backend/ent/account_create.go:2423-2480 | for hooks with fixed call counts and any answers of the database: every batch holds all rows, the first without ids, answered in turn; there are at most as many as the calls multiply to; one is sent if and only if every hook calls on and every check passes; when nothing fails, exactly the product, so one if and only if every hook calls on once; and no error comes out exactly when nothing fails or a hook lets none through with nothing failing outside it |
| `HookOutcomes.DoneWhen` | backend/ent/account_create.go:2458-2466 | a mutation is marked done if its step is reached, its check passes and no error comes back to it the first time, and only if that happens some time; if and only if, when the database answers the same every time |
| `HookOutcomes.SuccessWithoutInsert` | backend/ent/account_create.go:2467-2478 | Save reports success without an accepted insert if and only if all batches sent were refused and some hook that lets no error through has nothing failing outside it; when the answer is always the same, by conditions on hooks, checks and answer alone |
| `HookOutcomes.DoneWithoutInsert` | backend/ent/account_create.go:2458-2466 | a mutation is marked done without an accepted insert if and only if all batches sent were refused, its step is reached, and such a hook belongs to a later builder |
| `HookOutcomes.SkippingHook` | backend/ent/account_create.go:2467-2478 | such a hook: it skips what it wraps, and Save succeeds with nothing inserted |
| `HookOutcomes.SwallowingHook` | backend/ent/account_create.go:2467-2478 | another: it calls on once and swallows the error, and Save succeeds although the insert was refused |
| `HookOutcomes.LateFailure` | backend/ent/account_create.go:2467-2478 | a hook that fails after it has called on: Save reports an error although the row is inserted and the mutation done |
| `HookOutcomes.RepeatingHook` | backend/ent/account_create.go:2467-2478 | a hook that calls on twice: the batch is sent twice, the mutation is done, and Save succeeds exactly when the second is accepted too |
| `HookOutcomes.NoIDsSent` | backend/ent/account_create.go:2444-2456 | no batch carries ids as long as no hook of a builder after the first calls on twice |
| `HookOutcomes.IDsSentAgain` | backend/ent/account_create.go:2444-2464 | otherwise one may: the second batch carries the id that came back for the first builder's row |
| `BulkCreate.AccountCreateBulk.MutateFrom` | backend/ent/account_create.go:2467-2470 | running builder i from hook h changes specs, nodes, mutations and events as the run function says |
| `BulkCreate.AccountCreateBulk.CreateOne` | backend/ent/account_create.go:2434-2466 | the same for the step inside the hooks |
| `BulkCreate.AccountCreateBulk.Record` | backend/ent/account_create.go:2460-2465 | the id of the spec, or else the node's, is recorded on node and mutation; the node keeps its columns, and only this mutation becomes done |
| `BulkCreate.AccountCreateBulk.BatchCreate` | backend/ent/account_create.go:2447-2456 | all specs are sent at once, with the ids they have; on acceptance each gets its own id |
| `BulkCreate.AccountCreateBulk.PrepareAll` | backend/ent/account_create.go:2430-2433 | every builder has been through defaults, errors ignored |
| `BulkCreate.AccountCreateBulk.Save` | backend/ent/account_create.go:2423-2480 | a stored error is returned untouched; otherwise result, mutations and events are those of the run from builder 0's outermost hook; for hooks that call on once and pass errors on, success returns for every builder a node with the id the database returned, or 0, and the mutation's columns, the mutation done with that id, and an error originates as ErrorOrigin says |
| `Upsert.AccountUpsert.UpdateNewValues` | backend/ent/account_create.go:2553-2563 | for every statement built later and whatever was said before, unless it was to do nothing: each of its columns takes the proposed value, except that created_at keeps its own; other columns are left as they were |
| `Upsert.AccountUpsert.Ignore` | backend/ent/account_create.go:2571-2574 | for every statement built later, each of its columns keeps its value and others are left as they were |
| `Upsert.AccountUpsert.DoNothing` | backend/ent/account_create.go:1700-1705 | nothing happens to any column, whatever was said before |
| `Upsert.AccountUpsert.Update` | backend/ent/account_create.go:1709-1714 | the function given has the last word on each column it touches and says nothing about others, unless nothing is to be done |
| `Upsert.AccountUpsert.ExecBulk` | backend/ent/account_create.go:3258-3272 | refuses a bulk that could not be set up, then the first builder with options of its own, then an empty list, and nothing else |
| `Upsert.CallOnColumn` | backend/ent/account_create.go:1679-1714 | the options a call appends do to each column what the call says about it and leave the other columns as they were, unless nothing is to be done |
| `Upsert.LastSayDecides` | backend/ent/account_create.go:1068-1714 | for any options given to OnConflict and any calls since, with any functions given to Update: nothing happens to a column if one of them is to do nothing; otherwise what the last call that says anything about it says, or else what those options say |
| `Upsert.CreatedAtMoves` | backend/ent/account_create.go:1068-1714 | created_at moves if and only if nothing says to do nothing, and a function given to Update moves it and no later call protects or sets it, or the options given to OnConflict move it and no call does either |
| `Upsert.CreatedAtStays` | backend/ent/account_create.go:1068-1720 | if Update is only called by the setters: created_at moves if and only if the options given to OnConflict move it, DoNothing is not called, and neither UpdateNewValues nor Ignore protects it; without options never |
| `Upsert.UpdateMovesCreatedAt` | backend/ent/account_create.go:1709-1714 | a function given to Update that sets created_at moves it, without any options and after UpdateNewValues; before UpdateNewValues only if created_at is not inserted, before DoNothing never |
| `Upsert.DocumentedEquivalence` | backend/ent/account_create.go:1671-1687 | column by column, UpdateNewValues equals the documented option, except on created_at, where they agree if and only if it is not inserted or nothing is to be done |
| `Upsert.EquivalenceFailsOnSavedRows` | backend/ent/account_create.go:2430-2457 | for every batch that bulk Save can send created_at is inserted, so UpdateNewValues keeps it and the documented option moves it unless nothing is to be done |
| `ExceptionFile.ParseExceptions` | tools/check_pnpm_audit_exceptions.py:23-48 | the loop computes the parser function, errors included |
| `Texts.StripIsCore` | tools/check_pnpm_audit_exceptions.py:28-36 | stripping leaves exactly what remains without the white space around it, white space being the characters of str.isspace |
| `Texts.LineEnds` | tools/check_pnpm_audit_exceptions.py:27-28 | a line ends at the first line break, be it a line feed, a carriage return or both |
| `Texts.LastLine` | tools/check_pnpm_audit_exceptions.py:27-28 | the last line needs no line break, and an empty text has no line |
| `ExceptionFile.SplitMeans` | tools/check_pnpm_audit_exceptions.py:12-20 | any line with a colon splits into the text before the first one and the text after it, without white space around, and the latter without one pair of quotes; a lone quote is empty |
| `ExceptionFile.FeedPadded` | tools/check_pnpm_audit_exceptions.py:29 | white space around a line does not matter |
| `ExceptionFile.StraySkipped` | tools/check_pnpm_audit_exceptions.py:43-45 | a line that starts no record is skipped unless it has a colon and belongs to a record |
| `ExceptionFile.ParseFails` | tools/check_pnpm_audit_exceptions.py:12-45 | parsing fails if and only if some line is a list item without a colon, wherever it stands, and the first such item is the error |
| `ExceptionFile.SplitPrinted` | tools/check_pnpm_audit_exceptions.py:12-20 | splitting a printed entry gives key and value back, whatever quotes, colons or blanks the value holds |
| `ExceptionFile.SplitNeedsColon` | tools/check_pnpm_audit_exceptions.py:12-20 | splitting fails exactly when there is no colon |
| `ExceptionFile.SplitSingleQuoted` | tools/check_pnpm_audit_exceptions.py:15-19 | one pair of single quotes is removed, whatever the value holds |
| `ExceptionFile.SplitBare` | tools/check_pnpm_audit_exceptions.py:12-20 | a trimmed value without a pair of quotes is kept as it is |
| `ExceptionFile.IgnorableAnywhere` | tools/check_pnpm_audit_exceptions.py:29-33 | blank lines, comments and the two headers may stand anywhere without changing what is parsed |
| `ExceptionFile.LinesOfText` | tools/check_pnpm_audit_exceptions.py:27-28 | joined lines come apart again |
| `ExceptionFile.ParsePrinted` | tools/check_pnpm_audit_exceptions.py:12-48 | what parsing printed records gives, for any non-empty records with trimmed, colon-free keys and any values without line breaks: entries taken for comments or headers are lost, and a key that looks like a list item starts a record |
| `ExceptionFile.RoundTrip` | tools/check_pnpm_audit_exceptions.py:12-48 | for such records, parsing what was printed returns them if and only if after the first entry no key looks like a list item and one that looks like a comment or a header repeats the first entry; always if no key looks like any of these |
| `ExceptionFile.LastWithKey` | tools/check_pnpm_audit_exceptions.py:40-45 | of the entries of a record that have one key the last counts |
| `ExceptionFile.ReservedKeyDropped` | tools/check_pnpm_audit_exceptions.py:29-33 | in any printable record, a reserved or # key after the first is lost, unless the first entry has it too, and every other key keeps its value |
| `AuditReport.AnyOfIsFirst` | tools/check_pnpm_audit_exceptions.py:53-61 | a chain of or gives the first usable candidate, the last one if none is usable |
| `AuditReport.IterVulns` | tools/check_pnpm_audit_exceptions.py:64-111 | one tuple per advisory, then one per identifying via item of each package, in order. In terms of the report's fields: an advisory's tuple has its GitHub id, or else its URL, first CVE, number (even 0), title, advisory or overview; its module name or else its name; its own severity. An item's tuple has its GitHub id, or else its URL, source, title or name, or the text it is, with the package's name and severity; there is one for each such item and no other |
| `AuditReport.AdvisoryTold` | tools/check_pnpm_audit_exceptions.py:53-82 | the first usable of those fields identifies the advisory, and its name is module_name or else name |
| `AuditReport.ItemTold` | tools/check_pnpm_audit_exceptions.py:90-108 | the same for a via item, which is passed over exactly when it has no usable field |
| `AuditReport.SilentPackage` | tools/check_pnpm_audit_exceptions.py:83-111 | a package yields nothing exactly when no via item identifies an advisory |
| `AuditReport.SilentPackageUnseen` | tools/check_pnpm_audit_exceptions.py:83-111 | such a package may as well not be in the report |
| `AuditGate.IndexExceptions` | tools/check_pnpm_audit_exceptions.py:152-187 | no error exactly when all exceptions are complete, dated, non-empty after normalising and pairwise distinct by key; the index has one entry for each key of a sound exception, every error is right, and each exception that is not sound or has an earlier one's key is reported |
| `AuditGate.IndexDecides` | tools/check_pnpm_audit_exceptions.py:205-219 | a look into the index decides what the specification says about some exception in the list |
| `AuditGate.CheckVulns` | tools/check_pnpm_audit_exceptions.py:189-219 | given a sound index, no finding exactly when every high or critical named tuple is excused, the first of each key also in severity; whatever the index, every finding is right and whatever it shows to be wrong is found |
| `AuditGate.Gate` | tools/check_pnpm_audit_exceptions.py:142-243 | the exit code is 0 if and only if the specification over keys holds, if and only if the policy over texts does, and 1 otherwise; every finding is right (there is such an exception or tuple, and that is what is wrong with it), and everything that is wrong is among the findings |
| `AuditGate.PassesIsAccepts` | tools/check_pnpm_audit_exceptions.py:114-219 | keys and normal forms mean what the policy says of the texts: five non-empty fields and a date; packages compared without white space around, advisories and severities also without case; high or critical; the last day included |
| `AuditGate.Spelling` | tools/check_pnpm_audit_exceptions.py:114-131 | the exit code does not change when advisories or severities of exceptions and tuples are written in another case or with white space around, or package names with white space around |
| `AuditGate.PackagesKeepCase` | tools/check_pnpm_audit_exceptions.py:119-182 | two usable exceptions are duplicates exactly when their packages are the same but for white space around, so not if they differ in case, and their advisories are the same word |
| `AuditGate.EveryFieldRequired` | tools/check_pnpm_audit_exceptions.py:9-162 | an exception without a package, advisory, severity, mitigation or date fails the gate, whatever else is there |
| `AuditGate.FindingRight` | tools/check_pnpm_audit_exceptions.py:192-219 | each finding about a tuple is right in terms of the texts: it counts, and it has no identifier, or no usable exception is for it, or one that is has another severity, or has expired |
| `AuditGate.ErrorRight` | tools/check_pnpm_audit_exceptions.py:156-182 | each finding about an exception is right in terms of the texts |
| `AuditGate.ExceptionsOKAsSet` | tools/check_pnpm_audit_exceptions.py:156-182 | soundness of the exceptions depends on their multiset only |
| `AuditGate.ExceptionOrder` | tools/check_pnpm_audit_exceptions.py:156-219 | no permutation of the exceptions changes the exit code |
| `AuditGate.JudgedAlone` | tools/check_pnpm_audit_exceptions.py:192-219 | with one severity per key, each tuple is judged on its own |
| `AuditGate.VulnOrder` | tools/check_pnpm_audit_exceptions.py:192-219 | with one severity per key, no permutation of the tuples changes the exit code |
| `AuditGate.OrderMatters` | tools/check_pnpm_audit_exceptions.py:192-219 | some permutation of the tuples changes the exit code if and only if the exceptions are sound, every relevant tuple has an unexpired exception, every relevant key has a tuple that also fits its exception's severity, and some relevant tuple does not |
| `AuditGate.TimePasses` | tools/check_pnpm_audit_exceptions.py:215-219 | a later today never turns a failure into a pass |
| `AuditGate.Appending` | tools/check_pnpm_audit_exceptions.py:193-219 | appending tuples never turns a failure into a pass |
| `AuditGate.Prepending` | tools/check_pnpm_audit_exceptions.py:193-219 | with one severity per key, neither does prepending |
| `AuditGate.FrontTupleMatters` | tools/check_pnpm_audit_exceptions.py:201-214 | a tuple put in front of any others turns a failure into a pass if and only if it passes alone and all that is wrong with the others is a severity mismatch in the first tuple that shares its key |
| `AuditGate.FrontTupleHidesMismatch` | tools/check_pnpm_audit_exceptions.py:201-214 | for one exception: a tuple in front that matches it hides a mismatch behind it |
| `AuditGate.MismatchExample` | tools/check_pnpm_audit_exceptions.py:201-214 | there are such tuples, for any lower and any date parser that treat three lower-case words and one date as they should |
| `AuditGate.UnidentifiedEntries` | tools/check_pnpm_audit_exceptions.py:64-204 | an unidentified relevant advisory fails the gate; an unidentified package changes nothing |

## Left out

- The database driver, `sqlgraph`, selectors, dialects and transactions: a query is the set of matching rows in any order, or a failure. `sqlgraph` and `entgo.io/ent/dialect/sql` are not part of this model.
- Interceptors, traversers, query modifiers, ordering, `Unique`, offsets and path queries: none are set on the modelled queries; a limit only on the usage log query. A limit of 0 counts as none, as it does in the query spec.
- AccountQueries.AccountQuery.constructor: sub-builders, predicates and fields are given when a builder is created; a `With*` call that replaces an earlier one is not a separate step. The configuration is a ghost constant; only what the loaders change during a run is mutable.
- AccountQueries.AccountGroupQuery.constructor: the same.
- AccountQueries.AccountQuery.All: the builder of a usage log edge in its tree has no limit, because with one the graph differs from the naive one as `LimitedLogs` says; limits on the other builders are left out.
- EagerLoading.ScanGroups: a row of the joined statement is a pair; that the hooked scan puts the extra column in front and shifts the others is not modelled.
- Running one builder twice: loaders restrict sub-builders in place, and the restriction of the first run stays. The contracts cover the first run.
- The join predicate that loadGroups adds to the group builder is passed to the driver instead of being stored on the builder.
- Edges, field validation and error paths of groups, proxies, users and usage logs themselves: the same templates as for accounts, so easier members of the same kind.
- Entities.Account.AssignValues: values of columns the entity does not know are not kept in `selectValues`.
- Entities.AccountGroup.AssignValues: the same.
- JSON columns are text and whether it decodes; rows of the table hold JSON that does, as ent writes it.
- Hooks are modelled by when they fail, how often they call what they wrap and whether they pass its error on: the same at every call. Hooks that edit the mutation or look at what happened before are not modelled.
- BulkCreate.OnlyCheckedRowsInserted: holds for such hooks only; one that hands on another mutation is left out, and then `Save` checks the builder's own mutation before adopting the one it is given.
- BulkCreate.DefaultsErrorInsertsNothing: the same.
- BulkCreate.AccountCreateBulk.CreateOne: the mutation handed in by the hooks is always the builder's own.
- BulkCreate.AccountCreateBulk.Record: `mutation.id` is copied when the step finishes; in the code it refers to the node's id from then on.
- Upsert.LastSayDecides: that the last assignment to a column counts, and that a function given to Update does the same whatever the update set holds, is taken for the library's `UpdateSet`, which is not part of this model.
- BulkCreate.AccountCreateBulk.BatchCreate: the conflict options that go with the batch are not part of it; what they do to a row that is there is in `Upsert`.
- HookOutcomes.DoneWhen: when the database accepts one batch and refuses another, which repetition of a hook comes first with its batches is left open.
- Creation.FailedDefaultsFailCheck: validators are total. In the code those that are variables are set by the same import as the default functions; without it check panics on a value that it would test, where the model gives a verdict.
- The closures that Save builds in advance are the positions (builder, hook) of `MutateFrom`.
- createSpec copies every set column to the row and the node; a spec is the map of set columns, and edges of a create are left out.
- `AccountCreate.Save`, update and delete builders, fluent setters, the `X` variants, `String`.
- Other entities generated from the same templates: announcements, API keys, routes.
- `str.lower` and `date.fromisoformat` are parameters of the gate; reading files and decoding the report's JSON are left out, and so are titles and message texts. A severity that is a number, at which Python would raise, is taken by its text.
- `tools/secret_scan.py`, the frontend and the deployment files: no algorithm of this kind.
