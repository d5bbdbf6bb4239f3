# Verified model of the account persistence layer and of the audit gate

The backend keeps its accounts through generated builders: queries that load related rows eagerly, creations
that run through hooks singly or in bulk, updates that turn a mutation into edge specs. A separate Python script
decides whether the findings of a package audit are covered by a list of exceptions. This project models both and
proves what they promise for every table, every nesting of builders, every list of builders and hooks, every history
of calls and every report.

What is modelled, and how:

- **The relational engine** (`Relational`) is what the builders rely on: selection, a stable sort by order terms,
  de-duplication by a key, limit and offset over a sequence of rows. A scan has one order, ties in an ORDER BY keep it,
  and the database honours the predicates it is given.
- **Queries** (`EagerLoading`) exist twice. `Batched` is what `sqlAll` and the loads compute: one query per edge
  and level, spread back by key. `Naive` is the nested-loop join they replace: one lookup per node. `BatchingCorrect`
  connects the two, `LoadedEdges` draws the conclusions for single edges, `GroupOrder`, `Paging`, `SecondRun` and `ReusedBuilder`
  give the exact limits. `QueryMeaning` says what all this comes to in terms of the tables and of the calls made on the
  builder: which rows in which order, which columns of them, and which neighbours at every depth.
- **The builder and its result as objects** (`AccountQueries`, `NodeResults`): `AccountQuery` with its nested builders as a
  footprint, the loops that index nodes by key and fill the edges of the node objects in place, proved to produce
  `Batched` and to leave behind `After`. `QueryPaths` has the second way to the database, the selector of `IDs`, `FirstID` and
  `Exist`.
- **Creation** (`AccountFields`, `EntityCodec`, `CreateChecks`, `BulkTraces`, `BulkCreate`, `SingleSave`): the columns and the
  separate tables that name them again, `createSpec`, `scanValues` and `assignValues`, defaults and checks, and the
  chain of mutators of a bulk creation as objects with shared pointers, arrays filled by index and a trace of events.
- **Edge updates** (`EdgeUpdate`): the change sets of a mutation, the loops that emit clear and add specs, what the specs
  do to stored links, and what a whole history of calls amounts to.
- **The audit gate** (`PyText`, `ExceptionList`, `AuditReport`, `AuditGate`): the line parser with a printer it undoes, both
  shapes of the report with Python's truthiness and its exceptions, the index, the scan and the exit code.

`Sealing` keeps some definitions closed while facts about them are only passed on.

What the code does that its documentation does not say, or says otherwise:

- `Limit(0)` means no limit to `All` but an empty result to `IDs`; `IDs` also caps an offset without a limit at 2147483647
  rows, where `All` is taken not to (`QueryPaths.IdsAreIdsOfAll`; the cap of the selector is in the source, that a spec has
  none is an assumption about the graph library). `First`, `Only` and `Exist` override a limit that was set, and `Exist`
  leaves its limit and its selected column in the builder (`QueryPaths.ExistNarrowsLater`).
- A limit or an offset on a sub-query, of any edge, cuts the whole batch, not each node's neighbours
  (`Paging.PagingDecides`).
- A run leaves its key filters in the nested builders; on a changed database a second run of the same builder can miss
  rows that a new builder, or a clone taken before, finds (`ReusedBuilder.SecondRunAnywhere`, `SecondRun.SecondRunLogs`,
  `SecondRun.SecondRunProxies`, `SecondRun.SecondRunGroups`, `SecondRun.SecondRunCanMiss`).
- What a run leaves in a groups sub-query is a join and not a filter: it puts one more account id before the columns of a
  group (`backend/ent/account_query.go:639-646`). The wrapped callback strips one of them, so behind two joins the
  unchecked type assertion at line 663 panics on the first row (the target of an unknown column is chosen in
  `backend/ent/group.go`). A builder that loaded groups therefore panics when it is run again, and so does a clone taken
  after the run, exactly when some groups sub-query delivers a row under the second join (`SecondRun.SecondRunExact`);
  unless it skips rows, that is when the first run delivered a group at any depth (`SecondRun.SecondRunSame`), and all
  further runs are like the second (`SecondRun.EveryRunSame`).
- When a result repeats an id, only its last node receives the neighbours of to-many edges (`BatchingCorrect.BatchedIsNaiveIff`).
- The groups of a node come in the order in which the whole batch first mentions them. That is the order a lookup for
  this node alone gives, on every database, exactly when the order terms tell any two groups apart
  (`GroupOrder.GroupOrderDecides`).
- `Clone` is documented as a duplicate of the builder, but row locks are not copied, at any depth
  (`AccountQueries.AccountQuery.Clone`).
- A bulk creation is all-or-nothing except when a hook rejects the result after the batch was written
  (`BulkTraces.AllOrNothing`). Its check looks at the builder's own mutation and not at the one that hooks hand on, so a hook can
  make it write a row that a single creation refuses (`BulkCreate.BulkRun.UncheckedRows`, `SingleSave.AloneChecks`).
- Clearing an edge does not undo an addition made before in the same mutation (`EdgeUpdate.HistoryExact`); for the edges with
  one neighbour see `EdgeUpdate.UniqueHistoryExact`.
- After a bulk creation a builder's mutation reads the id of its own account, except when several builders were handed
  the same mutation: then all of them read the id of the first (`BulkCreate.BulkRun.ReadsOwnId`,
  `SingleSave.SharedMutation`).
- The gate looks at the severity of a package and advisory only where it first occurs (`AuditGate.FilterDecides`), so an
  entry that comes earlier can turn a failure into a pass (`AuditGate.EarlierTupleHelps`).

## Model

| member | source | states |
|---|---|---|
| BatchingCorrect.BatchedExactly | backend/ent/account_query.go:550-814 | for every table with distinct ids and every nesting of sub-queries without limit and offset, first run: a node that no later node of the result shadows carries exactly the neighbours a lookup for this node alone gives, in the sub-query's order, at every depth, and of groups the same ones, each once; groups too come in that order when their sub-queries order them; a shadowed node carries its proxy and its parent only |
| BatchingCorrect.BatchedIsNaive | backend/ent/account_query.go:550-814 | eager loading is the nested-loop join, up to the order of groups, on every result that repeats no id, and equals it when groups are ordered |
| BatchingCorrect.BatchedIsNaiveIff | backend/ent/account_query.go:755-757 | in general it is the join if and only if the shadowed nodes have nothing to load |
| BatchingCorrect.RepeatedId | backend/ent/account_query.go:755-757 | a traversal that reaches one account twice and is not made unique: the first of its nodes has no usage logs |
| BatchingCorrect.LeafNarrow | backend/ent/account_query.go:688-719 | the rows of one key within an unpaged batched answer are the answer for that key alone |
| BatchingCorrect.GroupsNarrow | backend/ent/account_query.go:646-687 | on rows clustered by group, removing repeats in the batch and narrowing to an account commute |
| QueryMeaning.AllLoads | backend/ent/account_query.go:550-814 | a first run loads what was asked for: every unshadowed node is its row with its selected columns, its flags, its groups each once, its proxy, its parent, its children and its usage logs as the tables and the predicates say, in order, and so at every depth |
| QueryMeaning.AnswerRows | backend/ent/account_query.go:858-902 | the rows behind the result are those of the table that satisfy every predicate, each as often as there, in the order the terms say with ties in table order; one per look if unique; then skipped and limited |
| QueryMeaning.AnswerColumns | backend/ent/account_query.go:858-886 | each row is returned with its id, with exactly the selected columns, with the foreign keys that loads need, and with the flags of the edges asked for |
| QueryMeaning.OneTermOrders | backend/ent/account_query.go:896-902 | with one term the keys do not decrease, or do not increase if it is descending |
| QueryMeaning.LastSettingCounts | backend/ent/account_query.go:43-80 | after any calls, limit, offset and uniqueness are those of the last call that sets them; a row lock on Postgres is such a call |
| QueryMeaning.LastWithCounts | backend/ent/account_query.go:412-463 | an edge is loaded as its last With call says, whose options are calls on a new builder |
| QueryMeaning.CallsAddUp | backend/ent/account_query.go:43-75 | predicates, order terms and selected columns add up in the order of the calls |
| LoadedEdges.GroupsEachOnce | backend/ent/account_query.go:661-686 | whatever join rows arrive, repeats included, an account's groups are the groups joined to it, each once, in order of first mention |
| GroupOrder.GroupOrderDecides | backend/ent/account_query.go:661-686 | for two accounts with their groups, the batch lists the groups as lookups for each account do, on every database, iff the order terms tell any two groups apart |
| GroupOrder.BatchOrderDiffers | backend/ent/account_query.go:661-686 | for any two tied groups, a database on which an account lists them in the other order than a lookup for it alone |
| LoadedEdges.ParentOrErrAfterLoad | backend/ent/account.go:133-140 | whatever the sub-query limits or skips: not-loaded iff the edge was not requested, not-found iff it was and the key is null or no account of the batched answer has it, else the account of that answer with that key |
| LoadedEdges.ParentOrErrUnpaged | backend/ent/account.go:133-140 | without limit and offset the batched answer holds all visible rows: not-found iff the key is null or no visible row has it, else that row |
| LoadedEdges.ProxyOrErrAfterLoad | backend/ent/account.go:122-129 | the same three-way answer for the proxy, for any sub-query |
| LoadedEdges.ProxyOrErrUnpaged | backend/ent/account.go:122-129 | the same in terms of the table, without limit and offset |
| LoadedEdges.ParentChildrenInverse | backend/ent/account_query.go:720-784 | over the unfiltered table with distinct ids, c is a loaded child of p iff p is the loaded parent of c |
| SecondRun.RunAgain | backend/ent/account_query.go:639-646 | the builder that any run leaves behind, filters repeated or not, panics iff a groups sub-query delivers a row under another join, and otherwise computes the same result |
| SecondRun.NewBuilderReturns | backend/ent/account_query.go:412-463 | a builder on which any calls were made but no run does not panic |
| SecondRun.SecondRunExact | backend/ent/account_query.go:550-687 | running All twice on an unchanged database returns the same result, except that it panics exactly in that case; a clone taken after the run fares the same |
| SecondRun.SecondRunSame | backend/ent/account_query.go:550-687 | unless a groups sub-query skips rows, the second run equals the first iff no groups sub-query, at any depth the run reaches, delivered a row |
| SecondRun.EveryRun | backend/ent/account_query.go:550-687 | as long as the runs of one builder on an unchanged database return, they return the same, and the next one panics iff a groups sub-query delivers a row under one more join |
| SecondRun.EveryRunSame | backend/ent/account_query.go:550-687 | unless a groups sub-query skips rows, every run returns what the first did iff the first delivered no group |
| SecondRun.SecondRunPanics | backend/ent/account_query.go:653-671 | one account with one group, loaded twice: the second run panics |
| ReusedBuilder.SecondRunAnywhere | backend/ent/account_query.go:627-814 | on whatever database, for every unpaged nest, a second run that returns gives what a new builder finds there, less the proxies, parents, children and usage logs whose keys the first run did not ask for and less the groups, at every depth |
| SecondRun.SecondRunLogs | backend/ent/account_query.go:785-814 | the same for usage logs: those of the accounts the first run found |
| SecondRun.SecondRunProxies | backend/ent/account_query.go:688-719 | the same for proxies |
| SecondRun.SecondRunGroups | backend/ent/account_query.go:639-671 | a second run that returns gives no node any groups, if the first run found an account |
| SecondRun.SecondRunCanMiss | backend/ent/account_query.go:736-737 | a concrete account that moved to another parent: the reused builder misses the parent a new one finds |
| Paging.PagingDecides | backend/ent/account_query.go:627-814 | for each of the five edges, a limit and offset on the sub-query keep eager loading equal to the join on every database iff both are absent, 0 counting as absent |
| Paging.PagedDiffers | backend/ent/account_query.go:627-814 | for every edge and every other limit or offset, a database on which the two differ |
| NodeResults.IndexByKey | backend/ent/account_query.go:721-732 | the first loop of a many-to-one load lists each non-null key once, in order of first occurrence, and under it exactly the nodes that hold it |
| NodeResults.SpreadParent | backend/ent/account_query.go:741-749 | the last loop puts on each node the neighbour with its key; the error for an unexpected key is never returned |
| NodeResults.LoadProxy | backend/ent/account_query.go:688-719 | asks once for the distinct keys, if there are any, and gives each node the proxy with its key, without an error |
| NodeResults.IndexById | backend/ent/account_query.go:753-761 | the first loop of a one-to-many load lists all ids and maps each to the last node that has it |
| NodeResults.SpreadChildren | backend/ent/account_query.go:772-782 | each node, found by id, receives its children in the order of the answer; the errors for a nil and for an unexpected key are never returned |
| NodeResults.LoadUsageLogs | backend/ent/account_query.go:785-814 | each node receives the usage logs of its id in the order of the answer, without an error |
| NodeResults.LoadGroups | backend/ent/account_query.go:627-687 | each node receives the groups joined to it, each once; the join stays in the sub-query, and the load panics iff another join was there before and a row arrives |
| NodeResults.CollectGroups | backend/ent/account_query.go:653-671 | the wrapped row callback keeps the first row of each group and records under it exactly the nodes joined to it; it panics on the first row iff the second column is not scanned as an integer |
| NodeResults.SecondColumn | backend/ent/account_query.go:639-657 | behind one join the second column is the group's id, an integer; behind more it is another account id, for which a group has no scan target |
| NodeResults.SpreadGroups | backend/ent/account_query.go:677-685 | the result does not depend on the order in which the inner map is iterated, and the unexpected-node error is never returned |
| AccountQueries.AccountQuery.QuerySpec | backend/ent/account_query.go:858-902 | the spec built step by step holds the id column once and first, the foreign keys that loads need, and the default of unique for a traversal |
| QueryMeaning.IdComesFirst | backend/ent/account_query.go:866-885 | the id is the first of the selected columns and none of the others |
| AccountQueries.AccountQuery.SqlAll | backend/ent/account_query.go:550-625 | the node objects carry the batched result and the builder is left with the filters and joins of the loads; no error arises at any depth, but the panic of a groups load does |
| AccountQueries.AccountQuery.LoadParent | backend/ent/account_query.go:720-751 | fills only the parent of the nodes, from one run of the nested builder, which is not run when there is no key; it fails only if that run does |
| AccountQueries.AccountQuery.LoadChildren | backend/ent/account_query.go:752-784 | fills only the children of the nodes, from one run of the nested builder narrowed to the ids; it fails only if that run does |
| AccountQueries.AccountQuery.AllNodes | backend/ent/account_query.go:307-314 | All returns the batched result of what the builder asked for, as objects that show exactly the selected columns and are flagged with exactly the requested edges, and changes the builder in no other way than the filters and joins left behind, or panics iff a groups sub-query that was loaded before delivers a row |
| AccountQueries.AccountQuery.Where | backend/ent/account_query.go:43-47 | the builder asks for one more predicate and for nothing else |
| AccountQueries.AccountQuery.LockRows | backend/ent/account_query.go:942-963 | a row lock asks for the same rows, except that on Postgres it turns off removal of duplicates |
| AccountQueries.AccountQuery.WithParent | backend/ent/account_query.go:434-441 | the edge is requested with a new builder that the options have configured, replacing an earlier request |
| AccountQueries.AccountQuery.WithChildren | backend/ent/account_query.go:445-452 | the same for the children |
| AccountQueries.AccountQuery.Apply | backend/ent/account_query.go:412-463 | any run of calls, nested to any depth, leaves the builder asking for what the calls say and its footprint grows by new objects only |
| AccountQueries.AccountQuery.Clone | backend/ent/account_query.go:388-408 | the clone asks for the same, shares no builder with its original at any depth, and carries no row lock |
| AccountQueries.AccountQuery.CloneApart | backend/ent/account_query.go:386-408 | any calls on the clone and any calls on the original do not affect each other |
| AccountQueries.AccountQuery.RunClone | backend/ent/account_query.go:386-408 | a clone can be run and returns, or panics, as its original would, without a trace on the original |
| AccountQueries.AccountQuery.First | backend/ent/account_query.go:208-217 | the first of all rows after the offset with its loaded edges, or not-found iff there is none, whatever limit was set; it panics only as All does |
| AccountQueries.AccountQuery.Only | backend/ent/account_query.go:254-267 | the row with its loaded edges if there is exactly one, not-found for none and not-singular for more, whatever limit was set; it panics only as All does |
| AccountQueries.AccountQuery.SqlQuery | backend/ent/account_query.go:904-937 | the selector built step by step: distinct only when asked for, an offset brings a limit that an explicit one overrides |
| AccountQueries.AccountQuery.IDs | backend/ent/account_query.go:326-335 | the ids of the selector path, an error when columns were selected before, and the two changes the call leaves in the builder |
| AccountQueries.AccountQuery.FirstID | backend/ent/account_query.go:230-240 | the first id of the selector path under a limit of one, whatever limit was set; when an id determines its row, the id of the first of all rows |
| AccountQueries.AccountQuery.Exist | backend/ent/account_query.go:365-375 | true iff the selector path finds an id; when an id determines its row, iff All without its limit would find a row |
| QueryPaths.IdsAreIdsOfAll | backend/ent/account_query.go:326-335 | when an id determines its row and no column was selected before, IDs returns the ids of what All returns, if and only if the limit is not an explicit 0 that cuts rows and no offset without limit leaves more than 2147483647 |
| QueryPaths.LimitZeroDiffers | backend/ent/account_query.go:888-890 | with Limit(0) IDs is empty while All returns every row, and a table with a row shows it |
| QueryPaths.SameRows | backend/ent/account_query.go:858-937 | before paging both paths stand for the same rows: duplicates by id are duplicates by row |
| QueryPaths.LimitTakes | backend/ent/account_query.go:208-217 | a limit of n replaces an earlier one and takes the first n rows |
| QueryPaths.ExistNarrowsLater | backend/ent/account_query.go:365-375 | All on a builder after Exist returns at most one account, without data columns |
| EntityCodec.ScanValues | backend/ent/account.go:170-191 | allocates one scan target per column, of the kind its column needs |
| EntityCodec.Entity.AssignValues | backend/ent/account.go:195-425 | assigns column by column up to the first failure; too few values change nothing |
| EntityCodec.NoUnexpectedType | backend/ent/account.go:170-425 | on targets that scanValues allocated for the same columns, no row makes assignValues report an unexpected type |
| EntityCodec.ReadsColumns | backend/ent/account.go:195-425 | for any columns, in any order, repeated or unknown, each selected field has what its cell says and every other field its zero value |
| EntityCodec.BlocksCover | backend/ent/account_create.go:703-829 | no settable column is missing from createSpec |
| EntityCodec.JoinTemplate | backend/ent/accountgroup_create.go:117-182 | an otherwise empty account-group builder contributes its default priority and creation time to every join row |
| EntityCodec.CreateSpecOf | backend/ent/account_create.go:703-882 | the row of the spec reads back through any columns as the mutation says, its edges link exactly the ids the mutation names, a row that joins a group has a priority and a creation time, and the returned account says the same |
| EntityCodec.StoredReads | backend/ent/account_create.go:703-882 | a stored column reads back as the field of the returned account where the creation said something, and is the column default where it did not |
| EntityCodec.RoundTrip | backend/ent/account_create.go:703-882 | storing a creation and reading any columns back gives the returned account iff the defaults of the columns left out read as zero values |
| EntityCodec.CreateAndRead | backend/ent/account_create.go:685-701 | a mutation with all required fields reads back equal to the returned account in every selected field, without an error |
| EntityCodec.RequiredAreValues | backend/ent/account_create.go:606-683 | check demands exactly the fields that cannot be nil, the id aside |
| CreateChecks.CheckExact | backend/ent/account_create.go:606-683 | check passes iff every required field is there and no validator refuses a value |
| CreateChecks.CheckFields | backend/ent/account_create.go:606-683 | the fifteen required and the six validated fields by name |
| CreateChecks.CheckReportsFirst | backend/ent/account_create.go:606-683 | check reports the first column of the table that something is wrong with, as missing or as invalid |
| CreateChecks.DefaultsOnly | backend/ent/account_create.go:541-603 | defaults keep what is set, add only defaults, stop at an uninitialised one, and are idempotent |
| CreateChecks.DefaultAt | backend/ent/account_create.go:541-603 | the fields with a default are the required ones but name, platform and type, and are the ones that defaults goes through |
| CreateChecks.DefaultsComplete | backend/ent/account_create.go:541-683 | defaults sets only unset fields with a default, returns no error iff each of them is set or initialised, and then a valid mutation with a name, a platform and a type passes check |
| CreateChecks.FailedDefaultsFailCheck | backend/ent/account_create.go:541-683 | a builder whose defaults failed does not pass check |
| SingleSave.SameAlone | backend/ent/account_create.go:2168-2177 | without hooks that replace the mutation, a bulk run of one builder and a single save of it write, and return an error, in the same cases |
| SingleSave.AloneChecks | backend/ent/ent.go:575-583 | a single save never writes a row that fails check, whatever its hooks hand on |
| SingleSave.UncheckedRow | backend/ent/account_create.go:2170-2180 | a complete account and a hook that hands on an empty mutation, saved in a bulk: the one batch is the empty row, which check refuses |
| BulkTraces.WritesOnce | backend/ent/account_create.go:2170-2203 | the batch is written at most once, exactly when every hook lets its mutation through, every check passes and the database accepts; success needs moreover that no hook rejects the result |
| BulkTraces.AllOrNothing | backend/ent/account_create.go:2159-2216 | a run fails iff nothing was written, except iff everything passed and a hook then rejects |
| BulkTraces.WrittenAndRejected | backend/ent/account_create.go:2159-2216 | one builder with one hook that rejects what comes back: the run fails and the batch is written |
| BulkTraces.DoneExactly | backend/ent/account_create.go:2193-2202 | a mutation is marked done at most once, exactly when the batch was written and no hook of a later builder rejects the result |
| BulkTraces.FirstFailureWins | backend/ent/account_create.go:2175-2195 | when some builder fails on the way down, the error is that of the first that does: its first rejecting hook, or else its check |
| BulkTraces.DatabaseRefuses | backend/ent/account_create.go:2184-2195 | when all builders pass and the database refuses, the error is the database's |
| BulkTraces.LastRejectionWins | backend/ent/account_create.go:2193-2206 | when the batch was written and hooks reject, the error is that of the innermost rejecting hook of the last builder that has one |
| BulkTraces.Unwinds | backend/ent/account_create.go:2166-2214 | a successful run enters the hooks builder by builder in declared order, writes once, and leaves in exactly the reverse order |
| BulkTraces.WritesAfterDescent | backend/ent/account_create.go:2181-2192 | whenever the batch is written, every hook has been entered and every check has passed before |
| BulkTraces.DescentChecks | backend/ent/account_create.go:2181-2192 | the way down checks every builder |
| BulkCreate.AccountCreate.SetDefaults | backend/ent/account_create.go:541-603 | after defaults without an error every required field but name, platform and type is there; what was set stays, and what was added is the default of such a field |
| BulkCreate.AccountCreate.RunCheck | backend/ent/account_create.go:606-683 | the ordered checks return the error of the first that fails |
| BulkCreate.AccountCreateBulk.Wrap | backend/ent/account_create.go:2204-2206 | hooks wrap from the last to the first, so that the first declared is outermost |
| BulkCreate.AccountCreateBulk.SetUp | backend/ent/account_create.go:2166-2209 | before any mutator is called every builder has its defaults, errors dropped, and every slot of the mutators is stored |
| BulkCreate.BulkRun.Mutate | backend/ent/account_create.go:2170-2206 | a mutator called when the slots before it are filled produces the trace, the error, the one write and the marks that the chain prescribes; it ends because builders and hooks get fewer |
| BulkCreate.BulkRun.RunCore | backend/ent/account_create.go:2170-2203 | the body of one builder's mutator: check, fill the slots, call the next or the database, then mark |
| BulkCreate.BulkRun.BatchCreate | backend/ent/account_create.go:2184-2191 | the write needs every slot filled and hands over the specs of all builders in order; the ids go to the specs |
| BulkCreate.BulkRun.Finish | backend/ent/account_create.go:2196-2201 | the pointer stored in the mutation before the id is known reads that id afterwards |
| BulkCreate.BulkRun.ReadsId | backend/ent/account_create.go:2180-2202 | after a successful run, whatever builders and hooks there are, the mutation a builder holds is done and points to the account of the first builder that was handed it, with that account's id |
| BulkCreate.BulkRun.ReadsOwnId | backend/ent/account_create.go:2180-2202 | when the ids differ, a builder's mutation reads the id of its own spec iff no earlier builder was handed the same mutation and the builder received no other one at a later place |
| BulkCreate.BulkRun.ArrivesAs | backend/ent/account_create.go:2166-2206 | when no builder stands twice, what it holds in the end is the mutation of its last replacing hook, or else its own |
| SingleSave.SharedMutation | backend/ent/account_create.go:2180-2202 | two builders whose hooks hand on the same mutation: both read the id of the first account |
| BulkCreate.AccountCreateBulk.Save | backend/ent/account_create.go:2159-2216 | the whole run: trace and error as prescribed; one batch, whose row for builder j reads back as the mutation that reached builder j says and links what it names, and which passes check unless a hook of its builder handed it on; on success every account says what its mutation says with the id of its spec, and every mutation is done and points to the account of the first builder it arrived at; each builder holds the mutation that stood there when the last check passed; without a write no mutation is marked |
| BulkCreate.BulkRun.RowReadsBack | backend/ent/account_create.go:2180-2202 | reading a written row back, through any columns, gives the returned account iff the defaults of the columns the mutation says nothing of read as zero values |
| BulkCreate.BulkRun.WritesExactly | backend/ent/account_create.go:2170-2203 | the batch is written iff the database accepts, all hooks let through, and the mutation each builder points to when its turn comes passes check |
| BulkCreate.BulkRun.RowsChecked | backend/ent/account_create.go:2170-2192 | for any number of builders, a written row passes check unless a hook of its builder replaced the mutation |
| BulkCreate.BulkRun.UncheckedRows | backend/ent/account_create.go:2170-2192 | a written batch holds a row that fails check iff everything gets through and the last replacing hook of some builder hands on a mutation that fails it |
| BulkCreate.BulkRun.PointsToOwn | backend/ent/account_create.go:2166-2180 | when no builder stands twice in the bulk, each is checked on the mutation it started with |
| BulkCreate.HandedLast | backend/ent/account_create.go:2170-2206 | the mutation that arrives is that of the last replacing hook, or the builder's own without one |
| EdgeUpdate.AccountMutation.AddEdgeIds | backend/ent/mutation.go:3937-3944 | the ids join the additions of this edge |
| EdgeUpdate.AccountMutation.RemoveEdgeIds | backend/ent/mutation.go:3957-3965 | the ids leave the additions and join the removals |
| EdgeUpdate.AccountMutation.ClearEdgeIds | backend/ent/mutation.go:3947-3949 | the edge is marked cleared and its additions stay |
| EdgeUpdate.AccountMutation.ResetEdgeIds | backend/ent/mutation.go:3984-3988 | nothing of the edge's changes remains |
| EdgeUpdate.AccountMutation.ChangeUnique | backend/ent/mutation.go:3991-4015 | the calls on an edge with one neighbour, including the two flags that count as cleared |
| EdgeUpdate.Keys | backend/ent/mutation.go:3968-3981 | ranging over a set of ids yields each once, in whatever order |
| EdgeUpdate.EmitEdges | backend/ent/account_update.go:976-1180 | the loops emit for each edge the clear and add specs of its changes and nothing else; the text of the second builder at 2173-2377 is the same |
| EdgeUpdate.UpdateMeans | backend/ent/account_update.go:2173-2377 | all clears and then all adds leave each edge with (nothing if cleared, else the old without the removed) and the added, in whatever order ids were ranged over; an empty removal clears nothing; other accounts keep their links |
| EdgeUpdate.EmittedFields | backend/ent/account_update.go:1010-1033 | the specs of the groups edge carry the default priority and creation time of a join row, those of the other edges nothing |
| EdgeUpdate.HistoryMeans | backend/ent/mutation.go:3937-3988 | what an update does to an edge is what its calls say one after the other, plus the stale additions, which are disjoint from it |
| EdgeUpdate.HistoryExact | backend/ent/mutation.go:3937-3988 | the update means what its calls say, whatever was stored, iff no addition is stale |
| EdgeUpdate.StaleMeans | backend/ent/mutation.go:3937-3988 | an addition is stale iff some clear follows it and no later call mentions the id |
| EdgeUpdate.ClearAfterAdd | backend/ent/mutation.go:3947-3949 | adding a group and clearing the groups leaves the added group |
| EdgeUpdate.UniqueHistoryExact | backend/ent/mutation.go:2792-2838 | for an edge with one neighbour the last call decides, iff an edge clear does not follow a neighbour still set and a reset does not leave the other clear flag |
| EdgeUpdate.ChangesOneMean | backend/ent/mutation.go:2792-2838 | neighbour and flags by the last calls that settle them: an edge clear sets the foreign key's flag as well and leaves the neighbour |
| EdgeUpdate.ResetEdgeAfterClear | backend/ent/mutation.go:2792-2838 | resetting the edge after clearing it leaves the foreign key's flag, and clears the edge |
| EdgeUpdate.ClearEdgeAfterSet | backend/ent/mutation.go:2792-2838 | setting a neighbour and clearing the edge leaves the neighbour |
| EdgeUpdate.UpdateOneColumns | backend/ent/account_update.go:2004-2015 | the id comes first and once, the other requested columns follow as they were given, the first unknown one is refused by name |
| PyText.LinesOfUnlines | tools/check_pnpm_audit_exceptions.py:27-28 | reading a file line by line undoes writing it line by line, with either line end |
| PyText.StripPadded | tools/check_pnpm_audit_exceptions.py:29-29 | strip removes the spaces around a text and nothing else |
| ExceptionList.ParseExceptions | tools/check_pnpm_audit_exceptions.py:23-48 | the loop over the lines with its current entry, and the crash of an item without a colon |
| ExceptionList.CrashExact | tools/check_pnpm_audit_exceptions.py:34-41 | reading a file crashes iff an item's own line has text without a colon |
| ExceptionList.ItemWithoutColon | tools/check_pnpm_audit_exceptions.py:34-41 | the one line "- foo" crashes it |
| ExceptionList.RoundTrip | tools/check_pnpm_audit_exceptions.py:12-48 | parsing a printed list of non-empty entries gives the same entries back, for any values on one line and all keys that can stand in their place: bare, in single or in double quotes, however lines are indented and colons set off, and whatever blank, comment, version, exceptions or colon-less lines stand between, and pairs before the first item |
| ExceptionList.BareLine | tools/check_pnpm_audit_exceptions.py:12-20 | a value without quotes keeps its first and last characters |
| ExceptionList.EntryHolds | tools/check_pnpm_audit_exceptions.py:43-45 | the entry of a printed item holds each key's last value |
| AuditReport.IterVulns | tools/check_pnpm_audit_exceptions.py:64-111 | the generator raises iff the report is no object or one of its entries raises, and yields one tuple per advisory and then one per identifier there is of each package, in order, up to the first entry that raises |
| AuditReport.YieldsAll | tools/check_pnpm_audit_exceptions.py:64-111 | a report that does not raise yields the tuples of all its advisories and all its packages |
| AuditReport.YieldOne | tools/check_pnpm_audit_exceptions.py:83-111 | a package raises iff it is no object or a title of its via is there but no string, and otherwise yields its name and severity with each identifier that is there, in order |
| AuditReport.PickRaises | tools/check_pnpm_audit_exceptions.py:51-61 | choosing an identifier raises iff there is neither advisory id nor URL and cves is there without a first element |
| AuditReport.PickFirst | tools/check_pnpm_audit_exceptions.py:51-61 | otherwise it is the first of the seven candidates that is there, or the last |
| AuditReport.AdvisoryNamed | tools/check_pnpm_audit_exceptions.py:64-78 | the tuple of an advisory has the first of module name and name, its severity and that identifier |
| AuditReport.TruthyMeans | tools/check_pnpm_audit_exceptions.py:51-61 | everything is there but null, false, zero and what is empty |
| AuditReport.SecondShapeIdentified | tools/check_pnpm_audit_exceptions.py:80-111 | a tuple is yielded by the second shape iff it holds the name and severity of some package and an identifier that is there in its via |
| AuditReport.ListYields | tools/check_pnpm_audit_exceptions.py:83-111 | a package with a list yields exactly the identifiers there are of its items: of a string itself, of an object the first of five keys |
| AuditReport.OtherViaYields | tools/check_pnpm_audit_exceptions.py:83-111 | a package with a string yields it, and without via or with anything else nothing |
| AuditReport.PackageRaises | tools/check_pnpm_audit_exceptions.py:83-111 | a package raises iff it is no object or an object in its list has a title, the first of four keys, that is there but no string |
| AuditGate.CheckEntry | tools/check_pnpm_audit_exceptions.py:156-174 | an exception gets its index entry iff it has all required fields, a valid date and a non-empty package and advisory |
| AuditGate.BuildIndex | tools/check_pnpm_audit_exceptions.py:153-185 | the index holds the first exception of each key, and there is no error iff every exception can be indexed and no two share a key |
| AuditGate.Scan | tools/check_pnpm_audit_exceptions.py:187-219 | the keys without and with an expired exception, each where it first occurs, and no error iff no tuple lacks an advisory or disagrees about severity there |
| AuditGate.RunGate | tools/check_pnpm_audit_exceptions.py:142-243 | the exit code is 0 iff reading raises nowhere, the list is in order, and every named tuple of severity high or critical has an advisory and, unless an earlier one is of the same package and advisory, an exception of blank or equal severity that has not expired; severity, package and advisory as stripped, and the first and last lowered, texts |
| AuditGate.PassesMeans | tools/check_pnpm_audit_exceptions.py:114-216 | the same of the verdict of the index and the scan |
| AuditGate.ClearedExact | tools/check_pnpm_audit_exceptions.py:193-243 | the three lists of the scan are empty iff every key is covered |
| AuditGate.ListedOnce | tools/check_pnpm_audit_exceptions.py:190-219 | each key is listed at most once across the missing and the expired |
| AuditGate.ListedAre | tools/check_pnpm_audit_exceptions.py:203-219 | the missing keys are those sighted without an exception, the expired ones those whose exception has expired |
| AuditGate.MoreNeverHelps | tools/check_pnpm_audit_exceptions.py:193-219 | appending tuples never turns a failure into a pass |
| AuditGate.LongerNeverPasses | tools/check_pnpm_audit_exceptions.py:64-111 | the exit code of a report that goes on where another ends is 0 only if that of the other is |
| AuditGate.EarlierTupleHelps | tools/check_pnpm_audit_exceptions.py:203-216 | an earlier tuple of the same key can turn a failure into a pass |
| AuditGate.PassedBefore | tools/check_pnpm_audit_exceptions.py:188-219 | a pass on one day is a pass on every earlier day |
| AuditGate.SeenFilterExact | tools/check_pnpm_audit_exceptions.py:203-206 | dropping the filter of seen keys changes the verdict of the scan iff it is quiet and a later tuple of some key disagrees with the exception about severity |
| AuditGate.FilterDecides | tools/check_pnpm_audit_exceptions.py:203-216 | a report that passes also passes without the filter iff no later tuple of a key disagrees with its exception about the severity, and the filter never fails a report |
| AuditGate.SeenFilterHarmless | tools/check_pnpm_audit_exceptions.py:203-206 | with equal severities for equal keys the filter never matters |
| AuditGate.SeenFilterHides | tools/check_pnpm_audit_exceptions.py:203-206 | a package first high and then critical, with an exception for high, passes only because of the filter |
| AuditGate.QuietIsCleared | tools/check_pnpm_audit_exceptions.py:193-219 | the scan is quiet iff every key is covered |

## Left out

- The selector and graph libraries, drivers, contexts, transactions: an abstract table with filter, order, limit, removal of duplicates and batch insert stands for them. A spec's limit of 0 is taken as absent, as the spec holds a plain number, and its offset without a limit is taken not to cut rows at the end.
- Interceptors, the validation of selected columns before a query and errors of the database while reading are not modelled: interceptors are the identity and a query succeeds.
- The sub-queries for proxies, groups and usage logs are values with predicates, order, limit and offset; their own nesting, column selection and uniqueness is the same template as that of accounts.
- The account-groups edge is loaded like usage logs, and `Count`, `GroupBy`, `Aggregate` and the SQL of a traversal live in the library: the rows of a traversal are a given source.
- What a run that panics leaves of the builder and of the nodes is not described; a panic is an outcome here, whoever recovers from it.
- Nil and empty slices are not told apart, and slices are values: builders that share a backing array after an append are not modelled.
- Limits and offsets are not negative.
- AccountQueries.AccountQuery.IDs: a scan of several columns into a list of ids is taken to fail, because the scanning code is in the library.
- EntityCodec.RoundTrip: floats are reals, times are points on a line, and a JSON column is any codec whose decoding undoes its encoding and whose encodings are not empty; merging into a map that is already there does not arise, as entities are new.
- The setters of fields, increments and field clears of an update, upserts, and the `X` variants that panic only forward; they would add easy members.
- A bulk creation takes its database answer and its ids as given; hooks pass on, reject before or after, or hand on another account mutation. A mutation of another type and a hook that changes fields in place are not modelled.
- EdgeUpdate.UpdateMeans: links are sets of pairs; that the database refuses to add a child that already has another parent belongs to the library.
- The wording of errors, the labels built from titles, reading files and arguments are not modelled; `str.lower`, `str` of a JSON value and `date.fromisoformat` are parameters.
- The generated files for the other entities repeat the account template.
