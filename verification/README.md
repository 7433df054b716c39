# Verified model of korrel8r

korrel8r follows correlation rules from some start objects to related objects of other classes. Its
traversal engine runs queries with a pool of workers, adds what they find to one node per class, applies
the rules of the class to every new object, and queues the queries that the rules yield, until nothing is
left to do. The result is a graph of the classes and rule lines that produced something. This project
models that engine and the parts around it, and proves what they promise.

`dafny verify dfyconfig.toml` checks everything.

## How the model is laid out

* `Correlation.dfy`: classes, rules, objects, queries; the result containers as functions; and the least
  fixpoint (`DerivedQuery`, `DerivedObject`) that a search is meant to compute, by number of rule applications.
* `Protocol.dfy`: the concurrent engine as a transition system. Any number of workers and the priming
  goroutine, one step per critical section, any interleaving, cancellation at any moment.
* `Accounting.dfy`, `RuleApplication.dfy`, `Queries.dfy`, `Recording.dfy`, `Budget.dfy`, `Rooted.dfy`,
  `Fixpoint.dfy`, `Termination.dfy`, `DepthLimit.dfy`: what every reachable state keeps, and what holds when
  a run ends, one concern a file; `Queries.dfy` has the query counts.
* `Simulation.dfy`, `Sequential.dfy`: the same engine as the imperative code it is, run by one worker that
  starts after priming. Every action of the code is a step of the transition system, so its runs are
  runs of the protocol and all that is proved of those holds of it; besides, it is proved to be an exact
  breadth-first search. `Neighbourhood.dfy`: `neighborScope` loses nothing. `PoolDepth.dfy`, `DepthRace.dfy`:
  for which rules a neighbourhood search is exact under any number of workers, and how two workers make it
  inexact for all others.
* `Walks.dfy`, `Graphs.dfy`, `Results.dfy`: reachability and pruning, the rule multigraph with its cached
  line list, `buildGraph`, and what a goal search ends with after any concurrent run. `Searches.dfy`: the
  two searches as whole programs, run by one worker, with contracts that mention only what the rules
  derive and what the returned graph holds.
* `Stores.dfy`, `Sessions.dfy`, `SessionPool.dfy`: the store holder and the session pool, as code and under
  interleaved callers.
* `Merge.dfy`, `Includes.dfy`, `Names.dfy`, `Containers.dfy`: log merging, configuration includes, full
  names, and growable slices with the containers built on them.

Assumptions, all explicit in the contracts:

* `Engine.Get` and `Rule.Apply` are total functions of the query and of the object: the engine drops their
  errors and keeps what they returned. What a rule yields may be anything.
* `limit` and `maxDepth` are constants of a run. `Engine.Get` fills in the defaults of a constraint in
  place (`pkg/engine/engine.go:139`, `pkg/korrel8r/constraint.go:56-67`), so a run that starts with a
  constraint whose query limit is unset may see the limit appear midway; such runs are not covered.
* The start queries are of the start class (`ValidEnv`), as `pkg/rest/helpers.go:188-233` makes sure.
* The scope is any set of lines. A step that looks at the context may see it cancelled or, if it looked
  earlier, not. `cond.Wait` and the signals are a `Get` step that is enabled when the queue is not empty.
* `seen` maps each admitted query to its item, where the program keeps only the keys; the item, like
  `finished`, `applied` and `born`, is history that no step depends on.
* Where equal IDs must mean something: `RespectsIds` (objects with one ID lead to the same queries) for
  the fixpoint, `InjectiveIds` (they are equal) for confluence of the object sets.
* No store is made twice: what a constructor returns is not an instance that the holder had before
  (`Stores.Enabled`), so that comparing instances tells a stale failure from a current one.
* `NamesApart`: there are enough distinct selectors and objects to build the runs of `DepthRace` from.

What the proofs showed about the code:

* Adding a line with `AddLine`, or dropping nodes with `RemoveEmpty`, does not in general keep the cached
  list equal to the lines of the multigraph: `AddLineTwice` and `RemoveBarrenEnds` are graphs where it does
  not. The contracts of `Graph.AddLine`, `Graph.CopyLine` and `Graph.RemoveEmpty` give the exact conditions,
  and `BuiltHasNoEmpties` shows that the graphs of traversals meet the last.
* `QuerySplit` undoes `QueryJoin` exactly for labels without the forbidden characters and data of one line
  (`SplitJoin`): a query whose data contains a newline is not split (`TwoLinesDoNotSplit`).
* An expired session can outlive its timeout, since cleanup runs at most once per timeout and only on
  success (`ExpiredSessionStays`). A successful `Get` leaves no expired session exactly if a cleanup was due
  or no other session had expired (`WhenExpiredSessionsGo`); in any case none has then been idle for twice
  the timeout (`IdleSessionsExpire`).
* With several workers a neighbourhood search may miss queries that the rules derive within its depth,
  uncancelled and without a query limit: one worker claims an object that another found at a lesser
  depth, and drops what follows from it as too deep. It may also run queries that are not derivable
  within the depth, when a worker claims early what another found at a greater depth. The pool is exact,
  whatever the data and the interleaving, exactly if no line in scope starts where a walk of `depth`
  lines in scope ends (`WhenPoolsAreExact`); for all other rules `PoolMayMissQueries` and
  `PoolMayAddQueries` build data and runs of two workers that miss a query and add one, the smallest case
  being one rule from a class to itself, followed once (`LoopIsNotLevelled`). Whatever the rules, only
  queries derivable within the scope, of classes at most `depth` lines away, are run (`OnlyDerivable`,
  `PoolWithinHops`), and the search ends (`LimitedAlwaysReturns`). With one worker that starts after
  priming the depths are exact.

## Model

| member | source | states |
|---|---|---|
| Correlation.AddAllAppends | pkg/result/result.go:27-57 | adding objects only appends, invents nothing, and leaves every added object's key present |
| Correlation.AddAllDedups | pkg/result/result.go:27-57 | a Set never holds two objects with one ID, and has the ID of every object it was given; a List holds all it was given, in order |
| Correlation.AddsNewIds | pkg/result/result.go:27-57 | adding an object changes nothing exactly if the class has IDs and its ID is there; otherwise it appends the object |
| Protocol.ShapeAlong | pkg/engine/traverse/traverse.go:268-304 | in every state of every run, goroutine roles, items, captured windows and node tables are in order, and only workers take items |
| Protocol.StepGrows | pkg/engine/traverse/traverse.go:410-418 | no step removes or changes an object of a result list, or moves a cursor back |
| Accounting.WaitGroupExact | pkg/engine/traverse/traverse.go:279-300 | in every reachable state the WaitGroup count is the queued items plus the tokens goroutines hold (sentinel, items, sends between Add and put); it is positive whenever a send is about to Add |
| Accounting.ShutdownLosesNothing | pkg/engine/traverse/traverse.go:297-301 | once Wait has returned the queue is empty, nobody holds work, only the shutdown can go on, and every admitted query was finished exactly once |
| RuleApplication.NeverAppliedTwice | pkg/engine/traverse/traverse.go:458-475 | under any interleaving no rule is applied twice to an object |
| RuleApplication.ExactlyOnce | pkg/engine/traverse/traverse.go:458-491 | at shutdown every result list is claimed to its end, and in an uncancelled run the applications made are exactly one per object and rule in scope |
| Recording.NodeCountsConserved | pkg/engine/traverse/traverse.go:410-418 | in every reachable state a node's query counts sum to its objects less its start objects, and line counts agree with node counts |
| Recording.CountsConserved | pkg/engine/traverse/traverse.go:410-424 | at shutdown each query is on at most one line, and the totals of the incoming lines and of the start queries make up the node's total |
| Recording.TotalsByLine | pkg/graph/data.go:202-209 | a node's total splits into its start queries' and its lines' totals, line by line |
| Recording.RecordedStays | pkg/engine/traverse/traverse.go:416-417 | a recorded count never changes |
| Budget.QueryBudget | pkg/engine/traverse/traverse.go:390-392 | with a query limit, no interleaving records more queries for a class than the limit plus the number of workers |
| Budget.OnlyFullClassesMiss | pkg/engine/traverse/traverse.go:390-392 | after a run that was not cancelled, an admitted query that was not recorded is of a class that recorded more queries than the limit |
| Fixpoint.OnlyDerivable | pkg/engine/traverse/traverse.go:349-376 | any run, limited or cancelled or not, admits only derivable queries and collects only derivable objects |
| Fixpoint.ComputesLeastFixpoint | pkg/engine/traverse/traverse.go:268-304 | every unlimited run, with any number of workers, ends with exactly the derivable queries and, up to IDs, exactly the derivable objects |
| Fixpoint.Confluence | pkg/engine/traverse/traverse.go:268-304 | any two unlimited runs end with the same queries and the same objects for every class |
| Fixpoint.FinalIsClosed | pkg/engine/traverse/traverse.go:379-491 | the final state is closed under Get and the rules in scope |
| Termination.NeverStuck | pkg/engine/traverse/traverse.go:147-179 | before the traversal returns some goroutine can always step: no deadlock |
| Termination.AlwaysReturns | pkg/engine/traverse/traverse.go:268-304 | if finitely many queries are derivable, every traversal returns, on cyclic rules too |
| Termination.StepDecreases | pkg/engine/traverse/traverse.go:349-376 | every step lowers a lexicographic measure: whether the run can still be cancelled, then the derivable queries not yet seen, then the work under way |
| DepthLimit.LimitedAlwaysReturns | pkg/engine/traverse/traverse.go:268-304 | with a depth limit every traversal returns, by any number of workers under any interleaving, however many queries are derivable |
| DepthLimit.RanksFall | pkg/engine/traverse/traverse.go:349-352 | with a depth limit every step lowers the work at the levels of depth, the shallowest level it changes first |
| DepthLimit.NoInfiniteDescent | pkg/engine/traverse/traverse.go:349-352 | work over finitely many levels cannot fall forever, shallow levels first |
| Rooted.GuardDropsNothing | pkg/engine/traverse/traverse.go:329-345 | in every reachable state a line is in the graph exactly if its total is positive: the guard on missing ends drops nothing |
| Rooted.ResultGraphRooted | pkg/engine/traverse/traverse.go:307-346 | after any run each class of the graph is reached from the start class along lines of the graph |
| Simulation.Step | pkg/engine/traverse/traverse.go:268-304 | a step one goroutine can take leads from a reachable state to a reachable state |
| Simulation.SendStep | pkg/engine/traverse/traverse.go:349-361 | what `dedupAndSend` does to an item is what the protocol's drop, or admit, count and put steps do together |
| Simulation.RecordStep | pkg/engine/traverse/traverse.go:410-418 | adding a query's results and setting its count is the protocol's record step |
| Simulation.Finish | pkg/engine/traverse/traverse.go:298-301 | with the count at zero and the queue empty, wait, close and join run to the end |
| Sequential.Traverser.constructor | pkg/engine/traverse/traverse.go:210-252 | an engine starts blank, at the initial state of the protocol |
| Sequential.WorkQueue.Put | pkg/engine/traverse/traverse.go:160-165 | puts at the back |
| Sequential.WorkQueue.Get | pkg/engine/traverse/traverse.go:167-179 | takes from the front; nothing only if empty |
| Sequential.Traverser.IsDuplicate | pkg/engine/traverse/traverse.go:363-376 | reports whether the query was seen and marks it |
| Sequential.Traverser.DedupAndSend | pkg/engine/traverse/traverse.go:349-361 | drops or admits the item as the protocol does, changing nothing else |
| Sequential.SentKeeps | pkg/engine/traverse/traverse.go:349-361 | sending an item no shallower than the queue keeps the queue in order of depth, the count exact and every admitted query derivable at its depth |
| Sequential.Traverser.Claim | pkg/engine/traverse/traverse.go:461-469 | captures the list and claims it to its end |
| Sequential.Traverser.ApplyRules | pkg/engine/traverse/traverse.go:461-491 | claims the rest of the list and leaves every claimed object expanded: all its follow-up queries within the depth limit admitted, no deeper than one below it |
| Sequential.Traverser.OverLimit | pkg/engine/traverse/traverse.go:448-456 | whether the node has recorded more queries than the limit |
| Sequential.Traverser.Record | pkg/engine/traverse/traverse.go:410-418 | adds the results and sets the query's count to the number that were new |
| Sequential.Traverser.SetLine | pkg/engine/traverse/traverse.go:420-424 | sets the same count on the line the query came along, if any, and on no other line, as the protocol does |
| Sequential.Traverser.FetchResults | pkg/engine/traverse/traverse.go:394-418 | leaves the query fetched: every result's key is present no deeper than the query |
| Sequential.Traverser.RunQuery | pkg/engine/traverse/traverse.go:394-446 | brings the search to rest: the query's results are in and expanded, as steps of the protocol |
| Sequential.Traverser.HandleQuery | pkg/engine/traverse/traverse.go:379-446 | keeps the search at rest between items, gives back one count, and puts the worker back in get |
| Sequential.Traverser.Run | pkg/engine/traverse/traverse.go:268-304 | ends in the tables of a returned run of the protocol, with the queue empty and closed and, without a query limit, everything admitted fetched and everything fetched expanded; finitely many queries within the depth limit suffice |
| Sequential.AddLabelled | pkg/engine/traverse/traverse.go:410-418 | new objects are derivable at the current depth, and each result's key is present no deeper than that |
| Sequential.ExactBreadthFirst | pkg/engine/traverse/traverse.go:349-352 | a finished search admitted exactly the queries derivable within maxDepth, each at its least depth |
| Neighbourhood.WalkScope | pkg/engine/traverse/traverse.go:68-86 | the breadth-first walk collects exactly the lines whose start class is fewer than depth lines from the start |
| Neighbourhood.DistExact | pkg/engine/traverse/traverse.go:68-86 | the walk dequeues every class within the depth at a distance no larger than any path to it |
| Neighbourhood.ScopeLosesNoQuery | pkg/engine/traverse/traverse.go:57-86 | within the depth limit, the scoped rules derive exactly the queries that all rules derive |
| Neighbourhood.NeighborsExact | pkg/engine/traverse/traverse.go:57-65 | a neighbourhood search finished by one worker admitted exactly the queries all rules derive within depth, each at its least depth |
| Neighbourhood.PoolWithinHops | pkg/engine/traverse/traverse.go:57-86 | under any number of workers and any interleaving, a neighbourhood search runs only queries of classes at most depth lines from the start class |
| PoolDepth.DepthsWalkAlong | pkg/engine/traverse/traverse.go:461-491 | under any interleaving, the depth of every item is the length of a walk along lines in scope from the start class to the item's class |
| PoolDepth.RunsSame | pkg/engine/traverse/traverse.go:349-352 | if no line starts where a walk of depth lines ends, every run with the depth limit is a run without it |
| PoolDepth.LevelledIsExact | pkg/engine/traverse/traverse.go:57-65 | if no line in scope starts where a walk of depth lines in scope ends, a neighbourhood search by any number of workers under any interleaving, without a query limit and not cancelled, admits exactly the queries and holds exactly the objects that all the rules derive within depth |
| DepthRace.PoolMayMissQueries | pkg/engine/traverse/traverse.go:349-352 | for any other rules there are data for which two workers can end the search, uncancelled, without a query derivable within depth |
| DepthRace.PoolMayAddQueries | pkg/engine/traverse/traverse.go:461-491 | and data for which two workers can end it with a query that is not derivable within depth |
| DepthRace.WhenPoolsAreExact | pkg/engine/traverse/traverse.go:57-65 | neighbourhood searches by any number of workers, without a query limit and not cancelled, are exact for all data and interleavings exactly if no line in scope starts where a walk of depth lines in scope ends |
| Neighbourhood.OneWorkerAgrees | pkg/engine/traverse/traverse.go:275-284 | without limits, one worker admits what any number of workers under any interleaving admit |
| Graphs.Data.constructor | pkg/graph/data.go:36-42 | IDs and UIDs are positions, classes and IDs correspond one to one, and there is a line from class to class for a rule exactly if the one is among its starts and the other among its goals |
| Graphs.Data.AddRule | pkg/graph/data.go:44-55 | appends one line for each start and goal of the rule, from the start to the goal, starts outermost |
| Graphs.LinesInOrder | pkg/graph/data.go:36-55 | the lines of a rule follow those of the rules before it, and run from its starts to its goals, starts outermost |
| Graphs.Data.AddClass | pkg/graph/data.go:58-71 | the one node of the class; a new class gets a new node with the next ID |
| Queries.SumCounts | pkg/graph/data.go:202-209 | the sum of the counts, in whatever order the map is visited |
| Graphs.AgreesAdd | pkg/graph/graph.go:197-200 | adding a line keeps cache and multigraph in agreement exactly if its UID is fresh between its ends |
| Graphs.AgreesKept | pkg/graph/graph.go:242-249 | filtering cache and multigraph alike keeps them in agreement |
| Graphs.KeptInOrder | pkg/graph/graph.go:165-173 | filtering a line list keeps its order |
| Graphs.AgreesAfterRemoval | pkg/graph/graph.go:214-218 | removing nodes from the multigraph alone keeps agreement exactly if no cached line ended at one |
| Graphs.WiredAdd | pkg/graph/graph.go:197-200 | setting a line and its ends leaves a well-formed multigraph exactly if the line joins on to the nodes that its neighbours know |
| Graphs.Graph.AddLine | pkg/graph/graph.go:197-200 | sets any line between its ends' IDs at its UID, with its ends as nodes, and caches it; the cache agrees afterwards exactly if the UID was fresh between the ends |
| Graphs.AddLineTwice | pkg/graph/graph.go:197-200 | a line added twice is cached twice: the cache no longer agrees |
| Graphs.Graph.CopyNode | pkg/graph/graph.go:120-128 | one shared copy per node, with its ID and no results |
| Graphs.Graph.CopyLine | pkg/graph/graph.go:131-136 | a copy with the same UID, rule and ends, cached and set, with empty counts; the cache agrees afterwards exactly if the graph had no copy yet |
| Graphs.Graph.RemoveEmpty | pkg/graph/graph.go:203-219 | keeps exactly the nodes with objects, in the list exactly the lines one of whose queries found something, in the multigraph those of them whose ends are kept; the cache agrees afterwards exactly if no line with results ended at a node without |
| Graphs.RemoveBarrenEnds | pkg/graph/graph.go:203-219 | a line with results between nodes without any stays in the cache alone |
| Graphs.Graph.RemoveEmptyGoalPaths | pkg/graph/graph.go:221-250 | keeps exactly the nodes that reach a goal with results, and the lines between them, in graph and cache |
| Graphs.Select | pkg/graph/graph.go:165-173 | a new graph of copies of exactly the kept lines, in order, UIDs unchanged, with no nodes but their ends |
| Walks.WalkSurvives | pkg/graph/graph.go:221-250 | a walk to a node that reaches a goal stays inside the pruned graph |
| Walks.GoalSurvives | pkg/graph/graph.go:221-250 | every node left still reaches a goal inside the pruned graph |
| Walks.PruneTwice | pkg/graph/graph.go:221-250 | pruning twice equals pruning once, and goals are never pruned |
| Results.FullGraph | pkg/graph/data.go:84-93 | fresh copies of every line and every node, without results or counts, cache in agreement |
| Results.BuildGraph | pkg/engine/traverse/traverse.go:307-346 | a node for exactly the classes with objects that the topology knows, with their objects and counts, and a line for exactly the keys one of whose queries found something between such classes, with its counts and the UID and rule of the topology, cache in agreement |
| Results.BuildLine | pkg/engine/traverse/traverse.go:329-344 | adds the line of one key between the nodes of its classes |
| Results.WantsGraphLines | pkg/engine/traverse/traverse.go:329-336 | the tests of buildGraph pick exactly the lines of the result graph |
| Results.BuiltHasNoEmpties | pkg/engine/traverse/traverse.go:310-333 | the graph of a traversal has no empty node or line, so RemoveEmpty is harmless on it |
| Searches.Traverse | pkg/engine/traverse/traverse.go:268-304 | the graph of one worker's traversal is that of a finished run of the protocol |
| Searches.BuiltHolds | pkg/engine/traverse/traverse.go:307-346 | after any unlimited run, a class has a node exactly if some object of it is derivable, and the node holds exactly those objects |
| Searches.Goals | pkg/engine/traverse/traverse.go:40-54 | by one worker started after priming: fails exactly if the start class or a goal is unknown; the graph is rooted, leads to goals from every node and cannot be pruned further; without a query limit the goals in it are exactly those with derivable objects, and every node holds exactly the derivable objects of its class |
| Searches.PoolGoals | pkg/engine/traverse/traverse.go:46-53 | with the scope chosen, the graph returned after any uncancelled run, by any number of workers under any interleaving, is what Goals promises: rooted, leading to goals from every node, and without a query limit holding exactly the goals and objects derivable |
| Searches.Neighbors | pkg/engine/traverse/traverse.go:57-65 | by one worker started after priming: always ends, fails exactly if the start class is unknown; the graph is rooted and, without a query limit, holds exactly the classes and objects that all the rules derive within depth applications |
| Searches.PoolNeighbors | pkg/engine/traverse/traverse.go:57-65 | after any uncancelled run, by any number of workers under any interleaving, the graph is rooted and its classes lie within depth lines; if no line in scope starts where a walk of depth lines in scope ends, it is exact as well |
| Searches.FinitelyMany | pkg/engine/traverse/traverse.go:349-352 | only finitely many queries are derivable in any number of applications |
| Searches.NeighborsHold | pkg/engine/traverse/traverse.go:57-86 | a search over the scoped rules finished by one worker holds exactly the objects that all the rules derive within the depth |
| Results.BuiltIsRooted | pkg/engine/traverse/traverse.go:307-346 | every node of the built graph is reached from the start class's node |
| Results.PrunedIsDirected | pkg/graph/graph.go:221-250 | pruning a rooted graph leaves one that is rooted, leads to goals from everywhere, and cannot be pruned further |
| Results.PruneToGoals | pkg/engine/traverse/traverse.go:40-54 | a goal search ends with exactly the nodes that could reach a goal with results, each on a walk from the start class to such a goal inside the graph left |
| Stores.StoreHolder.ExpandConfig | pkg/engine/stores.go:129-144 | all entries expanded, or the error of one that cannot be |
| Stores.StoreHolder.EnsureLH | pkg/engine/stores.go:110-156 | returns the store, refuses with the last error, or expands every entry and makes an attempt: the store made is kept, a failure is recorded and counted and delays the next attempt by the interval |
| Stores.StoreHolder.AfterGet | pkg/engine/stores.go:86-99 | resets the store, records and counts the error and delays the next attempt exactly if the instance that failed is still held and can be created again |
| Stores.StoreHistory | pkg/engine/stores.go:66-99 | under any interleaving stores are created and reset in turn, none twice, and the error count is failed attempts plus resets |
| Stores.StaleFailureHarmless | pkg/engine/stores.go:86-97 | a failed call resets the store exactly if the instance it used was not reset before; otherwise it changes nothing |
| Stores.StoreOrError | pkg/engine/stores.go:110-156 | ensureLH returns a store or an error, never both and never neither |
| Stores.RetriesArePaced | pkg/engine/stores.go:117-125 | no attempt starts sooner than the interval after an error recorded before it |
| Stores.RetriesResume | pkg/engine/stores.go:117-119 | a configured holder without a store tries again exactly when the interval has passed since every error |
| Stores.RefusedWithLastError | pkg/engine/stores.go:71-75 | the holder keeps the error recorded last, and a call it refuses returns that error |
| Sessions.FactoryOncePerEntry | pkg/session/session.go:132-141 | the factory starts at most once per entry, cleanup or not |
| Sessions.FactoryDecides | pkg/session/session.go:134-141 | an entry has a session ever after exactly if its factory succeeded; if it failed no Get ever returns one from it |
| Sessions.AnswersGiven | pkg/session/session.go:142-151 | a Get returns its entry's session if the factory succeeded and none if it failed |
| Sessions.FreshAfterFailure | pkg/session/session.go:142-146 | a caller whose entry failed leaves a fresh one in its place, which the next Get starts on and may run the factory for |
| Sessions.StaleFailureHarmless | pkg/session/session.go:142-146 | only cleanup takes an entry that did not fail out of the table: a stale failing caller evicts nothing newer |
| Sessions.AnswersMatch | pkg/session/session.go:126-151 | a Get that began when its key had a session returns that one; no Get returns another key's session |
| Sessions.OneSessionPerKey | pkg/session/session.go:126-151 | with cleanup off all successful Gets of a key return one session |
| Sessions.SessionsStay | pkg/session/session.go:126-151 | with cleanup off, once a Get returned a session, every Get that begins later finds it |
| Sessions.NeverStuck | pkg/session/session.go:134-141 | a Get in progress, or the call it waits for, can always step |
| SessionPool.PoolManager.Open | pkg/session/session.go:132-146 | a session is returned exactly if the key had one or its factory succeeds: the one it had, or a new one; a failure leaves a fresh entry; no other key is touched |
| SessionPool.PoolManager.MaybeCleanup | pkg/session/session.go:157-176 | removes exactly the keys whose sessions are idle longer than the timeout, if a timeout has passed since the last cleanup; else changes nothing |
| SessionPool.PoolManager.Get | pkg/session/session.go:126-151 | succeeds exactly if the key had a session or its factory does; then the session is marked used now and cleanup runs if due; a failure leaves everything else alone |
| SessionPool.WhenGetSucceeds | pkg/session/session.go:126-151 | in any sequence of requests, one succeeds exactly if its factory would or the table has a session for its key |
| SessionPool.FailedGetChangesNothing | pkg/session/session.go:143-147 | a failed Get leaves its key without a session, every other key as it was, makes nothing and cleans nothing up |
| SessionPool.RetryAfterFailure | pkg/session/session.go:143-147 | the Get after a failed one of its key succeeds, with a new session, exactly if its factory does |
| SessionPool.SameSession | pkg/session/session.go:126-176 | two Gets of a key at most timeout apart, the first successful, return the same session |
| SessionPool.SessionsIsolated | pkg/session/session.go:126-176 | no session is ever returned for two keys, even after expiry |
| SessionPool.IdleSessionsExpire | pkg/session/session.go:153-176 | after a successful Get no session has been idle for twice the timeout |
| SessionPool.ExpiredSessionStays | pkg/session/session.go:157-176 | three requests after which a session idle beyond the timeout is still in the table |
| SessionPool.WhenExpiredSessionsGo | pkg/session/session.go:157-176 | a successful Get leaves no expired session exactly if a cleanup was due or no session but its own had expired |
| Merge.FindLatest | internal/pkg/loki/loki.go:144-150 | the newest head, lowest stream first among equals, or none |
| Merge.CollectSorted | internal/pkg/loki/loki.go:141-159 | ends with all streams empty; what was collected is a greedy sequence of picks, each record with the labels of its stream |
| Merge.GreedyInterleaves | internal/pkg/loki/loki.go:141-159 | the records from each stream are as many as it had, in its order, with their times and bodies and the stream's labels |
| Merge.GreedyInOrder | internal/pkg/loki/loki.go:139-159 | the result is newest first exactly if every stream is, and then has equal times in stream order |
| Merge.MergeIsStableSort | internal/pkg/loki/loki.go:139-159 | of all interleavings of newest-first streams, the one in order is the one collected |
| Includes.Loader.Load | pkg/config/configs.go:85-109 | loads what is not loaded yet, each configuration as its source has it; on failure the culprit is the next source in depth-first order, and the failure says whether it is unreadable, invalid, or has a tuning section without being first |
| Includes.LoadAll | pkg/config/configs.go:25-34 | succeeds exactly if every reachable source is readable and valid and none but the root has a tuning section; then each reachable source is there once, in depth-first order, as it is in its file; otherwise the error names a reachable culprit and what is wrong with it |
| Includes.CompleteOrder | pkg/config/configs.go:85-109 | a complete depth-first order has exactly the reachable sources, each once |
| Includes.CompleteOrderUnique | pkg/config/configs.go:102-107 | there is only one such order |
| Names.ClassSplitExact | pkg/korrel8r/names.go:15-26 | ClassSplit matches exactly a domain, a colon and a class, neither empty nor with one of the characters that the expression refuses, and finds them |
| Names.QuerySplitExact | pkg/korrel8r/names.go:15-34 | QuerySplit matches exactly a domain, a colon, a class, a colon and data without a newline, the first two as for classes, and finds them |
| Names.SplitJoin | pkg/korrel8r/names.go:20-42 | splitting undoes joining exactly for labels and data of one line |
| Names.TwoLinesDoNotSplit | pkg/korrel8r/names.go:15-34 | a full name with two lines of data does not match |
| Names.JoinSplit | pkg/korrel8r/names.go:20-42 | joining undoes every successful split |
| Names.NamesDistinct | pkg/korrel8r/names.go:20-42 | distinct queries have distinct names, and no name is both a class's and a query's |
| Containers.Slice.Append | pkg/result/result.go:30-31 | appends, in place or in a new array, without changing what any captured header shows |
| Containers.Slice.Read | pkg/engine/traverse/traverse.go:405-417 | reading through a captured header, however much later, gives the value captured |
| Containers.Deduplicator.Unique | pkg/unique/unique.go:21-28 | true exactly the first time a key is seen |
| Containers.ResultSet.Add | pkg/result/result.go:51-57 | appends the object exactly if no object of the set has its ID, and says so |
| Containers.ResultSet.Append | pkg/result/result.go:46-50 | keeps what is there, adds only given objects, and ends with the ID of each of them, none twice |
| Containers.ResultList.Append | pkg/result/result.go:30 | appends every object, in order |

## Left out

- Exact depths under several workers: `applyRules` may claim objects another worker added at another depth, so depth labels depend on the schedule; where they matter (`DepthRace.WhenPoolsAreExact`), which queries a given schedule misses or adds is not characterised.
- Sequential.Traverser.Run: runs one worker, started after priming and never cancelled; several workers, any interleaving and cancellation are covered by the transition system only.
- Sequential.Traverser.DedupAndSend: the cancellation test is in the transition system only, as this code is never cancelled.
- Sequential.Traverser.ApplyRules: the return on cancellation is in the transition system only.
- Sequential.Traverser.RunQuery: the status rules are left out.
- Sequential.Traverser.HandleQuery: the return on cancellation is in the transition system only, and the status rules are left out.
- Neighbourhood.NeighborsExact: exact for one worker started after priming; for the pool, `DepthRace.WhenPoolsAreExact` says for which rules that holds.
- Searches.Traverse: one worker started after priming; every run of the pool is covered by the theorems on the transition system.
- Searches.Neighbors: exact for one worker started after priming, and for a depth that is not negative; for the pool, see `Searches.PoolNeighbors` (the graph), `DepthRace.WhenPoolsAreExact` (when it is exact) and `DepthLimit.LimitedAlwaysReturns` (it ends).
- Searches.NeighborsHold: speaks of a search finished by one worker, like `Searches.Neighbors`.
- Searches.Goals: takes the scope as given and one worker; `Searches.PoolGoals` has the same promise for the graph of any uncancelled run of the pool.
- Neighbourhood.WalkScope: the walk itself is the library's breadth-first traversal, modelled from its documentation.
- Graphs.Graph.RemoveEmptyGoalPaths: the library's all-pairs shortest paths are a parameter that finds a path exactly if there is one; all weights are finite and not negative.
- `goalScope` and the k-shortest-paths search it calls: library code, so the scope of a goal search is any set of lines.
- Status rules and the status counts they add (`pkg/engine/traverse/traverse.go:427-443`, `pkg/graph/data.go:190-200`), metrics and logging: they do not feed back into the search.
- Graphs.Data.AddClass: the index is by class here, by the class's full name in the source.
- Graphs.Node: nodes and lines get their results and counts when they are made; the model has no writes to them afterwards, and `SharedGraph`'s lazy construction is not modelled.
- Graphs.Graph.RemoveEmpty: the source filters `allLines` into its own backing array; the model's list is a value, so that aliasing is not captured.
- Correlation.AddOne: the model's traversal keeps result lists as sequences; that captured slices of the real, growable lists read the same is proved in `Containers`.
- Containers.ResultList.Append: the variadic append is a sequence of single appends here.
- `unique.DedupList` and `Clear`: not used by the traversal.
- Stores.StoreHolder: closing a reset store, the templates' text and the many stores of a domain are left out; expansion and creation are parameters.
- Sessions.START: authentication, the engine inside a session, and reads of a session while its entry is still being made are left out; expiry is a step that may delete any key at any time.
- SessionPool.PoolManager: `lastUsed` and `lastCleanup` are plain fields, since Gets do not overlap there.
- Includes.LoadAll: `expand` for aliases is left out (its loop ends after one pass over a map in arbitrary order), and so are URLs, file names and YAML; resolving a reference is a parameter.
- Names.LabelChar: strings are sequences of characters; invalid UTF-8 is not modelled, and the regular expressions are explicit scans.
- REST, MCP, command line, TLS, Kubernetes and the domain stores: input and output around the core.
