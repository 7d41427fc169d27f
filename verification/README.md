# Verified models of the PureScript Iris compiler

Dafny models of the parts of Iris whose correctness is hardest to see from the code, with proofs
of what they are for. `dafny verify dfyconfig.toml` verifies the whole project.

## What is modelled

* **The query engine** (`Queries`, `QueryCache`, `QueryVisits`, `QueryEngine`, `StaleFailures`,
  `SnapshotGraph`, `Reuse`, `ConcurrentEngine`, `ConcurrentErrors`, `ConcurrentReuse`). A compute function is a deterministic program: given the answers to its
  reads so far, it reads one more key, returns, or fails. What a query should answer is its
  evaluation from scratch on the current inputs. `QueryEngine` is the engine as one snapshot drives
  it: a class with its inputs, entries and frames, whose methods verify old results, cut
  recomputation off early and recompute. `ConcurrentEngine` lets any number of snapshots take
  turns, one step for each section that a lock protects, with hand-over of entries in progress and
  cycle detection on the wait-for graph of `SnapshotGraph`.
* **Initializer order** (`Graphs`, `Initializers`): the iterative depth-first postorder, strongly
  connected components by a second pass over reverse edges, and cycle marking.
* **The optimizer of the functional tree** (`FunctionalTree`, `TreeFolds`, `Rewrites`, `Meanings`,
  `Substitutions`, `Numbers`, `Evaluations`, `Activities`, `Optimizer`, `LetInlining`,
  `CapturedReads`, `TreeOptimizer`): in-place inlining
  of `let` bindings and folding of negations on a shared arena. An interpretation assigns a meaning
  to every kind of expression from the meanings of its children; it is lawful if it expands a
  `let` that is not recursive and obeys the laws of negation: twice on booleans, modulo 2^32 on
  integers, and by sign on the numbers that literals spell. Meanings are kept in all of them.
  Uses, sizes and free locals are folds too, and so is what makes the worklists terminate.
* **The concurrent interner** (`Interner`): arena, table and overflow chain as one thread drives
  them, and the same with any number of threads, one step for each access to the table, the arena,
  the lock and a link of the chain. The hash is arbitrary.
* **Build plans and their execution** (`PackagePlan`, `Executors`, `ParallelExecutor`): source
  ownership, contraction, condensation into groups, and serial and parallel execution.
* **The language server** (`Preparations`, `Requests`, `ProgressTokens`): attempts to prepare a
  workspace, requests and the responses owed for them, and progress tokens, each with its history.
* **String literals** (`StringLiterals`): the encoding of arbitrary code units into text, with the
  pairing of surrogates as in section 2.2 of RFC 2781.

## Assumptions

* Compute functions are deterministic, end after a bounded number of reads, never make up a
  cycle, and pass a cycle or a missing content on. Foreign content is read by the query of that
  foreign module alone, which reads nothing else. Where a claim needs that compute functions pass
  every error on, it says so.
* A query that has a value is not always answered: an error of a dependency that an old result
  lists, and that is no longer read, is returned as it is
  (compiler-core/building/src/engine.rs:893). `QueryVisits` says when. To answer a query, the
  engine visits what its old result lists and what its compute function calls, and so on. A query
  is threatened if it visits one whose compute function misses a content, and entangled if a visit
  leads back to a query on the way. `StaleFailures` has an example.
* The cancellation flag is lowered only under the write lock, while no snapshot is alive
  (compiler-core/building/src/engine.rs:446-463, 525-529, 951-964). Once a query has seen it raised
  it stays raised until the query ends, so that no cycle is reported afterwards. What each look at
  the flag finds is given to the engine of one snapshot; with many, raising it is a step.
* One thread drives a snapshot, and inputs are written while no snapshot is at work. The transfer
  of a promise and the hand-over of its entry are one step.
* An arena comes with ranks that decrease from an expression to its children, and from an
  occurrence of a local to what a `let` that is not recursive binds it to. They say that the arena
  is acyclic and that such bindings do not refer to themselves; the proofs show that the same ranks
  fit after every rewrite. A local is bound to one expression. The meaning is kept for expressions
  in which no local bound by such a `let` is free.
* A binding that is inlined is not evaluated more often than before, asynchronous programs apart:
  they may be run again, but the optimizer treats their parts like values
  (compiler-backend/functional/src/optimize.rs:394). `CapturedReads` says exactly when a binding is
  read at most once, and has an example.
* Building a package is a function of the package.

## Model

| member | source | states |
|---|---|---|
| `Queries.ValueIsUnique` | compiler-core/building/src/engine.rs:636-680 | Evaluation from scratch gives a query at most one value on given inputs |
| `Queries.CertifiedIsValue` | compiler-core/building/src/engine.rs:636-680 | A run of a compute function whose reads are all answered correctly, and that returns, returns the value of the query from scratch |
| `Queries.CertifiedTransfer` | compiler-core/building/src/engine.rs:685-745 | A result stays right on other inputs on which every recorded dependency reads the same, although reads may depend on earlier answers |
| `Queries.CycleHasNoValue` | compiler-core/building/src/engine.rs:753-763 | A query whose compute function calls itself, through any chain of calls, has no value |
| `QueryCache.CurrentIsValue` | compiler-core/building/src/engine.rs:813-829 | A cached result built at the current revision is the value from scratch on the current inputs |
| `QueryCache.VerifiedAnswer` | compiler-core/building/src/engine.rs:685-745 | A dependency whose change stamp is not newer than a result still reads as when that result was built |
| `QueryCache.Reverified` | compiler-core/building/src/engine.rs:889-920 | A result none of whose dependencies changed since it was built is right as it stands, and may be stamped with the current revision |
| `QueryCache.StoreEntry` | compiler-core/building/src/engine.rs:579-608 | Storing a certified result keeps the cache sound, also when an equal value keeps its old change stamp |
| `QueryCache.Forget` | compiler-core/building/src/engine.rs:551-568 | Dropping cached results keeps the cache sound |
| `QueryCache.TransactionSound` | compiler-core/building/src/engine.rs:925-965 | Any write of inputs that stamps what changed, and drops the results that list a removed input, keeps the cache sound at the next revision |
| `QueryCache.RemoveFileIsTransaction` | compiler-core/building/src/engine.rs:1016-1110 | Removing a file purges every result that lists one of its inputs, so that no removed input is listed |
| `QueryCache.RemoveForeignIsTransaction` | compiler-core/building/src/engine.rs:1126-1154 | The same for the removal of a foreign file |
| `QueryCache.CandidateIsGone` | compiler-core/files/src/lib.rs:58-68 | Exactly the removed foreign file is no candidate any more, and the other candidate keeps its place |
| `QueryEngine.Engine.constructor` | compiler-core/building/src/engine.rs:55-76 | An empty engine is sound |
| `QueryEngine.Engine.Query` | compiler-core/building/src/engine.rs:533-575 | Whatever a query answers, the stack is as before, the cache is sound, the dependency is recorded in the caller's frame, and no entry is left in progress |
| `QueryEngine.Engine.QueryCore` | compiler-core/building/src/engine.rs:796-923 | The branches of the core: cancellation, a hit at the current revision, an entry in progress, a computation, and a verification that falls back to computation |
| `QueryEngine.Engine.CreateFuture` | compiler-core/building/src/engine.rs:747-769 | Asking for a query in progress on the same snapshot gives `Unverifiable` exactly when a frame is verifying, and otherwise a cycle that is real on the current inputs |
| `QueryEngine.Engine.FulfillAndStore` | compiler-core/building/src/engine.rs:579-608 | The result replaces the entry in progress and nothing else |
| `QueryEngine.Engine.VerifyOrCompute` | compiler-core/building/src/engine.rs:889-920 | A previous result is kept exactly as it is if nothing that it lists turns out to have changed, and computed again only if something has or a query in progress was met; a settled one takes no run of a compute function |
| `QueryEngine.Engine.VerifyCore` | compiler-core/building/src/engine.rs:685-745 | Every dependency is brought up to date, the latest change among them is returned and is the change of one of them, and an error is a definite error of some dependency |
| `QueryEngine.Engine.ComputeCore` | compiler-core/building/src/engine.rs:636-680 | A computed value is stored with the dependencies that were read, and with the change stamp of the previous result exactly if the value is equal; failures are not cached |
| `QueryEngine.Engine.RunCompute` | compiler-core/building/src/engine.rs:636-680 | The compute function gets the right answer to every read and ends with its value from scratch, or fails; a content that it reports missing is one that it, or a query that it visits, says is missing |
| `QueryEngine.Engine.SetInput` | compiler-core/building/src/engine.rs:925-965 | An input is written at a new revision; an equal value changes nothing, not even the revision |
| `QueryEngine.Engine.RemoveFile` | compiler-core/building/src/engine.rs:1016-1110 | The inputs, registrations and results of a file are gone and every other result is kept |
| `QueryEngine.Engine.RemoveForeignFile` | compiler-core/building/src/engine.rs:1126-1154 | The content, candidacies and results of a foreign file are gone and every other result is kept |
| `QueryEngine.Engine.Ask` | compiler-core/building/src/engine.rs:533-575 | An answer is the value from scratch; a cycle is real and starts at the query; `Unverifiable` is never reported; a reported missing content is the one that a visited query misses, and `Cancelled` is reported only if the flag was raised in the meantime. Without cancellation, a query that is not threatened is answered exactly if it has a value, and one that is not entangled exactly if it is not threatened. A settled query is answered without running a compute function; stamps say when a value changed; early cutoff keeps what lists nothing changed |
| `QueryEngine.Engine.Run` | compiler-core/building/src/engine.rs:533-1154 | Over every run of writes, removals and queries, every answer is truthful about the inputs left by the operations before, cycles and the file of a missing content included; while no content is missing, a query that is not cancelled is answered exactly if it has a value; without a raised flag nothing is cancelled |
| `QueryEngine.AskedIsThrifty` | compiler-core/building/src/engine.rs:889-920 | A query all of whose dependencies, at any distance, are unchanged since their dependents saw them is answered by its old value without any run of a compute function; an answer leaves its query settled |
| `QueryEngine.RemovalIsExact` | compiler-core/building/src/engine.rs:1016-1110 | A removed file takes with it exactly the results that belong to it or list something of it or a module that only it registered |
| `Reuse.KeepsSettled` | compiler-core/building/src/engine.rs:889-920 | Verifying some of a set of settled results leaves the whole set settled |
| `Reuse.CurrentIsSettled` | compiler-core/building/src/engine.rs:579-608 | A result that is current is settled, with all that it depends on |
| `Reuse.UnrelatedWrite` | compiler-core/building/src/engine.rs:925-965 | Writing an input that none of a set of settled results lists leaves the set settled, so that asking again computes nothing |
| `Queries.CallsAreListed` | compiler-core/building/src/engine.rs:425-429 | A certified result lists every query that its compute function calls |
| `Queries.ListedWasRead` | compiler-core/building/src/engine.rs:425-429 | A certified result lists nothing that no run of its compute function reads |
| `QueryVisits.LaterThreat` | compiler-core/building/src/engine.rs:889-893 | Bringing results up to date threatens no query with a missing file that did not threaten it before |
| `QueryVisits.ThreatStays` | compiler-core/building/src/engine.rs:889-893 | A threat stays, with the same missing file, as long as nothing is dropped and only queries out of danger become current |
| `QueryVisits.ProductiveStore` | compiler-core/building/src/engine.rs:895-920 | A query all of whose visits are current is out of danger when it becomes current |
| `QueryEngine.ReportHasNoValue` | compiler-core/building/src/engine.rs:753-763 | The query from which a reported cycle was found has no value |
| `QueryEngine.AskedIsConclusive` | compiler-core/building/src/engine.rs:796-923 | A missing content is reported only for a query threatened by just that file, and a success that met no query in progress rules threats out |
| `StaleFailures.LayeredIsNotEntangled` | compiler-core/building/src/engine.rs:747-763 | Where compute functions read only queries of lower layers, no query is entangled |
| `StaleFailures.CompileIsOrderly` | compiler-core/building/src/engine.rs:989-1002 | The compute functions of the example meet every assumption made of them |
| `StaleFailures.RefuseMain` | compiler-core/building/src/engine.rs:889-893 | A run in which a query that has a value is refused: its old result lists a query that nothing reads any more, and the file whose content that one misses is reported |
| `SnapshotGraph.AddEdgeAcyclic` | compiler-core/building/src/engine/graph.rs:13-21 | An edge whose target does not lead back to its source keeps the wait-for graph acyclic |
| `SnapshotGraph.ChainEnds` | compiler-core/building/src/engine/graph.rs:13-21 | The chain of edges from any snapshot of an acyclic graph comes to an end |
| `SnapshotGraph.Graph.AddEdge` | compiler-core/building/src/engine/graph.rs:13-21 | The walk along the chain terminates; the edge is added exactly when its target does not lead to its source |
| `SnapshotGraph.Graph.RemoveEdge` | compiler-core/building/src/engine/graph.rs:23-27 | Exactly the given edge is removed |
| `SnapshotGraph.Join` | compiler-core/building/src/engine.rs:747-769 | A waiter joins with its edge, and waiters and edges keep matching |
| `SnapshotGraph.Release` | compiler-core/building/src/engine.rs:610-619 | Releasing all waiters removes exactly their edges |
| `SnapshotGraph.HandOffAcyclic` | compiler-core/building/src/engine.rs:621-634 | Pointing the other waiters at the heir keeps the graph acyclic |
| `SnapshotGraph.HandOff` | compiler-core/building/src/engine.rs:546-568 | Passing an entry in progress on to the waiter that came last keeps waiters and edges matching |
| `SnapshotGraph.RemoveWaiterEdges` | compiler-core/building/src/engine.rs:610-619 | The loop over the waiters removes exactly their edges |
| `SnapshotGraph.HandOffWaiterEdges` | compiler-core/building/src/engine.rs:621-634 | The loop points every other waiter at the heir, and the edge it adds is never refused |
| `ConcurrentEngine.StepKeepsInv` | compiler-core/building/src/engine.rs:533-923 | Every step of every snapshot keeps: a sound cache, exact wait-for edges, one owner for each entry in progress, and correct partial results in every frame |
| `ConcurrentEngine.RunAnswersAreValues` | compiler-core/building/src/engine.rs:636-923 | In every interleaving, a value that a query is about to return is its value from scratch on the current inputs |
| `ConcurrentEngine.RunRepliesAreValues` | compiler-core/building/src/engine.rs:533-575 | And so is every value ever answered, on the inputs of its revision |
| `ConcurrentEngine.RunEdgesAreExact` | compiler-core/building/src/engine.rs:579-634 | In every interleaving the wait-for edges are exactly the pairs of a blocked snapshot and the owner it waits for, and they are acyclic, across hand-offs too |
| `ConcurrentEngine.NotBlockedCanAct` | compiler-core/building/src/engine.rs:771-923 | A snapshot that does not wait for a pending promise always has a move |
| `ConcurrentEngine.RunMakesProgress` | compiler-core/building/src/engine.rs:747-794 | No deadlock and no lost waiter: the chain from any busy snapshot ends at one that can move |
| `ConcurrentEngine.OnlyOwnerEnds` | compiler-core/building/src/engine.rs:551-608 | An entry in progress is ended or passed on by a move of its owner only |
| `ConcurrentEngine.FreshStays` | compiler-core/building/src/engine.rs:813-886 | Within a revision a current result is never replaced |
| `ConcurrentEngine.RunKeepsFresh` | compiler-core/building/src/engine.rs:813-886 | The same over any stretch of a run at one revision |
| `ConcurrentEngine.RevisionGrows` | compiler-core/building/src/engine.rs:925-965 | Revisions never decrease along a run |
| `ConcurrentEngine.RunStoresOnce` | compiler-core/building/src/engine.rs:579-608 | Each query is stored at most once for each revision, however many snapshots ask for it |
| `ConcurrentErrors.ConflictIsCycle` | compiler-core/building/src/engine.rs:747-763 | A refused edge means a cycle of actual calls, through any number of snapshots, to which the reported stack leads |
| `ConcurrentErrors.ClosesIsDeadlock` | compiler-core/building/src/engine.rs:747-769 | An edge is refused exactly if the owner waits for a snapshot that waits for another, and so on up to the asking one |
| `ConcurrentErrors.StepKeepsExplained` | compiler-core/building/src/engine.rs:533-923 | Every step keeps: each error under way is a chain of calls onto a cycle, a content that a compute function misses, a cancellation whose flag was raised at this revision, or an unverifiable dependency above a frame that verifies |
| `ConcurrentErrors.RunRepliesAreExplained` | compiler-core/building/src/engine.rs:533-575 | In every interleaving, a cycle that is answered is real on the inputs of its revision, starts at the query and leaves it without a value; a missing content is missed by a compute function; a cancellation follows a raised flag at the same revision; and `Unverifiable` is never answered |
| `ConcurrentErrors.RunErrorsAreExplained` | compiler-core/building/src/engine.rs:636-923 | The same for every error that a query is about to return, at any depth |
| `ConcurrentErrors.RunConflictsAreDeadlocks` | compiler-core/building/src/engine.rs:747-769 | In every interleaving, a snapshot that verifies nothing and asks for a query in progress is told of a cycle exactly if it would wait for itself, and waits otherwise |
| `ConcurrentReuse.RunStamps` | compiler-core/building/src/engine.rs:636-680 | In every interleaving, a stored result carries the change stamp of the previous one exactly if its value is the same |
| `Initializers.InitializerPostorder` | compiler-backend/functional/src/initializers.rs:14-41 | The search with a work stack gives the recursive depth-first postorder, roots in increasing order and dependencies as listed: a permutation in which a dependency comes before its dependent unless it leads back to it |
| `Initializers.AcyclicFollows` | compiler-backend/functional/src/initializers.rs:14-41 | A position on no cycle follows all its dependencies |
| `Initializers.LastOfComponent` | compiler-backend/functional/src/initializers.rs:49-83 | In an order of finishing, the last position of a component comes after everything the component leads to |
| `Initializers.Transpose` | compiler-backend/functional/src/initializers.rs:49-83 | The reverse edges are exactly the edges reversed |
| `Initializers.Collect` | compiler-backend/functional/src/initializers.rs:49-83 | Collecting backward from the last unassigned position gives exactly the positions mutually reachable with it |
| `Initializers.InitializerComponents` | compiler-backend/functional/src/initializers.rs:49-83 | The components partition the positions, two share one iff each reaches the other, and every edge stays in its component or leads to an earlier one |
| `Initializers.CyclicInitializers` | compiler-backend/functional/src/initializers.rs:89-101 | A position is marked exactly when a path with at least one edge leads from it to itself |
| `Interner.ScanIsNone` | compiler-core/interner/src/parallel.rs:159-174 | The scan of the chain misses a value exactly when no link leads to it |
| `Interner.ScanFinds` | compiler-core/interner/src/parallel.rs:159-174 | What the scan finds is a link of the chain to the value |
| `Interner.PushKeeps` | compiler-core/interner/src/parallel.rs:95-96 | A slot pushed and not published is invisible |
| `Interner.InsertKeeps` | compiler-core/interner/src/parallel.rs:98-99 | The first value with its hash becomes findable and nothing else changes, whatever collides with it |
| `Interner.LinkKeeps` | compiler-core/interner/src/parallel.rs:126-134 | A value that collides becomes findable through the chain and nothing else changes |
| `Interner.Interner.ScanOverflow` | compiler-core/interner/src/parallel.rs:159-174 | The loop from the end of the chain finds the last link that leads to the value |
| `Interner.Interner.Get` | compiler-core/interner/src/parallel.rs:136-147 | A value is found exactly under the id it was given |
| `Interner.Interner.Intern` | compiler-core/interner/src/parallel.rs:84-111 | A known value keeps its id and metadata; a new one gets the id of a new slot; every other value is found as before; no id is left when the arena is full |
| `Interner.Interner.Publish` | compiler-core/interner/src/parallel.rs:98-110 | A candidate is published, or abandoned for the id that its value has already |
| `Interner.Interner.PublishCollision` | compiler-core/interner/src/parallel.rs:126-134 | The same under the lock, when another value has the hash |
| `Interner.Interner.InternAtCollision` | compiler-core/interner/src/parallel.rs:113-124 | A colliding value is found in the chain or appended to it |
| `Interner.StepKeepsInv` | compiler-core/interner/src/parallel.rs:84-174 | Every step of every thread keeps the store a refinement of the map of what has been interned, and the lock with one holder |
| `Interner.RunIsLegal` | compiler-core/interner/src/parallel.rs:84-174 | For every interleaving and every hash, the replies are those of the same calls made one at a time |
| `Interner.RunInternsAgree` | compiler-core/interner/src/parallel.rs:84-134 | Two calls get the same id exactly when they intern the same value |
| `Interner.RunLookupsAgree` | compiler-core/interner/src/parallel.rs:136-147 | A lookup finds exactly what has been interned when it takes effect |
| `Interner.RunIdsKeepSlots` | compiler-core/interner/src/parallel.rs:149-185 | A returned id leads to its value, and keeps its slot for ever |
| `Interner.RunCarries` | compiler-core/interner/src/parallel.rs:84-134 | Whatever value and metadata a thread carries, in its call or in the slot it pushed, it was called with, and has been busy since |
| `Interner.RunKeepsFirstMetadata` | compiler-core/interner/src/parallel.rs:84-134 | The reply that makes a value known is that of a call given the metadata in its slot, which later calls for the value never change |
| `Interner.LosersAreAbandoned` | compiler-core/interner/src/parallel.rs:100-109 | A candidate that its thread lets go has been returned or is abandoned |
| `Interner.RunPanicsWhenFull` | compiler-core/interner/src/parallel.rs:84-134 | A call panics only when the arena is full |
| `Interner.RunNeverReturnsAbandoned` | compiler-core/interner/src/parallel.rs:100-109 | An abandoned slot is never returned |
| `Interner.RunMakesProgress` | compiler-core/interner/src/parallel.rs:113-134 | A call can go on, or waits for a lock whose holder can |
| `PackagePlan.AssignOwners` | compiler-executable/iris-build/src/plan.rs:67-86 | Succeeds exactly when names are distinct and no source has two owners; otherwise reports an actual conflict |
| `PackagePlan.SelectSources` | compiler-executable/iris-build/src/plan.rs:88-94 | Fails exactly when a selected source has no owner, at the first such; otherwise keeps the sources of each package in order |
| `PackagePlan.ContractDependencies` | compiler-executable/iris-build/src/plan.rs:161-181 | The worklist terminates with exactly the retained packages reachable with none retained in between, each once |
| `PackagePlan.ContractionKeepsDependencies` | compiler-executable/iris-build/src/plan.rs:161-181 | Between retained packages, contraction neither adds nor loses a transitive dependency |
| `PackagePlan.NumberingKeepsDependencies` | compiler-executable/iris-build/src/plan.rs:112-123 | Replacing names by positions keeps transitive dependencies both ways |
| `PackagePlan.SortGroups` | compiler-executable/iris-build/src/plan.rs:200-204 | The components are each sorted, and ordered by their first package |
| `PackagePlan.Dependents` | compiler-executable/iris-build/src/plan.rs:225-230 | The dependents of a group are exactly the groups that list it, each once, in order |
| `PackagePlan.PackageGroups` | compiler-executable/iris-build/src/plan.rs:189-241 | Two packages share a group iff each depends on the other; groups depend on each other exactly as their packages do; dependents are the exact transpose; the group graph has no cycle |
| `PackagePlan.SchedulableIsAcyclic` | compiler-executable/iris-build/src/plan.rs:189-241 | No group depends on itself, even through others |
| `PackagePlan.NewPlan` | compiler-executable/iris-build/src/plan.rs:63-134 | Succeeds exactly when ownership is clear and complete; the plan holds the packages with sources in order, grouped by what they depend on also through packages without sources |
| `PackagePlan.PlanKeepsSources` | compiler-executable/iris-build/src/plan.rs:88-130 | The packages of a plan hold every selected source exactly as often as it was selected |
| `Executors.SomeGroupIsReady` | compiler-executable/iris-build/src/executor.rs:94-98 | As long as a group is incomplete, one is ready |
| `Executors.FindReady` | compiler-executable/iris-build/src/executor.rs:95-98 | Finds the first ready group |
| `Executors.ExecuteSerial` | compiler-executable/iris-build/src/executor.rs:88-107 | A ready group is always found; packages run once, after what they depend on; all run exactly when none fails, and otherwise the run ends with the first failure |
| `Executors.DeclaredRunsFirst` | compiler-executable/iris-build/src/executor.rs:88-130 | In terms of declared dependencies: a package runs after every package it depends on, unless that one depends on it in turn |
| `ParallelExecutor.StepKeepsInv` | compiler-executable/iris-build/src/executor.rs:27-86 | Every step keeps: each counter is the number of dependencies not yet released, a group is spawned once that is zero, and failures are on their way to the error slot |
| `ParallelExecutor.ReleaseCounts` | compiler-executable/iris-build/src/executor.rs:46-51 | A counter is at least one whenever it is taken from, and the spawn at one is the only one |
| `ParallelExecutor.RunBuildsInOrder` | compiler-executable/iris-build/src/executor.rs:27-86 | In every run no group is spawned twice and no package built twice, each is built after what it depends on, and counters are never negative |
| `ParallelExecutor.RunStartsAfterDependencies` | compiler-executable/iris-build/src/executor.rs:46-51 | A group is spawned only after all packages of all groups it depends on, even through others, were built |
| `ParallelExecutor.RunSkipsDependentsOfFailures` | compiler-executable/iris-build/src/executor.rs:36-45 | Nothing that depends on a failing package is ever built, unless they depend on each other |
| `ParallelExecutor.RunEnds` | compiler-executable/iris-build/src/executor.rs:73-86 | When a run is over, the error slot is empty exactly when no package of the plan fails, and then every package was built; otherwise it holds an error that was raised |
| `ParallelExecutor.RunIsFinite` | compiler-executable/iris-build/src/executor.rs:27-86 | A run has at most as many steps as its initial measure |
| `FunctionalTree.VisitUpdates` | compiler-backend/functional/src/optimize.rs:642-658 | The stack of suspended lists visits the leaves of nested record updates in order |
| `FunctionalTree.ShapeAndChildren` | compiler-backend/functional/src/optimize.rs:503-660 | The enumeration of children misses none: an expression is made up by its children and what is left without them |
| `FunctionalTree.Storage.ReplaceExpressionKind` | compiler-backend/functional/src/tree.rs:78-84 | Overwrites what an expression is and keeps its origin |
| `FunctionalTree.Storage.ReplaceExpression` | compiler-backend/functional/src/tree.rs:86-95 | Overwrites an expression by another, whose origin is taken if known |
| `TreeFolds.Overwrite` | compiler-backend/functional/src/tree.rs:78-95 | Overwriting a shared expression by one that folds to the same changes no fold of the arena |
| `Rewrites.NegationWraps` | compiler-backend/functional/src/optimize.rs:175-179 | A negated integer literal is folded exactly within 32 bits or just above, and to the result modulo 2^32 |
| `Rewrites.NegatedTwice` | compiler-backend/functional/src/optimize.rs:196-201 | Negating the spelling of a number twice gives it back iff it does not start with two signs |
| `Rewrites.NegatedIsOpposite` | compiler-backend/functional/src/optimize.rs:196-201 | The negated spelling of a number spells the number of opposite sign and the same magnitude |
| `Rewrites.RewriteIsWellFormed` | compiler-backend/functional/src/optimize.rs:118-163 | A rewrite keeps the arena acyclic, and every bound local above what it is bound to |
| `Rewrites.RewriteKeepsFolds` | compiler-backend/functional/src/optimize.rs:118-221 | A rewrite changes the meaning of no expression, in every lawful interpretation |
| `Rewrites.RewriteKeepsClosed` | compiler-backend/functional/src/optimize.rs:118-144 | A rewrite frees no local of a closed expression |
| `Meanings.FreeDecides` | compiler-backend/functional/src/optimize.rs:118-144 | What a `let` binds is decided by the `let`: environments that agree on the free locals give the same meaning |
| `Meanings.EnvironmentIsConsistent` | compiler-backend/functional/src/optimize.rs:118-144 | Every arena has an environment in which each bound local stands for what it is bound to |
| `Meanings.MeaningOfLet` | compiler-backend/functional/src/optimize.rs:118-144 | A `let` means what its body means |
| `Meanings.MeaningOfLocal` | compiler-backend/functional/src/optimize.rs:414-432 | A bound local means what it is bound to |
| `Meanings.ReductionKeepsMeaning` | compiler-backend/functional/src/optimize.rs:52-221 | Any sequence of rewrites keeps the arena acyclic and well scoped, and keeps the meaning of a closed expression in every lawful interpretation that gives booleans to what is negated as one |
| `Meanings.ExpansionIsLawful` | compiler-backend/functional/src/optimize.rs:165-201 | Full expansion of every `let`, in which a number is its sign and magnitude and negation is folded on it, is a lawful interpretation |
| `Meanings.StrictIsLawful` | compiler-backend/functional/src/optimize.rs:146-201 | So is evaluation in which an operator at the wrong type is at fault, where negation undoes itself on booleans and faults only |
| `Substitutions.SubstitutedFolds` | compiler-backend/functional/src/optimize.rs:414-432 | A fold in which a local stands for its definition does not notice that occurrences are replaced |
| `Substitutions.SubstitutionUses` | compiler-backend/functional/src/optimize.rs:398-432 | After substituting e for x, uses of y are uses(y) + uses(x) * uses in e of y |
| `Substitutions.SubstitutionCosts` | compiler-backend/functional/src/optimize.rs:414-432 | The same law for every cost that adds up over expressions |
| `Substitutions.NoUseBelow` | compiler-backend/functional/src/optimize.rs:414-432 | A local does not occur in what it is bound to |
| `Optimizer.LocalUses` | compiler-backend/functional/src/optimize.rs:398-412 | The worklist terminates and counts the occurrences in the unfolded tree |
| `Optimizer.IsSimpleExpression` | compiler-backend/functional/src/optimize.rs:450-500 | The worklist decides the recursive definition of a simple expression, of which exactly nothing but an allocation can be noticed (`Activities.SimpleIsQuiet`) |
| `Optimizer.TrivialSize` | compiler-backend/functional/src/optimize.rs:434-448 | A trivial expression consists of itself only |
| `Optimizer.SubstituteLocal` | compiler-backend/functional/src/optimize.rs:414-432 | The worklist over the arena that it rewrites terminates; no use of the local is left below the root, and nothing else changes |
| `Optimizer.FoldNegation` | compiler-backend/functional/src/optimize.rs:146-163 | Folds the negation if there is one to fold, by a rewrite that keeps meanings, and says so |
| `Optimizer.BindingUses` | compiler-backend/functional/src/optimize.rs:223-234 | The uses in all bindings and the body |
| `Optimizer.BindingIsCaptured` | compiler-backend/functional/src/optimize.rs:243-248 | Whether a use in any binding or the body is captured |
| `Optimizer.ShouldInlineBinding` | compiler-backend/functional/src/optimize.rs:203-221 | Decides whether a binding is used and trivial, or used once, simple, and a function or not captured, which `CapturedReads.InlinableExactly` puts in terms of evaluation |
| `Optimizer.FoldsExactly` | compiler-backend/functional/src/optimize.rs:146-201 | Just these negations are folded: of a negated boolean to the boolean, of an integer within 32 bits or just above to its opposite in 32 bits, and of a number to its opposite |
| `Activities.TrivialIsUnnoticed` | compiler-backend/functional/src/optimize.rs:434-448 | An expression is trivial exactly if it has no parts and nothing can be noticed of its evaluation |
| `Activities.NotSimpleDoes` | compiler-backend/functional/src/optimize.rs:450-500 | An expression that is not simple has an evaluation that makes a call, chooses a branch, binds, copies, acts or reads a global too early |
| `Activities.SimpleIsQuiet` | compiler-backend/functional/src/optimize.rs:450-500 | An expression is simple exactly if none of its evaluations does any of that |
| `Activities.InlinedIsQuiet` | compiler-backend/functional/src/optimize.rs:203-221 | Nothing but an allocation can be noticed of what is inlined, and not even that if it occurs more than once |
| `CapturedReads.CapturedIsReadTwice` | compiler-backend/functional/src/optimize.rs:243-270 | A captured local can be read twice in one evaluation |
| `CapturedReads.ReadOnceExactly` | compiler-backend/functional/src/optimize.rs:243-270 | A local that occurs once is read at most once in every evaluation of its `let` exactly if it is neither captured nor used in an asynchronous program |
| `CapturedReads.InlinableExactly` | compiler-backend/functional/src/optimize.rs:203-221 | A binding is inlined exactly if it is used, and nothing can be noticed of it and it has no parts, or it occurs once, only allocates, and is a function or read at most once; in an asynchronous program, not being captured stands in for the last |
| `CapturedReads.AsyncIsInlined` | compiler-backend/functional/src/optimize.rs:203-221 | An array that is inlined into an asynchronous program, which builds it whenever it is run |
| `Evaluations.EvaluationCount` | compiler-backend/functional/src/optimize.rs:284-396 | The enumeration of children with their evaluations has as many entries as the enumeration of children |
| `Evaluations.SharesAgree` | compiler-backend/functional/src/optimize.rs:284-396 | A child that the enumeration calls captured may be evaluated any number of times, and any other at most once, in the position that it says, asynchronous programs apart |
| `Evaluations.LocalIsCaptured` | compiler-backend/functional/src/optimize.rs:250-270 | The worklist terminates and decides whether some use is below a captured child |
| `Evaluations.ReadsAreUses` | compiler-backend/functional/src/optimize.rs:243-396 | In every evaluation, a local that is neither captured nor used in an asynchronous program is read at most as often as it occurs |
| `LetInlining.InlineAll` | compiler-backend/functional/src/optimize.rs:118-135 | Bindings are inlined until none of those left is to be inlined; each that is gone was the first to be inlined when it was removed; none is free in what is left; each takes one expression off the whole |
| `LetInlining.InlineBindings` | compiler-backend/functional/src/optimize.rs:118-144 | The `let` keeps the bindings left, or becomes its body, by rewrites that keep meanings |
| `LetInlining.LetShrinks` | compiler-backend/functional/src/optimize.rs:118-144 | A rewritten `let` is never larger, shared parts counted as often as they occur, and smaller by each binding inlined |
| `LetInlining.InlinedIsReadOnce` | compiler-backend/functional/src/optimize.rs:203-248 | A binding to be inlined that is neither trivial nor a function nor used in an asynchronous program is read at most once in every evaluation of its `let` |
| `LetInlining.RemovedWasReadOnce` | compiler-backend/functional/src/optimize.rs:118-144 | For every binding that a rewritten `let` has lost, the step that removed it, at which nothing but an allocation could be noticed of it and it was read at most once, unless it is trivial, a function or used in an asynchronous program |
| `TreeOptimizer.InlineSimpleBindings` | compiler-backend/functional/src/optimize.rs:14-109 | The traversal terminates; every expression below the root is finished once, after its children: every `let` that is not recursive has its bindings inlined in the position that its parents up to the root give it, and every other expression is folded; the result is reached by rewrites |
| `TreeOptimizer.OptimizeMeaning` | compiler-backend/functional/src/optimize.rs:14-109 | Optimizing a closed expression keeps its meaning in every lawful interpretation that gives booleans to what is negated as one, and frees no local |
| `StringLiterals.DecodedUnits` | compiler-backend/javascript/src/tree.rs:499-520 | Decoding into characters and unpaired surrogates loses nothing |
| `StringLiterals.SpelledAllReadsBack` | compiler-backend/javascript/src/tree.rs:508-519 | Text with surrogates spelled out is read back to the same code units |
| `StringLiterals.EncodedTextDecodes` | compiler-backend/javascript/src/tree.rs:500-506 | UTF-16 of text has no unpaired surrogate |
| `StringLiterals.EncodeLiteral` | compiler-backend/javascript/src/tree.rs:499-520 | Reading the encoded literal back gives the very same code units, for every sequence; surrogates are spelled out exactly when the literal is not UTF-16 |
| `Preparations.LegalIsOrderly` | compiler-executable/iris-lsp-workspace/src/preparation.rs:151-270 | In every legal history attempts are numbered from one on without gaps, one starts only after the one before has returned and its result was dropped, an attempt is ended and returns at most once, and its result is applied exactly if it was not ended |
| `Preparations.AppliedIsNotEnded` | compiler-executable/iris-lsp-workspace/src/preparation.rs:215-270 | An attempt whose result is applied was never ended by a cancellation or a shutdown |
| `Preparations.Preparation.Start` | compiler-executable/iris-lsp-workspace/src/preparation.rs:151-161 | The first attempt starts once |
| `Preparations.Preparation.Demand` | compiler-executable/iris-lsp-workspace/src/preparation.rs:167-188 | A request waits for the attempt that runs or for the next one, which is reserved while a cancelled one has not returned |
| `Preparations.Preparation.Finish` | compiler-executable/iris-lsp-workspace/src/preparation.rs:215-238 | A result is applied exactly if its attempt runs; a reserved retry starts exactly when the cancelled attempt returns |
| `Preparations.Preparation.Cancel` | compiler-executable/iris-lsp-workspace/src/preparation.rs:241-254 | Exactly the running attempt is cancelled, and its progress ended |
| `Preparations.Preparation.ShutDown` | compiler-executable/iris-lsp-workspace/src/preparation.rs:257-270 | Preparation stops for good; progress that has not ended is ended |
| `Preparations.Preparation.OutcomeOf` | compiler-executable/iris-lsp-workspace/src/preparation.rs:190-208 | A waiting request goes on waiting exactly while its attempt runs, is reserved, or has been committed |
| `Preparations.Preparation.Run` | compiler-executable/iris-lsp-workspace/src/preparation.rs:151-270 | Over every run of operations, with stale arguments too, the history of attempts is orderly and only grows, a reserved retry stays reserved until it is the next attempt to start or preparation is shut down, and nothing happens after a shutdown |
| `Requests.SettleKeeps` | compiler-executable/iris-lsp-server/src/server.rs:571-597 | An answer reaches the request that its sequence number was given to, under its id, even when the id is used again |
| `Requests.RequestsAreCounted` | compiler-executable/iris-lsp-server/src/server.rs:571-597 | Requests received are responses sent and requests waiting |
| `Requests.Server.ReceiveRequest` | compiler-executable/iris-lsp-server/src/server.rs:188-244 | Which requests wait, and what the others are answered at once, in every stage of the lifecycle; the server is initializing iff `initialize` waits, which then waits alone |
| `Requests.Server.Cancel` | compiler-executable/iris-lsp-server/src/server.rs:330-350 | A request that waits is answered and forgotten; a cancelled `initialize` takes the lifecycle back |
| `Requests.Server.Deliver` | compiler-executable/iris-lsp-server/src/server.rs:374-403 | The answer of a cancelled request is dropped; any other is sent to its request, and that of `initialize` decides the lifecycle |
| `Requests.Server.BecomeReady` | compiler-executable/iris-lsp-server/src/server.rs:293-301 | The server becomes ready only after `initialize` was accepted |
| `Requests.Server.StopWorkspace` | compiler-executable/iris-lsp-server/src/server.rs:430-446 | Every request that waits is answered, and none is left owing |
| `Requests.Server.Run` | compiler-executable/iris-lsp-server/src/server.rs:188-403 | Over every run, each request is answered at most once and under its own id, and the count of requests fits |
| `ProgressTokens.MessagesAreBalanced` | compiler-executable/iris-lsp-server/src/progress.rs:50-147 | For an accepted token the beginning with its title was sent, then reports up to the latest, in order, and the end with its message exactly if the attempt has ended; for any other token nothing was; an attempt is cancelled at most once |
| `ProgressTokens.Progress.Started` | compiler-executable/iris-lsp-server/src/progress.rs:50-74 | A token is asked for and nothing is sent |
| `ProgressTokens.Progress.ReportProgress` | compiler-executable/iris-lsp-server/src/progress.rs:76-93 | A report is sent if the token is accepted, kept in place of the one before while its answer is awaited, and dropped after the end |
| `ProgressTokens.Progress.Ended` | compiler-executable/iris-lsp-server/src/progress.rs:95-106 | The end is sent once, or kept until the token is accepted |
| `ProgressTokens.Progress.Created` | compiler-executable/iris-lsp-server/src/progress.rs:109-134 | On acceptance what was kept is sent after the beginning; on rejection nothing ever is |
| `ProgressTokens.Progress.Cancel` | compiler-executable/iris-lsp-server/src/progress.rs:138-147 | An attempt is cancelled exactly if it is the current one, the token is its own, it has not ended and it was not cancelled before |
| `ProgressTokens.Progress.Run` | compiler-executable/iris-lsp-server/src/progress.rs:50-147 | Over every run, what was sent for every token says just that and is never taken back |

## Left out

- Preparations.Preparation.Finish: the handles of retired attempts, which are only waited for at the end of a session, are left out.
- Requests.Server.Deliver: what is answered, settings, notifications and the transport are left out; a panic of an answer is not modelled.
- ProgressTokens.Progress.Started: the generations of attempts are distinct, as preparation numbers them.
- The compiler queries behind the engine (parsing, resolving, checking, documenting): they are arbitrary compute functions here.
- Shards, lock upgrades, atomics orderings, promise internals and panics of compute functions: only the sections that the locks delimit are kept, and a waiter is never woken without a result or a transfer.
- ConcurrentEngine.RunMakesProgress: says that some snapshot can always move, not that the scheduler is fair.
- QueryEngine.Engine.Ask: whether a query that is both threatened and entangled is answered is left open, since it depends on the order in which a hash set lists the dependencies to verify.
- Queries that write derived inputs, events of the file watcher and the batching of writes: not part of this model.
- Optimizer.LocalUses: counts without the 64-bit bound of the source, which a tree cannot reach before memory is exhausted.
- ConcurrentReuse.RunStamps: which previous results are computed again is stated for one snapshot only.
- StyleX expressions: they are not part of this model. Patterns are opaque ids, so that only `let` binds locals in the sense of free locals.
- TreeOptimizer.InlineSimpleBindings: does not claim that no binding could be inlined and no negation folded afterwards; a substitution further out can expose one that is not looked at again.
- Interner.RunMakesProgress: the lock is not claimed to be fair.
- PackagePlan.PackageGroups: uses the components proved in `Initializers` in place of those of petgraph, which are the same up to order before they are sorted.
- Executors.ExecuteSerial: events, durations and the contents of packages do not matter to the order and are left out.
- ParallelExecutor.RunEnds: which of several errors is kept is left open, as it is in the source.
- Writing JavaScript, source maps, file walking, Spago processes, command line and diagnostics: input, output and plumbing.
