# Kibitzer, verified

Kibitzer is a diff-aware code checker with a caching daemon. This project models the algorithms and protocols at its
core in Dafny and proves what they promise, for every input, every graph, every interleaving.

| module | what it models |
|---|---|
| `Tarjan`, `ImportCycles` (on `ImportGraph`, `Reachability`) | the cycle finder and the import-cycle checker |
| `ModelCache` (on `FileHistory`) | the single-slot model cache: callers stamp, lock, build unlocked, store |
| `ResultCache`, `Grace`, `DaemonRuns`, `DaemonReplies`, `DaemonProgress` | the daemon's result cache, its grace period, all interleavings of requests and edits, and the reply to every request |
| `AbsentFiles`, `LatePuts` | exactly when absent files make a cached answer stale or a late store replace a current entry |
| `Ownership`, `OwnershipProgress`, `OwnershipGaps` | who owns the daemon's lock and socket, how starts and displacements end, and exactly what is not promised |
| `Levenshtein`, `CivilDate` | the edit-distance table, and day numbers to calendar dates |
| `Affected` | the packages affected by a diff |
| `UnionFind`, `Lcom4` | cohesion by union-find |
| `Glob`, `GlobLaws`, `Layering`, `ComponentDeps` | path patterns, the `layering` and `component-deps` reports, and `layers` as components and rules |
| `HunkMap` | line ranges through diff hunks |
| `ChangeCoupling` (on `TextOrder`) | co-change tallies and the coupling report |
| `Transcripts`, `Backtest` | replay of transcripts, and the cached backtest |

Code that updates state in place is modelled by classes and methods with loops (the depth-first search, the caches, the
tables, the unions, the tallies, the replay); code made of expressions by functions; concurrency by step systems, with
a function `After` that folds a run of steps and an invariant that every step keeps. Import edges, commits, transcripts
and transcript events are plain sequences.

## What to know before reading

* **Cycle finder.** The search also visits import targets that are not listed nodes, so its domain is everything
  reachable from the listed ones. `Finder.StrongConnect` is split in three at the source's loop (`Open`, `Follow`,
  `Close`). The reported path is the order in which the stack is popped and no claim is made that it is a walk.
* **Caches.** One assumption about writers: a write gives a file a stamp it never had before (`FileHistory.NewStamp`).
  A deleted file has no stamp, and all absences look alike; so a statement about a stamp holds when the stamp is
  present, or when the file did not exist between the two instants at which it was found absent
  (`FileHistory.StampTells`). That this is needed is proved for every history: `ModelCache.FreshIffNeverBrief`,
  `AbsentFiles.StaleIffExposed` and `LatePuts.OverwritesIffComes` give, both ways, the histories over which some run
  goes wrong. The config path is a function of the file, and config is read once, before the lookup; anything the checks
  read besides file, config and registry is constant.
* **Ownership.** Pids are not reused. A look at the lock takes it for an instant, which other processes see as a failed
  attempt; the model lets any attempt and any look find the lock taken, which covers this. No daemon from before the
  lock starts during a run, but one may be running from the start. Two things the protocol does not promise
  are settled exactly in `OwnershipGaps`: when a displacer's probe goes unanswered, its target may come to answer before
  it is signalled (`AnsweringDaemonIsSignalledIff`), even one that never hung and was only not listening yet; and a
  pre-lock daemon that does not answer the holder's probe can lose its socket while it lives (`OldDaemonLosesSocketIff`).
  That a step is possible, as in `OwnershipProgress`, does not say that the scheduler or the clock lets it come.
* **LCOM4.** A package's symbols are collected file by file without removing duplicates (src/arch_model.rs:487-498), and
  an id is package, type and name only (src/symbol_extract.rs:329-334), so a Go method declared in two files for
  different platforms is listed twice. (The comment at src/symbol_extract.rs:319-328 says that the last one survives;
  nothing drops the others.) Each listing before the last counts as a component of its own (`Lcom4.EarlierIsAlone`,
  `Lcom4.DeclaredTwice`): the count is that of the methods exactly when none is listed twice (`Lcom4.CountIsExactIff`).
  The source asserts, in debug builds only, that some signal was found; `Lcom4.SignalIff` says exactly when. A resolved
  call goes to a listed method, but its caller may be pruned from the list: for methods that touch no field and are only
  called by pruned ones the assertion fails (`Lcom4.SignalCanBeMissing`). The comment above it promises more than the
  code does.
* **Layering.** `layering` compares positions, `component-deps` compares names. A `.` in the regular expressions behind
  globs does not match a line break, so a line break before or after a segment hides it from the patterns
  (`Glob.LineBreakHidesSegment`). Layer names are plain here. A node has the same layer and component exactly when the
  first layer among its segments is not hidden (`Layering.ResolutionAgrees`; `Layering.Seen` is that condition). On
  edges between such nodes the two checkers agree exactly when equal names stand next to each other
  (`Layering.AgreeIffTogether`); on edges between any nodes, exactly when there is no more than one name
  (`Layering.AgreeEverywhereIff`).
* **Hunks.** In a `-U0` diff an empty range names the line just before it ("Diff -u or -U Output Format" of the `diff`
  utility, POSIX.1-2008). A range with a deletion strictly inside maps to a range of the same length that is not line by
  line the old one; `HunkMap.MappedIffNothingDeletedInside` says so exactly, and `HunkMap.StraddledHidesLater` that
  such a range is then not compared with later hunks.
* **Calendar.** `CivilDate` checks `civil_from_days` against the proleptic Gregorian calendar (section 3.2.1 of ISO
  8601:2004), on 64-bit and 32-bit machine integers and with truncating division; `CivilDate.CivilIsRight`
  asks only that the first addition does not overflow; every later operation is shown to fit its type.

## Model

| member | source | states |
|---|---|---|
| Tarjan.FindCycles | src/architecture_checks.rs:522-594 | the result is exactly the strongly connected components, among everything reachable from the nodes, that hold a cycle: each is mutually reachable and maximal, every package on a cycle is in one, and none of an earlier component reaches a later one |
| Tarjan.Finder.StrongConnect | src/architecture_checks.rs:534-580 | one call visits the node, keeps the stack/index/lowlink invariant, leaves what was on the stack in place, and ends with the node emitted or connected to something lower on the stack; it terminates because unvisited packages shrink |
| Tarjan.Finder.Follow | src/architecture_checks.rs:541-558 | following one edge keeps the partial-exploration invariant: the lowlink is the index of a stack member reached, and bounds every edge followed so far |
| Tarjan.Finder.Close | src/architecture_checks.rs:560-580 | after the edges, either the component is popped and emitted or the node stays, and both keep the invariant of the remaining stack |
| Tarjan.Finder.PopComponent | src/architecture_checks.rs:561-571 | the loop pops exactly the stack from the node up, in reverse order |
| Tarjan.Finder.Run | src/architecture_checks.rs:583-587 | the emitted components partition everything reachable from the nodes, in reverse topological order |
| Tarjan.PushKeepsInvariant | src/architecture_checks.rs:535-539 | pushing a newly numbered node keeps the invariant |
| Tarjan.TopIsComponent | src/architecture_checks.rs:560-571 | when lowlink equals index, the stack from that node up is mutually reachable and holds everything mutually reachable with it |
| Tarjan.TopIsClosed | src/architecture_checks.rs:560-571 | and every edge out of it leads inside it or to a component already emitted |
| Tarjan.PopKeepsOrder | src/architecture_checks.rs:571 | emitting it keeps earlier components from reaching later ones |
| Tarjan.PopKeepsInvariant | src/architecture_checks.rs:560-571 | popping it keeps the invariant for the rest of the stack |
| Tarjan.RetireKeepsInvariant | src/architecture_checks.rs:560 | a node with a smaller lowlink may stay on the stack: it reaches something below it |
| Tarjan.SearchIsComplete | src/architecture_checks.rs:583-593 | once no call is active the stack is empty and every reachable package is in a component |
| Tarjan.CyclicComponent | src/architecture_checks.rs:589-593 | a component has more than one member or a self-edge exactly when its members lie on a cycle |
| Tarjan.KeptMembers | src/architecture_checks.rs:589-593 | the filter keeps exactly the packages that lie on a cycle |
| Tarjan.ListedOnce | src/architecture_checks.rs:589-593 | no package is listed twice, in one component or in two |
| ImportCycles.Check | src/architecture_checks.rs:95-119 | one finding per cycle, each with the first edge, in edge order, from the cycle's first package to one of its packages; no finding exactly when nothing reachable from the nodes is on a cycle |
| ImportCycles.CycleHasClosingEdge | src/architecture_checks.rs:105-108 | such an edge always exists, so every finding has a location |
| ImportCycles.SilentIffAcyclic | src/architecture_checks.rs:95-119 | when edges start at nodes, no cycle is reported exactly when the whole graph is acyclic |
| ModelCache.EveryReturnIsFresh | src/arch_model.rs:1050-1088 | in every interleaving, a returned model, hit or miss, was built for the call's key and file list, and each content it used was on disk between the call's start and its return; of a file the call found absent, unless it existed in between since the cached build found it absent |
| ModelCache.StepKeepsInv | src/arch_model.rs:1050-1088 | every step of every caller, and every edit, keeps the invariant that gives this |
| ModelCache.HitIsFresh | src/arch_model.rs:1063-1073 | on a hit, what an earlier build read was still on disk when this call stamped it, or was read later; of an absent file, unless it existed between the two stamps |
| ModelCache.MissIsFresh | src/arch_model.rs:1075-1088 | on a miss everything read is from during the call, whatever the stamps were |
| ModelCache.UnchangedFilesHit | src/arch_model.rs:1063-1073 | if no stamp moved since the cached build, the call hits |
| ModelCache.HitIffLastStoreMatches | src/arch_model.rs:1063-1088 | in every run, a call is served a cached model exactly when the last call that stored had its key, file list and stamps, and then the model built there; otherwise it builds |
| ModelCache.EverySlotIsLastStore | src/arch_model.rs:1080-1088 | the slot always holds what the last call to finish a build stored, and is empty before that |
| ModelCache.BuildReturnsOwn | src/arch_model.rs:1075-1088 | a call that builds returns its own build; one whose build fails stores nothing |
| ModelCache.ReturnsAreFinal | src/arch_model.rs:1050-1088 | a returned model never changes, and only a call that builds can fail |
| ModelCache.FreshIffNeverBrief | src/arch_model.rs:1050-1088 | for every history of edits and every file: all calls of all runs over it use fresh contents of that file exactly when the file was never absent, present and absent again |
| ModelCache.AbsentFileCanBeStale | src/arch_model.rs:1050-1088 | for every such history, a run over just that history that returns a content of the file while it is absent |
| ModelCache.Cache.GetOrBuild | src/arch_model.rs:1050-1088 | one caller on a quiet disk: a hit builds nothing and leaves the slot, a miss builds once, a success leaves a slot that hits, a failure leaves it as it was |
| ResultCache.Cache.ApplyGrace | src/cache.rs:204-225 | the in-place rewrite of the results and the pending map equal the grace function of the inputs |
| ResultCache.PutThenGet | src/cache.rs:152-194 | what a store means to every later lookup: if the file existed and no stamp moved, lookups for that file are answered exactly when trigger and stamps are those from before the run; every other lookup answers as before |
| DaemonRuns.EveryHitIsCurrent | src/daemon.rs:279-333 | in every interleaving, a cached answer is, up to grace downgrades, what the checks give for an unscoped request on contents that were on disk when this request looked up their stamps; of a config or registry absent then, unless it existed in between since the stored run found it absent |
| DaemonRuns.StampsFoundAgain | src/cache.rs:46-62 | what a stored run saw is what is on disk whenever its stamps are found again, with the same exception |
| DaemonRuns.LatePutKeepsCurrentEntry | src/cache.rs:176-194 | however late a store comes, a stamp of the present entry that is still current is also the stamp the stored run started from, so an outdated run never replaces a current entry; for an absent path, unless it existed since the entry was stored |
| DaemonRuns.ScopedIsNeverStored | src/daemon.rs:317-327 | every stored entry comes from a request without changed lines |
| DaemonRuns.PendingIsSerial | src/daemon.rs:317-327 | after every run the pending failures are those of the calls made under the lock, one after the other in lock order |
| DaemonRuns.BlocksInLockOrder | src/cache.rs:204-225 | so in every interleaving a blocking failure is downgraded exactly when its key did not fail the last time, in lock order |
| DaemonRuns.RunKeepsInv | src/daemon.rs:270-335 | the invariant holds after every run of requests, lock steps and edits |
| DaemonReplies.EveryReplyIsItsOwnRun | src/daemon.rs:299-334 | in every run, a request that ran its checks, with changed lines or not, replies with as many results as they gave on what it saw, each as it is, except that a live blocking failure is advisory, with the note, when its key did not fail the last time in lock order |
| DaemonReplies.EveryEntryIsLastStore | src/cache.rs:176-194 | the entry for a file is what the last request without changed lines that found no stamp moved put there |
| DaemonReplies.HitIffLastStoreMatches | src/daemon.rs:289-299 | a lookup is answered from the cache exactly when that request had its trigger and the stamps now found, and then with that request's reply; otherwise the checks run |
| DaemonReplies.RunsOnlyAfterAMiss | src/daemon.rs:287-299 | the checks of a request without changed lines run only after a lookup that found no answer |
| DaemonReplies.ScopedNeverLooks | src/daemon.rs:287-299 | a request with changed lines never looks into the cache |
| DaemonReplies.AnswersAreFinal | src/daemon.rs:270-335 | an answer never changes, and only a request that still reads or runs can fail |
| DaemonProgress.UnchangedFileIsServed | src/daemon.rs:279-299 | a request alone on a quiet disk is answered from an entry with its trigger and the present stamps, by exactly these steps |
| DaemonProgress.ChangedFileRuns | src/daemon.rs:299-334 | without such an entry it runs, replies with what its checks give, and, if the file exists, stores that under the present stamps |
| DaemonProgress.ScopedRequestRuns | src/daemon.rs:299-334 | with changed lines it runs without a lookup, replies, and stores nothing |
| AbsentFiles.StaleIffExposed | src/daemon.rs:279-333 | for every history, file and watched path: some run over it gives a stale answer exactly when there are instants of a run and a later lookup at which all stamps agree and the path is absent, while it exists when the run reads it |
| AbsentFiles.ExposedIsStale | src/daemon.rs:279-333 | such a run, with the config read where the source reads it, before the lookup |
| AbsentFiles.StaleIsExposed | src/cache.rs:46-62 | nothing else makes an answer stale; in particular never the checked file |
| AbsentFiles.StaleIffBrief | src/cache.rs:46-62 | when the file and the other path are left alone, exactly when the path was absent, present and absent again |
| LatePuts.OverwritesIffComes | src/cache.rs:176-194 | for every history: some run is about to replace an entry with a current stamp by one with another exactly when that path was absent, came while the file existed, and is absent again at the end |
| Grace.PendingTracks | src/cache.rs:204-225 | after any calls the pending map holds exactly the keys whose latest blocking-severity, non-batch result failed |
| Grace.BlocksIffStillFailing | src/cache.rs:204-225 | a result is downgraded exactly when it is a blocking failure whose key did not fail the last time, earlier results of the same call included; all others are reported as they are |
| Grace.BlocksIffCheckStillFailing | src/cache.rs:204-225 | in terms of files and checks: when all paths are without the separator, a blocking failure is downgraded exactly when this check on this file did not fail the last time |
| Grace.BatchLeavesNoTrace | src/cache.rs:205-207 | a batch call reports its results unchanged and changes no later call |
| Grace.KeysDistinguish | src/cache.rs:212 | keys of paths without the separator identify file and check |
| Grace.SeparableIff | src/cache.rs:212 | a path is without the separator exactly when no shorter path shares a key with it |
| Grace.KeysCollideIff | src/cache.rs:212 | two paths share a key for some checks exactly when one with the separator begins the other with the separator |
| Grace.KeysCanCollide | src/cache.rs:212 | one such pair of paths and checks |
| Ownership.RunKeepsInv | src/daemon.rs:78-118 | in every run, exactly the process past the lock holds it, a listening process's socket entry is its own, and whatever a displacer is after is dead or the holder, recorded as such |
| Ownership.StepKeepsInv | src/daemon.rs:140-197 | every step of acquiring, displacing, clearing, binding and dying keeps that |
| Ownership.OneOwner | src/daemon.rs:81-87 | at most one process is past the lock, and a process that died does not hold it |
| Ownership.OnlyTheHolderMovesTheSocket | src/daemon.rs:88-98 | whoever unlinks or binds the socket path holds the lock |
| Ownership.ServingLastsForLife | src/daemon.rs:81-118 | a listening daemon keeps lock and socket for as long as it lives, whatever starts, displacements and crashes happen |
| Ownership.UnlinkedWasSilent | src/daemon.rs:186-197 | a live daemon about to lose its socket is one from before the lock, and it was not answering when the process about to unlink it, already holding the lock, last probed that socket |
| Ownership.ArmedHasProbe | src/daemon_lock.rs:424-426 | every process on its way to signal has probed the socket again and got no answer |
| Ownership.SignalledHolderWasSilent | src/daemon_lock.rs:409-436 | a process that is signalled is dead or holds the lock now, held it at that probe, and was then hung or not yet listening |
| OwnershipProgress.DisplacerTakesOverIff | src/daemon.rs:165-177 | a displacer that looks at a free lock is alive after that look, and by its own steps it can take the lock, record itself and serve exactly when nobody answers on the socket |
| OwnershipProgress.HungHolderIsReplaced | src/daemon.rs:140-177 | for every state with a holder that listens but does not answer: the exact steps by which a new start ends it, by SIGTERM or else by SIGKILL, and comes to hold the lock, recorded, and serve |
| OwnershipProgress.StartServes | src/daemon.rs:78-118 | a start on a free lock with nobody answering ends in serving, whether its pid could be recorded or not |
| OwnershipProgress.WaiterServes | src/daemon.rs:149-180 | so does one that waited, once the previous owner has gone |
| OwnershipProgress.EvicterServes | src/daemon.rs:186-197 | and a holder that asked an old daemon to exit, once that does not answer |
| OwnershipProgress.StartYields | src/daemon.rs:157-179 | a start gives way to a daemon that answers: at once to one of its version, after the wait to another |
| OwnershipProgress.HolderYields | src/daemon.rs:186-197 | a holder that an old daemon keeps answering gives the lock up |
| OwnershipProgress.OwnerHangs | src/daemon_lock.rs:403-408 | an owner that hangs is such a holder that does not answer, and is itself again when it resumes |
| OwnershipProgress.CrashedOwnerIsReplaced | src/daemon.rs:78-98 | an owner that crashes frees the lock and leaves its socket and its record, and the next start takes over |
| OwnershipProgress.TermIsInOrder | src/daemon_lock.rs:409-427 | before SIGTERM a displacer has read the recorded pid, verified it, got no answer on the socket, and read the same pid again, in this order |
| OwnershipProgress.KillIsInOrder | src/daemon_lock.rs:427-435 | before SIGKILL it has then sent SIGTERM and verified the process again |
| OwnershipProgress.LostTargetLooksOnce | src/daemon_lock.rs:424-434 | a displacer whose target answers, is not recorded any more or is not verified any more signals nobody: it looks at the lock once and goes on or gives up |
| OwnershipProgress.NoTargetGivesUp | src/daemon_lock.rs:417-436 | without a recorded or verified process it gives up, and when the lock is still taken some time after SIGKILL |
| OwnershipProgress.RetryingChangesNothing | src/daemon.rs:151-180 | waiting for the previous owner leaves everything as it was |
| OwnershipProgress.WaitingChangesNothing | src/daemon_lock.rs:343-354 | so does waiting for a signalled one, or for an old daemon to exit |
| OwnershipGaps.AnsweringDaemonIsSignalledIff | src/daemon_lock.rs:424-427 | from every reachable state before the second probe, and for every outcome of that probe: some continuation signals the target while it listens and answers exactly when the probe got no answer and the target has not failed to unlink the socket |
| OwnershipGaps.SignalKills | src/daemon_lock.rs:427-435 | in such a state the signal can end that daemon |
| OwnershipGaps.HealthyDaemonCanBeSignalled | src/daemon_lock.rs:409-436 | from every state with a free lock and a leftover socket, steps without anyone hanging after which an answering daemon is about to be signalled: it was probed before it listened |
| OwnershipGaps.OldDaemonLosesSocketIff | src/daemon.rs:186-189 | from every state before a holder's probe of a live pre-lock daemon's socket: that probe lets it unlink the socket exactly when the daemon does not answer |
| OwnershipGaps.AnyoneCanStartClearing | src/daemon.rs:78-98 | whenever the lock is free, such a state is three steps of a new process away |
| Levenshtein.Levenshtein | src/config.rs:333-353 | returns the recursive minimum edit distance |
| Levenshtein.FillTable | src/config.rs:336-351 | every cell of the filled table is the distance of its two prefixes |
| Levenshtein.LevenshteinOneRow | src/inline_ignores/rules.rs:165-178 | the one-row version returns the same distance |
| Levenshtein.BestScript | src/config.rs:333-353 | some edit script between the texts costs exactly the distance |
| Levenshtein.NoCheaperScript | src/config.rs:333-353 | and none costs less |
| Levenshtein.ZeroIffEqual | src/config.rs:333-353 | the distance is zero exactly for equal texts |
| Levenshtein.Symmetric | src/config.rs:333-353 | the distance is symmetric |
| Levenshtein.Triangle | src/config.rs:333-353 | the triangle inequality |
| Levenshtein.LengthGap | src/config.rs:333-353 | it is at least the difference of the lengths |
| CivilDate.CivilIsRight | src/false_positive.rs:129-141 | every day number that does not overflow becomes a valid date with that day number |
| CivilDate.CivilCounts | src/false_positive.rs:129-141 | the next day number becomes the next day |
| CivilDate.CivilStarts | src/false_positive.rs:129-141 | day 0 is 1970-01-01 |
| CivilDate.RoundTrip | src/false_positive.rs:129-141 | a date, counted and converted back, is itself |
| CivilDate.EraIsFloor | src/false_positive.rs:131 | the guarded truncating division is the floor, for negative days too |
| CivilDate.YearOfEraIsRight | src/false_positive.rs:133 | the year within the era is the one whose first of March is the last not after the day; no unsigned underflow |
| CivilDate.SplitEra | src/false_positive.rs:130-132 | the day of the era is below 146097 and both recombine to the day number |
| CivilDate.SplitYear | src/false_positive.rs:133-135 | the day of the year is between 0 and 365, without unsigned underflow |
| CivilDate.DayNumberCounts | src/false_positive.rs:129-141 | the reference: the next day of a valid date is valid and has the next number |
| CivilDate.DayNumberIsOrdered | src/false_positive.rs:129-141 | the reference: later dates have larger numbers |
| Affected.BuildReverseAdjacency | src/affected.rs:393-402 | each package is mapped to exactly those that import it, and only imported packages are mapped |
| Affected.ReverseBfs | src/affected.rs:408-424 | visits exactly the packages with an import path, possibly empty, to a seed; terminates on cyclic graphs |
| Affected.PackageIndex.AddPackage | src/affected.rs:444-460 | files go to the last package that lists them, directories to the first |
| Affected.CollectSeeds | src/affected.rs:586-608 | without a fully removed package the seeds are exactly the owners of changed files that are not deleted, and of the directories that deleted and renamed `.go` files were in; otherwise the first such file whose directory no package is in any more |
| Affected.RemovedIffNoDirectory | src/affected.rs:487-491 | the directory lookup fails for the own path of a deleted, or the old path of a renamed, `.go` file exactly when no package has a file in its directory; added, modified and other files are never looked up |
| Affected.SeedsAreRight | src/affected.rs:464-491 | the two index lookups together give exactly the seeds |
| Affected.ComputeAffected | src/affected.rs:525-619 | which bail-out, for which first path, exactly when; otherwise exactly the packages that reach a seed by imports |
| Affected.AnswerHoldsSeeds | src/affected.rs:609-619 | the answer holds the package of every changed file and of every removed file's directory |
| Affected.AnswerHoldsSurvivor | src/affected.rs:583-608 | in particular the package that still lives in the directory a `.go` file was deleted or renamed from |
| Affected.AnswerIsLeastClosed | src/affected.rs:609-619 | the answer is closed under importers and is the least such set with the seeds |
| UnionFind.Root | src/union_find.rs:9-14 | returns the representative and compresses the path without changing any set |
| UnionFind.Union | src/union_find.rs:17-23 | merges exactly the two sets |
| Lcom4.Lcom4Components | src/architecture_checks.rs:973-997 | for every list of ids, the number of connected components of the methods under "share a field or joined by a resolved same-type call", plus one for each listing of a method before its last; and exactly when a signal was found |
| Lcom4.MethodsAreDistinct | src/architecture_checks.rs:973-981 | those methods are the listed ids, each once |
| Lcom4.EarlierIsAlone | src/architecture_checks.rs:977-981 | a listing before the last of its method is joined to nothing, as the index keeps the last |
| Lcom4.RepeatedListingsCount | src/architecture_checks.rs:973-997 | the components of the listings are those of the methods and one for each such listing |
| Lcom4.CountIsExactIff | src/architecture_checks.rs:973-997 | so the count is the number of components of the methods exactly when no id is listed twice |
| Lcom4.DeclaredTwice | src/architecture_checks.rs:973-997 | a method listed twice counts two, where the one method is one component |
| Lcom4.UnionSharedFieldAccesses | src/architecture_checks.rs:898-918 | joining neighbours in each field's list joins all pairs that share a field, and nothing unrelated |
| Lcom4.UnionSameTypeCalls | src/architecture_checks.rs:922-943 | joins exactly along resolved same-type calls between listed methods, a repeated one standing for its last listing |
| Lcom4.RepsAreComponents | src/architecture_checks.rs:993-996 | afterwards two methods have one representative exactly when connected |
| Lcom4.CountOfReps | src/architecture_checks.rs:993-996 | so the number of representatives is the number of components |
| Lcom4.UnlistedIsAlone | src/architecture_checks.rs:874-893 | methods without own signal are related to none, so dropping them removes only singletons |
| Lcom4.KeptIff | src/architecture_checks.rs:874-893 | a listing is kept exactly when its method accesses a field or is an end of a resolved call within the type |
| Lcom4.KeptOneByOne | src/architecture_checks.rs:874-893 | listings are kept one by one, in order |
| Lcom4.SignalIff | src/architecture_checks.rs:987-991 | the debug assertion holds exactly when no method of the type has a signal, some listed one accesses a field, or some same-type call has both ends listed |
| Lcom4.SignalCanBeMissing | src/architecture_checks.rs:987-991 | methods only called by a pruned method all pass the filter, and the assertion fails, although resolved calls go to listed methods only |
| Glob.PatternsFindSegment | src/glob.rs:5-34 | the four patterns made of a name match exactly the paths in which the name stands between separators, no line break before or after it |
| Glob.ScopeFindsSegment | src/glob.rs:42-57 | and so does the scope made of them, for plain names |
| Glob.ClearIffSegment | src/config.rs:259-279 | on paths without line breaks that is: the name is a segment |
| Glob.LineBreakHidesSegment | src/glob.rs:5-34 | a path whose segment the patterns miss |
| GlobLaws.PatternByPieces | src/glob.rs:5-34 | a pattern matches a text exactly when its first piece, `**/`, `**`, `*`, `?` or a character, stands for a beginning of it and the rest matches what follows |
| GlobLaws.InScopeIff | src/glob.rs:42-57 | a path is in scope exactly when some pattern without `!` matches it, or there is none, and no pattern after a `!` does |
| GlobLaws.ExclusionTakesAway | src/glob.rs:42-57 | one more excluded pattern takes away exactly what it matches |
| Layering.LayerOf | src/architecture_checks.rs:151-158 | the first layer whose name is a segment of the node, or none if no layer's is |
| Layering.ComponentIsClearLayer | src/config.rs:324-329 | for every node, the first component that matches is the first layer whose name stands in it between separators, no line break before or after |
| Layering.ResolutionAgrees | src/config.rs:324-329 | for every node, the component is the layer that a segment search finds exactly when no line break hides that layer |
| Layering.NodeWithoutLineBreakIsSeen | src/glob.rs:5-34 | nothing is hidden in a node without a line break |
| Layering.RuleOfLayer | src/config.rs:280-293 | the rule found for a layer allows exactly itself and the layers after it |
| Layering.VerdictByPositions | src/architecture_checks.rs:387-422 | `component-deps` flags any edge exactly when both ends show a layer to the patterns, and the target's name does not occur from the source's layer on |
| Layering.AgreeIffTogether | src/config.rs:259-315 | both checkers flag the same edges between nodes that hide no layer exactly when equal layer names are adjacent, distinct names in particular |
| Layering.ApartDisagrees | src/config.rs:280-293 | for equal names apart, an edge between such nodes on which they differ |
| Layering.AgreeEverywhereIff | src/config.rs:259-315 | both flag the same edges between any nodes exactly when all layer names are equal, so that neither flags anything |
| Layering.TwoNamesDisagree | src/glob.rs:5-34 | for two names, an edge from a node that hides its layer, which only `layering` flags |
| Layering.ViolationsAgree | src/architecture_checks.rs:476-501 | the violations are those of `layering` between nodes of the graph, in the same order, exactly when every such edge is judged alike |
| Layering.SeenAgreeOn | src/config.rs:259-315 | which holds when no node hides a layer and equal names are adjacent |
| Layering.ReportsAgree | src/architecture_checks.rs:467-515 | for a layers-only config, exactly then, the `component-deps` report is that list followed by advisory findings only |
| Layering.NothingLeftOut | src/architecture_checks.rs:170-208 | when edges join nodes of the graph, that list is the whole `layering` report |
| ComponentDeps.ReportedIff | src/architecture_checks.rs:387-422 | for every config, an edge is reported exactly when it joins declared nodes of different components and no rule names the first, or the first rule that names it denies the second or has an allow-list without it |
| ComponentDeps.ComponentReport | src/architecture_checks.rs:467-515 | the whole report: those edges in edge order, then one advisory for each component or layer that no node belongs in |
| ComponentDeps.ResolvedIffBelongs | src/config.rs:295-329 | the component of a node is the first declared one that includes it, or else the first layer that does |
| ComponentDeps.ViolatesIffForbids | src/config.rs:304-314 | declared rules come before the layers, which allow themselves and what follows; without a rule nothing is allowed |
| ComponentDeps.LayeringReport | src/architecture_checks.rs:170-208 | the whole `layering` report: the edges from a later layer to an earlier one, in edge order |
| HunkMap.MapRangesThroughHunks | src/check.rs:1484-1521 | the loops give the mapping of each range in turn |
| HunkMap.Scan | src/check.rs:1490-1508 | the inner loop finds the first hunk not wholly before the range, and the lines gained before it |
| HunkMap.RangesMapInTurn | src/check.rs:1484-1521 | several ranges go where each would go alone, in turn |
| HunkMap.MappedIffNothingDeletedInside | src/check.rs:1484-1521 | a range that meets no hunk keeps its length and is not clamped, and maps line by line to the aligned old lines exactly when no pure deletion lies strictly inside it |
| HunkMap.SameText | src/check.rs:1484-1521 | and then the old lines it maps to have the same text |
| HunkMap.OrderIsKept | src/check.rs:1484-1521 | two such ranges keep their order and stay disjoint |
| HunkMap.OverlappedRange | src/check.rs:1495-1502 | if the first hunk ending at or after the start overlaps, the range becomes that hunk's old lines, or is dropped for a pure insertion |
| HunkMap.StraddledHidesLater | src/check.rs:1503-1508 | if it is a pure deletion, the range is shifted by the hunks before it and no later hunk is looked at |
| HunkMap.AlignmentAscends | src/check.rs:1484-1521 | the alignment of old and new lines that these results refer to is strictly increasing |
| HunkMap.AlignmentIsOneToOne | src/check.rs:1484-1521 | and one to one |
| ChangeCoupling.TallyRevisionsAndSharedCommits | src/change_coupling.rs:301-322 | both maps count exactly the included commits that change a file, or both files of an ordered pair |
| ChangeCoupling.FileRevisions | src/change_coupling.rs:330-344 | counts the same as the first map |
| ChangeCoupling.PassesAgree | src/change_coupling.rs:324-344 | maps with these counts are equal |
| ChangeCoupling.SharedIsLeast | src/change_coupling.rs:301-322 | a pair is changed together at most as often as either file |
| ChangeCoupling.ComputeCoupling | src/change_coupling.rs:93-102 | strictly ranked by coupling, ties by names, exactly the pairs that share a commit and pass the three thresholds, with their counts and quotient |
| ChangeCoupling.ComputeCouplingUnfiltered | src/change_coupling.rs:110-139 | the same for all pairs that share a commit |
| ChangeCoupling.ReportIsFilteredFullReport | src/change_coupling.rs:93-139 | the first report is the second, filtered by the thresholds, order included |
| ChangeCoupling.ThresholdsFilterScores | src/change_coupling.rs:348-375 | filtering while scoring equals scoring, then filtering |
| ChangeCoupling.SortIsStable | src/change_coupling.rs:96-100 | the sort gives descending coupling and keeps the order of equal ones |
| ChangeCoupling.StableSortIsUnique | src/change_coupling.rs:96-100 | every stable sort gives that result |
| ChangeCoupling.RankingIsUnique | src/change_coupling.rs:93-139 | a ranked report is determined by its contents |
| TextOrder.LessIff | src/change_coupling.rs:93-139 | the order of names that breaks ties: a beginning comes first, else the smaller character at the first difference |
| ChangeCoupling.CouplingIsAProportion | src/change_coupling.rs:355-362 | the subtraction does not underflow, the total is at least 1, coupling lies in (0, 1] and is 1 exactly when neither file changes alone |
| Transcripts.ReconstructSnapshots | src/backtest.rs:603-713 | the snapshots are those of the mutating events, in order, numbered from 1, each with the last known content before it; failures are counted |
| Transcripts.Find | src/backtest.rs:778-788 | the first occurrence, or proof that there is none |
| Transcripts.EditSplices | src/backtest.rs:653-667 | an edit replaces the first occurrence in the last known content, and fails exactly when that is unknown or has none |
| Transcripts.MultiEditIsAllOrNothing | src/backtest.rs:668-707 | a multiple edit is one mutation that does what its parts would do as single edits in turn, or one failure that changes nothing; for an unknown file each part is a failure |
| Transcripts.ReadsAndWritesAreKnown | src/backtest.rs:615-652 | a whole read tells the content and is no mutation; a write tells it and is one, without a text before |
| Transcripts.OthersAreIgnored | src/backtest.rs:603-713 | partial reads, missing parts and other tools do nothing |
| Transcripts.EditsChain | src/backtest.rs:653-707 | an edit's `before` is the `after` of the file's previous mutation when no full read came between |
| Transcripts.FailuresKeepKnown | src/backtest.rs:667-707 | failed and ignored events, and events of other files, leave what is known of a file |
| Transcripts.MutationsAreAll | src/backtest.rs:603-713 | no mutation is left out |
| Transcripts.MutationsAscend | src/backtest.rs:603-713 | and they are listed in order of events |
| Backtest.BacktestCache.Run | src/backtest.rs:325-514 | from any cache with valid entries, for either `only_new`, the report holds exactly the findings and counts of a fresh run of the requested checkers, or of all plain ones when none is requested, and fails exactly when that would or a name is unknown; it leaves valid entries, one for every stamped transcript of the run |
| Backtest.BacktestCache.TallyOf | src/backtest.rs:362-503 | one transcript is served from an entry with its stamp and key, else checked and stored; the result is fresh |
| Backtest.ChosenAreRequested | src/backtest.rs:336-354 | the plain and the model checkers chosen are together those requested, each as often |
| Backtest.CheckerFinds | src/backtest.rs:399-470 | what one checker looks at, when it fails, and what it finds: each finding on the new content, marked when the content before the edit gave its message too |
| Backtest.SameKeyIff | src/backtest.rs:355-358 | selections have the same key exactly when they hold the same checkers, each as often, in any order |
| Backtest.CheckSnapshot | src/backtest.rs:401-470 | runs each checker that looks at the snapshot once, and collects what they find |
| Backtest.ReportsAgree | src/backtest.rs:325-514 | two reports of one run have the same statistics and the same findings, each as often |
| Backtest.FreshForKey | src/backtest.rs:355-358 | a result stored under a key is right for every selection of checkers with that key |
| Backtest.KeyTellsSelectionsApart | src/backtest.rs:355-358 | selections with the same key hold the same checkers, each as often |
| Backtest.OrderNeverMatters | src/backtest.rs:396-470 | the order in which checkers are given changes neither findings nor counts |
| Backtest.VersionsMayGrow | src/backtest.rs:193-206 | entries stay valid when transcripts get new versions |

## Left out

- Parsing with tree-sitter, symbol extraction, grammar registries, call and type edges: they depend on libraries.
- git, `ps`, sockets, signals, clocks and the file system: they appear as steps and their outcomes only.
- Message texts, operations attached to findings, rendering, JSON, the command line, LSP and MCP.
- One-line metrics with thresholds, default check lists, path lookup, directory trust: each is one branch.
- `merge` in scripts/gen-unicode-tables.py, and merging of changed ranges: they would add easy members.
- DaemonRuns.EveryHitIsCurrent: external commands are taken not to read the config; the `unlocated_deletion` flag, which matters to scoped requests only, is part of what a scoped run may depend on and is not modelled.
- DaemonRuns.RunKeepsInv: saving and loading the cache file is not modelled; a run starts with an empty cache.
- ModelCache.EveryReturnIsFresh: a build is taken to read listed files only; a poisoned mutex is not modelled.
- Ownership.RunKeepsInv: errors opening the lock file end a start before it takes part; client requests other than pings, and retirement of daemons of another version, appear as a daemon that dies.
- Ownership.SignalledHolderWasSilent: says nothing about recycled pids, which the source guards against by the age of the process.
- Levenshtein.Levenshtein: texts are sequences of characters; the source first collects its strings into such lists.
- Layering.ResolutionAgrees: for layer names without `*`, `?`, `/` and leading `!`, as are the statements about verdicts that follow from it.
- ChangeCoupling.ComputeCoupling: coupling is an exact real, where the source rounds to a float; counts are unbounded where the source has 32 bits.
- Transcripts.ReconstructSnapshots: starts from decoded events; decoding JSON lines and stripping line numbers from read results are not modelled.
- Backtest.BacktestCache.Run: checkers are functions of path and source, one registry for the life of the cache, names without commas; transcripts do not change during a run, their stamps identify their texts, and a stamped one is readable. Per-process index isolation and parse caches are not modelled.
- Affected.ComputeAffected: the diff, the bail-out globs and the package-clause test are given as functions.
- HunkMap.MapRangesThroughHunks: parsing of hunk headers is not modelled; line numbers are unbounded.
