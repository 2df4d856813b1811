# A verified model of the debug server's stateful core

The server answers debug queries about simulations: where waveforms and logs are, what drives a
signal, where an X came from, what to do next. Most of its difficulty is state that outlives one
request. This project models that state in Dafny and proves what it promises.

| files | what they model |
|---|---|
| `Ordering.dfy`, `WaveLocks.dfy`, `WavePreemption.dfy` | the locks one waveform call takes, in sorted order, and the registration of the FSDB lock holder |
| `WaveProtocol.dfy`, `WaveSafety.dfy`, `WaveProgress.dfy` | the lock and preemption protocol as a step system over any number of calls; its invariant; safety over runs; deadlock freedom and preemption progress |
| `Connectivity.dfy`, `Router.dfy`, `RouterFacts.dfy`, `XTrace.dfy` | backend answers and their tags; routing NPI, then Source Graph with its frontier loop, then Static; what a route's answer and log say of the artifacts behind it; X-trace with whole-trace restarts |
| `HierarchyContext.dfy`, `CompileContext.dfy` | the two resolvers that hand out cached contexts, and the compile-evidence cache |
| `Session.dfy`, `SessionCases.dfy`, `SessionHistory.dfy` | cached results, provenance and invalidation, with handlers that begin at one moment and store at another; what tells two cases apart and what each handler leaves; the order and the case of cached results over whole histories |
| `Auditor.dfy`, `AuditorSections.dfy`, `AuditorRuns.dfy` | the workflow auditor over them; when it shows a result as stale and asks for its tool; following the auditor to the end |
| `SweepRetry.dfy`, `SweepTool.dfy` | which sweep retries are admitted; the retries the sweep suggests and when they end |
| `LogSnapshots.dfy`, `FailureEvents.dfy`, `TraceMetrics.dfy` | rerun baselines, per-group truncation, metric aggregation |
| `HierarchyDigest.dfy`, `PackedBus.dfy` | two script algorithms: a digest memoised over shared mappings, a packed bus and its layout |

`dafny verify dfyconfig.toml` checks the whole project.

## How the model is built

Code that updates state in place is a class whose methods are proved against a function of the
old state (`Session.SessionStore`, `LogSnapshots.SnapshotStore`, `TraceMetrics.Metrics`,
`HierarchyDigest.Digester`, `CompileContext.Cache`, `WaveLocks.LockTable`,
`WavePreemption.FsdbRegistry`); loops are methods with loops. What the server promises is then
proved about those functions. Concurrency is a step system: one step per atomic action of a
call, any interleaving; a session handler that awaits begins in one event and stores in a later
one; a recovery and the prerequisite gate are events of their own. Whatever comes from elsewhere (backend answers, plans, artifacts, file
contents, digests, real paths, time-outs) is an input or a nondeterministic outcome.

## Where the code does not keep a promise

Each is stated with a witness and with the exact condition under which the promise holds.

* A call that names an FSDB file takes the global FSDB lock if and only if the path that spells
  the reserved key does not come after every FSDB path (`FsdbCallTakesGlobalLock`,
  `ReservedKeyDisplacesFsdbLock`).
* A successful `build_kdb` forgets the discovery but not its provenance, so the next discovery,
  even of another case, clears nothing: results of the old case are served under the new one
  exactly when such survivors exist (`DiscoveryOneCase`, `ScanOutlivesItsCase`).
* For the same reason the auditor's guard against another case is lost: it presents a cold start
  to a target of another case exactly when that case's discovery is still cached
  (`OtherCaseIsColdStartIff`), and after a successful `build_kdb` it asks for a hierarchy with
  the old case's compile log (`BuildKdbDefeatsGuard`).
* A handler that awaits stores what it computed under the case and the results it began with.
  Without a successful `build_kdb`, cached results are of one case throughout exactly when no
  handler stores what it began under another case (`NoKdbOneCase`, `LateSweepMixesCases`); and a
  cached result has seen all it depends on exactly when no handler was overtaken
  (`ServerHistory`, `OvertakenRecommendation`).
* A hierarchy is to be built before the tools that need one. A recovery registers a handle and
  nothing else; a handle tool that names it passes the gate, which fills in a hierarchy state
  that no build stands behind, and from then on the gate is open to every tool. That happens
  exactly where the gate reaches an absent hierarchy and a registered handle stands in
  (`UnbuiltIff`, `RecoveredHandleOpensGate`).
* A sweep does not drop an older recommendation: the recommendation stays the newer of the two
  exactly until a sweep is stored beside it (`SweepOlderUntilSwept`).
* The server means not to replay a sweep for ever. Clocking blocks among the candidates are
  dropped from the discovered count only as far as they were seen, so a truncated sweep can
  suggest a cap that is too small again. Under one scope this goes on for ever exactly when the
  cap lies in an interval that its retries do not leave (`RetriesForEverIff`); with one family
  of interfaces, exactly when the cap is below the number of candidates and reaches a clocking
  block (`OneFamilyForEverIff`). One clocking block in front of 64 handshakes is enough
  (`ClockingBlockRetriesForEver`). With scopes that are dropped on the way, retries have no end
  exactly when such a cap is reached (`EndlessIff`), and then following the auditor never settles
  (`EndlessSweepNeverSettles`, `TrappedSweepNeverSettles`).
* The discovery requires a root, and the auditor suggests it without one unless its caller names
  one, though the session may remember it. The first missing step lacks a required argument
  exactly then (`FirstStepCallableIff`); a successful `build_kdb` leads into such a state
  (`BuildKdbStrands`).
* The auditor suggests a discovery by the root alone, also to a caller that names a case
  directory. The discovery of a shared root reports no case directory, so it is of another case,
  and is asked for again, for ever (`SharedRootNeverSettles`).
* Together: following the auditor can settle exactly when a discovery that lies ahead has a root
  and finds the target's case, and the sweep asked for now, if any, has an end (`SettlesIff`). It
  can go on for ever exactly when it goes astray in that way, or a sweep without end lies ahead
  (`UnboundedIff`).
* If the discovery detects no simulator, the auditor asks for the hierarchy for ever
  (`UndetectedNeverSettles`); in general a build settles it exactly when it detects the
  simulator the discovery found (`BuildSettlesIff`). `build_kdb` is not in the workflow order
  and sorts last.
* The compile cache says that the newest record wins. A refreshed key keeps its place, so it
  does not win unless it was new or already last (`LatestIsLastOnlyWhenNew`,
  `RefreshedContextDoesNotWin`).
* Recorded artifact digests may repeat, because a dominating artifact replaces the requested
  digest: they are distinct exactly when every attempt that selected another artifact selected
  an unrecorded one (`RecordedDistinctIff`, `SelectedArtifactMayRepeat`).
* The round limit and a stalled frontier end the loop without a log entry. A returned log
  mentions no Source Graph exactly when NPI answered, or the first attempt stopped in that way
  with nothing conclusive and nothing newly kept (`NoSourceEntryIff`, `SilentRoute`).
* The previous snapshot of a log is the last run's exactly when nothing else than that log's
  events was new since the last run's were first seen (`PreviousIsLastRunIff`, `RevertedRun`).
* An automatic diff is to use the previous snapshot as its baseline, but excludes nothing. Once a
  log has been parsed, its diff is with itself exactly when its events were new, or nothing newer
  was captured before (`AutoDiff`, `BaselineAfterParseIff`, `ParsedRerunComparesWithItself`).

## Model

| member | source | states |
|---|---|---|
| WaveLocks.LockTable.WaveLocksFor | server.py:1673-1688 | returns one lock object per key, in key order, the same object for the same lock in every call; objects are created on first use and never replaced |
| WaveLocks.LockTable.ObjectsDiffer | server.py:1661-1688 | two locks are one object exactly when they are one lock |
| WaveLocks.LocksAscend | server.py:1676-1688 | every call's locks are strictly ascending in one global order, so none is taken twice |
| WaveLocks.LockTaken | server.py:1680-1688 | a lock is taken exactly when some path asks for it and no later path displaces its entry |
| WaveLocks.FsdbSuffixIff | server.py:1684 | a path is an FSDB path exactly when it ends in a dot and the four letters, each in either case |
| WaveLocks.FsdbCallTakesGlobalLock | server.py:1683-1687 | an FSDB call holds the one FSDB lock if and only if the reserved spelling is not listed after all its FSDB paths |
| WaveLocks.ReservedKeyDisplacesFsdbLock | server.py:1683-1687 | the two-path input that loses the FSDB lock, and the order that keeps it |
| WavePreemption.FsdbRegistry.PreemptLowerPriority | server.py:1691-1704 | sets exactly a registered, strictly lower-priority, other holder's event; any other holder's event is untouched |
| WaveProtocol.StepKeepsInv | server.py:1771-1818 | every step of any call keeps: held locks are a prefix of the sorted list, owners are exactly the holders, the registration is exactly the registered owner |
| WaveProtocol.ReachableInv | server.py:1739-1826 | that invariant holds in every reachable state, for any number of calls |
| WaveSafety.BodiesExcludeEachOther | server.py:1752-1753 | two calls inside their tool bodies share no lock, so FSDB bodies never overlap |
| WaveSafety.FsdbBodiesExclude | server.py:1680-1688 | two calls that name FSDB files, whenever they arrive and whatever happens in between, are never in their bodies together, unless one also names the reserved spelling |
| WaveSafety.ThreadsWithinLimit | server.py:1821 | no run has more calls in worker threads than there are threads |
| WaveSafety.RegistrationIsExact | server.py:1796-1817 | a registration names the owner of the FSDB lock with its priority, and names every registered call |
| WaveSafety.RegisteringOverwritesNone | server.py:1796-1798 | registering never overwrites a live registration |
| WaveSafety.ClearingRemovesOwn | server.py:1814-1815 | cleanup removes the call's own registration and never another's |
| WaveSafety.FinishedHoldsNothing | server.py:1807-1818 | a finished call owns no lock and is not registered |
| WaveSafety.EventHasCause | server.py:1691-1704 | over every run, an event becomes set only by its own client or by a strictly higher-priority waiter while its call was registered |
| WaveSafety.SubmissionPreemptsIff | server.py:1761-1768 | whatever happens between arrival and submission, with or without a free worker thread: the submission sets the event of a registered other holder of lower priority exactly if one of the path list is an FSDB path, and no other event |
| WaveSafety.EachWaitAsks | server.py:1778-1794 | in every run a call enters a timed acquire of the FSDB lock, the first time or again, only after a step of its own that sets the event of whichever lower-priority call is registered then |
| WaveSafety.TopPriorityOnlyClientCancels | server.py:1669-1704 | a call of the highest priority in use is cancelled by its own client only |
| WaveSafety.CancelledNeverRuns | server.py:1781-1806 | a call whose event is set before its last checkpoint never runs its body |
| WaveSafety.UncancelledRuns | server.py:1781-1818 | a call that ends without its event set has run its body to the end |
| WaveProgress.GreatestAwaited | server.py:1676-1678 | among any waiting calls one awaits a lock of greatest key |
| WaveProgress.OwnerWaitsHigher | server.py:1676-1688 | the owner of an awaited lock, if it waits, waits for a strictly greater key |
| WaveProgress.SomeoneAdvances | server.py:1771-1818 | in every state with an unfinished call, some call has an advancing step |
| WaveProgress.EveryStateDrains | server.py:1673-1818 | from every state that meets the invariant all calls present can run to their end: no deadlock |
| WaveProgress.ReachableDrains | server.py:1739-1826 | so they can from every state that the server can reach |
| WaveProgress.CancelledCallLetsGo | server.py:1781-1818 | once its event is set, a call ends within a bounded number of its own checked steps, whatever the others do |
| WaveProgress.CancelledCallCanMove | server.py:1781-1818 | a cancelled call always has such a step: it is never kept waiting |
| WaveProgress.PreemptedHolderReleasesFsdb | server.py:1778-1794 | one request of a higher-priority waiter, at its submission, before its first acquire or after a poll, sets the registered holder's event; after that many checkpoints the holder is done and owns no lock |
| WaveProgress.ArrivalFreesFsdb | server.py:1761-1768 | an arriving call whose path list has an FSDB path brings that about for any registered holder of lower priority by its submission alone, before it has a worker thread |
| Connectivity.SingleBackendProvenance | server.py:1949-1976 | true exactly when every explicit tag of the answer and of its hops names the expected backend |
| Connectivity.NpiResultUsable | server.py:1979-2018 | accepts exactly the NPI answers that the database quality supports, for drivers and for loads; a degraded database never proves an empty load list, nor a driver that a clean one would not |
| Router.SearchArtifacts | server.py:3284-3580 | the frontier loop ends within the round limit; attempts are expansions plus one, one digest per attempt, the last one reported; every earlier attempt was discarded for new frontiers and an unseen requested digest; the log grows by one entry per expansion and by at most the last attempt's |
| Router.EndIsUnique | server.py:3284-3580 | the inputs decide the number of attempts, the digests, the reason and the final attempt uniquely |
| Router.FrontiersGrow | server.py:3409-3423 | the accumulated frontier list strictly grows from attempt to attempt |
| Router.RecordedDistinctIff | server.py:3331-3333 | the recorded digests are distinct exactly when every attempt that selected another artifact selected an unrecorded one |
| Router.SelectedArtifactMayRepeat | server.py:3331-3333 | inputs for which three attempts record one digest |
| Router.TryNpi | server.py:2986-3736 | a usable NPI answer is returned and any other is logged once, with status and reason telling why; a cancelled query, or a cancelled attachment of dependencies, is raised |
| RouterFacts.FirstEntryIs | server.py:2657-2679 | a route that NPI does not answer logs first what NPI came to, with its reason; under the policy a missing database and a failed start show as skipped |
| Router.TrySourceGraph | server.py:3284-3638 | returns from the last artifact exactly when it is conclusive; else keeps at most one checked inconclusive answer |
| RouterFacts.FactReturnedIff | server.py:3540-3638 | where artifacts were built, a fact of the last one is what is returned; a final artifact is reported exactly for a positive fact, a negative one of a full hierarchy, or an inconclusive driver answer that is kept; in a bounded bootstrap its query status is `found` |
| RouterFacts.GoesOnIff | server.py:3376-3536 | an attempt is followed by another exactly when a round is left, only missing scope keeps its own answer from being complete, it names a signal not in scope, and the expanded plan is another than all before |
| Router.Bootstrapped | server.py:3640-3690 | an unproven bounded bootstrap returns no fact, with the stopping reason, and never tries Static |
| RouterFacts.BootstrapSaysNothing | server.py:3640-3690 | a bounded bootstrap that reports no final artifact names no driver, no load and no fact, only a reason |
| Router.FallBack | server.py:3687-3736 | Static is a whole recomputation, returned exactly if it answers with Static tags only; a kept check displaces it exactly when it recognises nothing |
| RouterFacts.StandInReturnedIff | server.py:3690-3736 | after a fall-back the answer is Source Graph's exactly when Static recognises nothing of the driver and the last artifact gave a checked inconclusive answer |
| RouterFacts.StaticLoggedAs | server.py:3690-3736 | the log ends with Static's entry: inconclusive with its reason where it recognises nothing, else a success |
| Router.Route | server.py:2986-3736 | every returned payload carries one backend's tags and facts, from NPI exactly when its answer is usable, else as the end of the frontier loop decides; the whole log: NPI's entry, one entry per expansion, at most two for how the search ended or one for why it was blocked, Static's entry exactly on a fall-back; nothing is returned past a failed stage that has no fallback, and nothing is raised without a cause |
| Router.NoSourceEntryIff | server.py:3396-3580 | a returned log has no Source Graph entry exactly when NPI answered, or the first attempt was stopped by the round limit or a stalled frontier, concluded nothing and kept nothing that is not logged already |
| Router.SilentRoute | server.py:3399-3423 | inputs of such a route |
| XTrace.NpiTrace | server.py:4283-4436 | the chain is NPI's own answers, complete, or the first other answer aborts the whole trace, for the reason it gives |
| XTrace.TryNpi | server.py:4530-4617 | the NPI slot gives its whole chain exactly when every lookup is its own, else one log entry with the reason |
| XTrace.GuardLookup | src/source_graph_x_trace.py:109-401 | a lookup settles exactly on a tagged, resolved driver or a complete absence; scope is asked for exactly by uncovered targets or open children |
| XTrace.SourceTrace | server.py:4283-4436 | a Source Graph chain exists exactly when every lookup settles; the first that does not decides how the attempt ends |
| XTrace.SearchScopes | server.py:4675-5000 | targets are distinct, strictly grow with each restart and stay within the limit; the chain is the last artifact's whole chain, exactly when that artifact settles the trace |
| XTrace.LastAttemptIsUnique | server.py:4675-5000 | the inputs decide the number of restarts |
| XTrace.StaticTrace | src/signal_driver.py:138-149 | the Static chain is one self-tagged hop per lookup, complete, unless a lookup fails or is cancelled |
| XTrace.StaticStopIs | src/signal_driver.py:730-760 | a Static node stops at a primary input, port or register boundary exactly by its driver's kind, and is unresolved only without a known kind |
| XTrace.HandleTrace | server.py:4442-5078 | no node of a discarded attempt reaches the chain; the ledger is the NPI restart, one entry per expansion, the final Static restart; at most limit minus one expansions; every tag in the chain names the reported backend; each log entry has the status and the reason of what its backend came to, and the fall-back reason is the last attempt's if any artifact was planned, else NPI's |
| HierarchyContext.Resolve | server.py:996-1067 | hands out the first acceptable candidate's hierarchy with the fingerprint, computed now, of a log set the request may stand for, equal to the recorded one if every hierarchy records one |
| HierarchyContext.CandidatesExpectNow | server.py:1002-1047 | every candidate expects the current fingerprint of the bare log or of a recorded set for the same log |
| HierarchyContext.RecordsAreTried | server.py:1002-1047 | every recorded build of the requested log, for its simulator or none in particular, is tried under its own handle and under the merged handle that its logs have now |
| CompileContext.Cache.Store | server.py:663-682 | the stored record is there afterwards under a unique key; at most the oldest is evicted |
| CompileContext.Cache.Resolve | server.py:685-714 | a record handed out is of the same log, of the requested simulator or `auto`, of the requested supplements, and its snapshot is the fingerprint of those logs now; it is the one furthest to the end, and there is none exactly when every record differs in one of these |
| CompileContext.LatestIsLastOnlyWhenNew | server.py:663-714 | a stored record is the first one looked at exactly when its key was new or already last |
| CompileContext.RefreshedContextDoesNotWin | server.py:693-694 | caching A, B, A again leaves B ahead of A |
| Session.SessionStore.SimPathsHandler | server.py:1375-1404 | the discovery's whole effect: another identity clears all simulation results, the same one drops dependents and a hierarchy whose logs changed; the next six rows say which is which |
| SessionCases.IdentityIff | server.py:477-509 | two discoveries are of one case exactly when root and case directory are absent in both or one real path, case names and simulators are equal, and compile logs agree one by one in real path, phase, size and time |
| SessionCases.OtherCaseClearsAll | server.py:1377-1382 | over a cached discovery that differs in any of these, only the new discovery stays cached |
| SessionCases.SameCaseKeeps | server.py:1383-1389 | over one that agrees, or none, the log, the sweep and the recommendation go, the scan stays, and the hierarchy stays or goes as a whole |
| SessionCases.HierarchyKeptIff | server.py:512-558 | in every consistent session the hierarchy survives such a discovery exactly when its record names a log set that still has the recorded fingerprint, and no hierarchy of another fingerprint is registered under its handle |
| SessionCases.BuiltHierarchyKeptIff | server.py:512-558 | a hierarchy just built survives a discovery of its case exactly when its logs still have the fingerprint it was built from |
| SessionCases.AnchorIs | server.py:1390-1404 | a discovery is remembered by its root, case directory, simulator and first log of the elaborate phase, else its first log |
| Session.SessionStore.HierarchyHandler | server.py:1405-1418 | the build's whole effect on state, cache, provenance and handles |
| Session.SessionStore.LogHandler | server.py:10452-10464 | storing a log result drops the recommendation and stores result and provenance together |
| Session.SessionStore.ScanHandler | server.py:8349-8353 | storing a scan drops the recommendation |
| Session.SessionStore.InvalidateDownstream | server.py:436-445 | dropping dependents one by one drops exactly the dependency table's entries |
| SessionCases.HandlerKeeps | server.py:228-237 | a new hierarchy, log or scan drops the recommendation and keeps every other result with its provenance; a sweep keeps the recommendation too |
| Session.SessionStore.CheckPrerequisites | server.py:364-392 | names the first required step that is neither exempt, present nor restorable, and has filled in those before it |
| Session.GateOpensIff | server.py:310-392 | in every consistent session the gate opens exactly when each required step is exempt, present, or the hierarchy of a handle tool that names a registered handle |
| Session.GateFillsIff | server.py:310-355 | it changes the session exactly where it reaches an absent hierarchy of that kind, by a state without log, handle and snapshot |
| Session.UnbuiltIff | server.py:313-323 | a hierarchy state without a build result comes about exactly there |
| Session.RecoveredHandleOpensGate | server.py:1161-1167 | after a recovery and one handle tool the gate is open to every tool, though nothing was built |
| SessionHistory.EventKeepsFresh | server.py:228-237 | every handler keeps cached results newer than what they depend on; each has seen all it depends on exactly as long as no handler stores a result after one it depends on was replaced |
| SessionHistory.ServerHistory | server.py:228-237 | both over every history of the server from its empty session |
| SessionHistory.OvertakenRecommendation | server.py:8490-8494 | a recommendation begun before a log is parsed again is stored and served after it |
| Session.EventKeepsConsistent | server.py:170-195 | every event, recoveries and the gate included, keeps: results beside provenances of their kind; a cached hierarchy is the one the session state describes, and without one the state is absent or bare; a registered hierarchy has its snapshot |
| Session.ReachableSession | server.py:436-475 | so all that holds after any further events |
| Session.StartingSession | server.py:436-475 | so it holds in every session that the server can reach from its empty one |
| Session.ServeHierarchy | server.py:996-1067 | where every registered hierarchy has its snapshot, recovered ones included, one handed out has the fingerprint recomputed now |
| SessionHistory.DiscoveryOneCase | server.py:1375-1391 | a discovery leaves results of one case exactly when it met a cached discovery of another case or no survivor was computed under another case |
| SessionHistory.NoKdbOneCase | server.py:1375-1391 | over every history from the empty session without a successful `build_kdb`: all cached results were computed under the current case, or before any was known, exactly when no handler stored what it began under another case |
| SessionHistory.LateSweepMixesCases | server.py:8755-8764 | a sweep begun under one case and stored after the discovery of another is served under the other |
| SessionHistory.ScanOutlivesItsCase | server.py:8600-8604 | the discovery of another case drops the scan, unless a successful `build_kdb` came in between, after which it is served under the new case |
| Session.DomainsIndependent | server.py:197-201 | simulation handlers other than the reset leave the formal domain alone, and formal discovery leaves all else alone |
| SessionHistory.SweepOlderUntilSwept | server.py:228-237 | a recommendation stays newer than a cached sweep exactly until a sweep is stored beside it |
| Auditor.DiagnosticSnapshot | server.py:9607-9978 | tells of every section whether it is available and whether it is stale, and lists exactly the missing steps, with their arguments, in workflow order with a prioritised scan first and `build_kdb` last |
| AuditorSections.LogAskedIff | server.py:9543-9588 | where the case is known, a cached log is shown as stale exactly when its simulator is another than the discovered one, it is none of the discovered logs nor, where there are none, under the case directory, or its file has changed since; its parse is asked for exactly then or when none is cached |
| AuditorSections.RecAskedIff | server.py:9594-9603 | a recommendation is stale exactly when its simulator, compile log, log or waveform is another or its log has changed since; it is asked for exactly then or when none is cached, unless the case's log is clean |
| AuditorSections.HierAskedIff | server.py:9580-9583 | a hierarchy is stale exactly when its compile log or simulator is another than the discovered one; it is asked for exactly then or when none is cached |
| AuditorSections.ScanAskedIff | server.py:9152-9164 | a scan is stale exactly when it was of another compile log or simulator; it is asked for exactly then or when none is cached, beside a hierarchy of the case |
| AuditorSections.SweepAskedIff | server.py:9816-9880 | a sweep is asked for exactly when there is a waveform, the case's log has errors, and none is cached or the cached one is incomplete with a next call |
| AuditorSections.DiscoveryAskedIff | server.py:9627-9672 | the discovery is shown, and not asked for, exactly when it is cached and the target names no other root or case directory |
| AuditorSections.KdbAskedIff | server.py:9674-9710 | the KDB is asked for exactly for a shown Xcelium discovery whose first compile log has none, with automatic building on |
| AuditorSections.OtherTargetSeesNothing | server.py:9615-9660 | to a target of another case than the cached one nothing is shown, and only the discovery is asked for |
| AuditorSections.AskedArguments | server.py:391-435 | every step asked for carries the discovered paths and simulator as far as they suffice for the call, and nothing otherwise |
| Auditor.AscendingIsUnique | server.py:9933-9961 | steps of pairwise different keys have one sorted order, so the stable sort is determined |
| Auditor.MissingAscending | server.py:9933-9961 | the listed steps are strictly ascending in the source's sort key: no tool is listed twice |
| AuditorRuns.OtherCaseIsColdStartIff | server.py:9615-9672 | to a target of another case than the known one, sections and missing steps are a cold start exactly when that case's discovery is cached; only the discovery is asked for exactly then or when nothing else of the old case is missing |
| AuditorRuns.BuildKdbDefeatsGuard | server.py:8603-8604 | after a successful `build_kdb` it is no cold start, and where no hierarchy is cached one is asked for with the old case's compile log |
| AuditorRuns.FollowingLowersRank | server.py:9607-9978 | performing the first missing step successfully lowers a measure with the missing KDB most significant, unless it discovers another case than the target's |
| AuditorRuns.RunsAreShort | server.py:9607-9978 | no run is longer than the measure of its start, unless a rooted discovery ahead finds another case, and with ends to the sweeps that may yet be asked for |
| AuditorRuns.UnboundedIff | server.py:9607-9978 | with the artifacts in place there are runs of every length exactly when a rooted discovery ahead finds another case, or a sweep whose retries have no end lies ahead, before or after a discovery |
| AuditorRuns.SharedRootNeverSettles | src/path_discovery.py:278-323 | for a target that names a case directory beside a root whose discovery reports none, no run from the empty session settles, and there are runs of every length |
| AuditorRuns.FirstStepCallableIff | server.py:9632-9655 | with the artifacts in place, the gate lets the first missing step through, and it lacks a required argument exactly when it is the discovery of a target that names no root |
| AuditorRuns.FollowingSettles | server.py:9607-9978 | with the artifacts in place some run reaches an empty list, within the measure of its start, if a discovery ahead can be called and finds the target's case, and the sweep asked for now ends |
| AuditorRuns.SettlesIff | server.py:9607-9978 | some run reaches an empty list exactly when a discovery ahead can be called and finds the target's case, and the sweep asked for now, if any, has an end |
| AuditorRuns.BuildKdbStrands | server.py:8600-8604 | for a target without a root, a successful `build_kdb` leaves a discovery that cannot be called as suggested, and no run settles |
| AuditorRuns.UntrappedSweepsEnd | server.py:9240-9341 | on every waveform without a trapped cap all sweeps that may yet be asked for end, within a bound |
| AuditorRuns.EveryRunGoesOn | server.py:9607-9978 | a run that has stopped before the list is empty can go on exactly unless it is to discover a target that names no root |
| AuditorRuns.BuildSettlesIff | server.py:9580-9583 | a hierarchy build settles the hierarchy exactly when it detects the discovered simulator |
| AuditorRuns.UndetectedNeverSettles | server.py:9580-9583 | without a discovered simulator the hierarchy is asked for in every state of every run |
| AuditorRuns.EndlessSweepNeverSettles | server.py:9822-9850 | once a sweep is asked for whose retries have no end, one is asked for in every state of every run |
| AuditorRuns.TrappedSweepNeverSettles | server.py:9822-9850 | that is so after a whole-design sweep with a trapped cap |
| AuditorRuns.KdbReopensDiscovery | server.py:9675-9710 | a successful `build_kdb` makes the auditor ask for the discovery again and no longer for the KDB |
| SweepRetry.NarrowsIsProperPart | server.py:9325-9341 | a retry window is admitted exactly when it is a non-empty proper part of the previous one, a negative end meaning unbounded |
| SweepRetry.NarrowingIsStrictOrder | server.py:9325-9341 | admission is irreflexive, transitive and asymmetric |
| SweepRetry.RetriesRunOut | server.py:9325-9341 | retries that start within a finite trace run out |
| SweepRetry.NarrowsForEverIff | server.py:9325-9341 | an infinite chain of admitted windows starts at a window exactly when that is open-ended |
| SweepRetry.DegradedForEverIff | server.py:9281-9341 | a degraded sweep can be retried for ever, with scope and edge unchanged, exactly when its window is open-ended |
| SweepRetry.ScopeWidensIsParent | server.py:9295-9309 | a scope change is admitted exactly towards none, or towards a scope that, less its trailing dots, is a proper prefix of the dotted segments: never deeper |
| SweepRetry.AdmittedIff | server.py:9281-9341 | a suggested call is admitted exactly when it sweeps the same file and moves the scope to none or a parent, or keeps it and raises a truncated sweep's cap past all discovered, or gives a degraded one another edge or a proper part of its window |
| SweepRetry.NextCallIs | server.py:9240-9278 | the next call is the first admitted suggestion, else for a truncated sweep the whole design with a cap that covers all discovered; there is none exactly otherwise |
| SweepTool.NextCallIsRetry | src/handshake_sweep.py:746-800 | the next call after a real sweep keeps wave, edge and window: it drops the scope if nothing was found, else raises the cap if the sweep was cut short, else there is none |
| SweepTool.CoverageIs | src/handshake_sweep.py:446-470 | a sweep is truncated exactly when it does not see every candidate or has no room for every interface; otherwise its count is the number of interfaces there are |
| SweepTool.CapsAreOpposed | src/handshake_sweep.py:446-466 | a larger cap discovers fewer interfaces and inspects more; from the longest family on both stay the same |
| SweepTool.RetriesForEverIff | src/handshake_sweep.py:446-466 | under one scope retries go on for ever exactly when the cap lies in an interval below the longest family that retries do not leave |
| SweepTool.OneFamilyForEverIff | src/handshake_sweep.py:446-466 | with one family, exactly when the cap is below the number of candidates and some candidate within it is a clocking block |
| SweepTool.ClockingBlockRetriesForEver | src/handshake_sweep.py:446-466 | one clocking block in front of 64 handshakes: the default cap is suggested again and again |
| SweepTool.FewMirrorsNoTrap | src/handshake_sweep.py:446-466 | no cap is trapped where the clocking blocks are no more than the shorter family |
| SweepTool.EndlessIff | src/handshake_sweep.py:746-800 | a sweep's retries have no end exactly when its cap is retried for ever under its scope, or the scope is dropped at a cap that is retried for ever without it |
| SweepTool.RetriesEnd | src/handshake_sweep.py:746-800 | without trapped caps every sweep's retries, through dropped scopes and raised caps, end within a bound |
| LogSnapshots.SnapshotStore.Capture | server.py:1227-1252 | the snapshot is stored under its id and filed once; nothing stored before loses its events |
| LogSnapshots.SnapshotStore.FindPrevious | server.py:1255-1271 | returns the snapshot of the last id of the key's history that is not excluded |
| LogSnapshots.SnapshotStore.EventsOf | server.py:1274-1292 | events exactly for an available id with the same simulator and time unit, else the error saying which differs |
| LogSnapshots.SnapshotStore.Parse | server.py:10303-10331 | rejects a setting the parser does not know before anything is captured; the previous snapshot handed out is the last of the log's history but the present one, of the same log, simulator and unit, and has other events |
| LogSnapshots.PreviousOfRun | server.py:1255-1271 | after any accepted parses: that is the latest of those captured for the first time of that log with other events than the present ones, and there is none exactly if no parse of the log gave other events |
| LogSnapshots.HistoryIsUsable | src/log_parser.py:321-329 | whatever was parsed, every id in a request's history is a snapshot of its log, simulator and unit |
| LogSnapshots.CaptureKeepsValid | server.py:1227-1252 | histories are duplicate-free and name stored snapshots of their own key |
| LogSnapshots.EventsNeverChange | server.py:1205-1252 | the events behind an id never change, whatever is captured later |
| LogSnapshots.HistoryIsFirstSeen | server.py:1247-1251 | a history lists the captured ids in order of first capture |
| LogSnapshots.PreviousIsLastRunIff | server.py:10323-10331 | for every log with other events than the last run's: the previous snapshot is the last run's exactly when nothing else than that log's events was new since the last run's were first seen |
| LogSnapshots.RevertedRun | server.py:1255-1271 | after A, B, A, the previous snapshot of C is B |
| LogSnapshots.SnapshotStore.AutoDiff | server.py:1308-1355 | the automatic baseline is missing exactly without a history; its events are the parsed log's exactly when that log's snapshot is the newest, or there is none |
| LogSnapshots.BaselineAfterParseIff | server.py:1308-1345 | over every run of captures: once a log is parsed, its automatic baseline is its own snapshot exactly when its events were new, or nothing newer was captured before |
| LogSnapshots.ParsedRerunComparesWithItself | server.py:1495-1498 | a parsed rerun of different events finds the run before, and its diff then compares it with itself |
| FailureEvents.Truncate | server.py:8971-8982 | keeps exactly the events before which fewer than the cap of their group occur |
| FailureEvents.GroupIsPrefix | server.py:8971-8982 | restricted to any group the result is the first min(count, cap) events of it, in order |
| FailureEvents.IsSubsequence | server.py:8971-8982 | the result is a subsequence of the input |
| FailureEvents.BoundedTwice | server.py:8971-8982 | truncating twice is truncating with the smaller cap |
| FailureEvents.NothingLostIff | server.py:8971-8982 | nothing is left out exactly when no group exceeds the cap |
| TraceMetrics.Metrics.Accumulate | server.py:2278-2387 | after any sequence of calls the aggregate holds exactly the contributed fields, each as its closed form: sums, maxima from zero, first start, last end and snapshots |
| TraceMetrics.SessionCountersIff | server.py:2311-2329 | a session counter is in the aggregate exactly when some attempt so far used a session |
| TraceMetrics.WallsFedBy | server.py:2288-2295 | adapter and query wall times are the sums of what the calls report, negatives as zero |
| TraceMetrics.TotalsFedBy | server.py:2299-2352 | each preparation total is the sum of its own reading, each disk total that of its own over attempts with a disk cache |
| TraceMetrics.PeaksFedBy | server.py:2358-2387 | peak memory, time to exit and the cache peaks are each the greatest of their own readings, or zero |
| TraceMetrics.EndsFedBy | server.py:2364-2380 | start memory is the first attempt's, end memory and the snapshots are the last one's, disk snapshots of those with a disk cache |
| TraceMetrics.SessionFedBy | server.py:2317-2335 | each session counter is the sum over the attempts from the first one that used a session on |
| TraceMetrics.FrontendCountedOnce | server.py:2318-2356 | an attempt's frontend launches count once if its disk cache is enabled or a session was used by then, else not |
| TraceMetrics.SplittingChangesNothing | server.py:2278-2295 | reporting an attempt's parts in several calls gives the same aggregate |
| HierarchyDigest.Digester.ChildrenDigest | scripts/benchmark_hierarchy_materialization.py:101-119 | the memoised digest equals the plain recursive one, and no mapping is hashed a second time |
| HierarchyDigest.Digester.SemanticDigest | scripts/benchmark_hierarchy_materialization.py:77-128 | the root digest equals the plain digest of the fully expanded component tree |
| HierarchyDigest.FoldKeepsValue | scripts/benchmark_hierarchy_materialization.py:101-119 | sharing equal mappings keeps the expanded value |
| HierarchyDigest.SharingKeepsValues | scripts/benchmark_hierarchy_materialization.py:101-119 | so it keeps the value of the whole component tree |
| HierarchyDigest.SharingIsInvisible | scripts/benchmark_hierarchy_materialization.py:77-128 | two component trees of one expanded value get one digest, in whatever heaps and however much is shared |
| HierarchyDigest.DigestDeterminesValue | scripts/benchmark_hierarchy_materialization.py:77-128 | two component trees in which every entry is a mapping, as the builder makes them, have one digest exactly when they have one value, as long as the hash tells apart what it is given |
| HierarchyDigest.PlainValuesRunTogether | scripts/benchmark_hierarchy_materialization.py:108-110 | why only those: with entries that are not mappings, two values have one digest whatever the hash |
| PackedBus.Layout | scripts/benchmark_evidence_output.py:35-40 | each field's range has its width and starts where the later fields end |
| PackedBus.RangesPartition | scripts/benchmark_evidence_output.py:35-40 | every bit of the word lies in exactly one field's range, and no range leaves the word |
| PackedBus.Pack | scripts/benchmark_evidence_output.py:54-55 | the printed word is the fields' numerals, first field first, a missing value counting as 0 |
| PackedBus.FormatFits | scripts/benchmark_evidence_output.py:55 | a numeral has at least the field's width, exactly that width if and only if the value fits, and denotes the value |
| PackedBus.WidthIff | scripts/benchmark_evidence_output.py:54-56 | the word has the bus's width exactly when every value fits its field |
| PackedBus.RoundTrip | scripts/benchmark_evidence_output.py:31-58 | extracting a field's range from the packed word gives its value back |
| PackedBus.WriteGroup | scripts/benchmark_evidence_output.py:31-58 | for the fields file and the word as written: every field is read back as its value exactly when every value fits its field |
| PackedBus.StepFitsIff | scripts/benchmark_evidence_output.py:46-52 | the generator's values fit exactly while its counter fits 32 bits |

## Left out

- WaveProtocol.StepKeepsInv: operation metrics, the recorded lock-wait times and the FST request wrapper are not modelled, because they change no lock, event or registration.
- WaveProgress.EveryStateDrains: the worker-thread limit is counted over these calls only; other users of the same thread pool are not modelled, and a tool body is assumed to end or to meet a checkpoint.
- WaveLocks.LockTaken: `lower()` is modelled for ASCII letters only.
- Router.Route: claim semantics, adapter receipts, coverage labels, dependency contexts and call metrics of the payload are one opaque `facts` string; exception text is not modelled.
- XTrace.SearchScopes: the order in which a trace visits its upstream signals is an input; waveform values along the chain are not modelled.
- Session.ReachableSession: the legacy hierarchy payload, which registers no handle, and a validation error between two writes of one handler are not modelled; a handler that awaits begins at one moment and stores at another, with nothing told apart in between.
- Session.UnbuiltIff: what a recovery computes, and its limits, are not modelled beyond the registered hierarchy and its snapshot.
- SessionHistory.NoKdbOneCase: an entry whose computation began before any case was known counts as one of every case.
- Session.DomainsIndependent: the formal domain is one value; the comparison of two formal discoveries is not modelled.
- HierarchyContext.Resolve: the inside of the fingerprint (which files it reads) is not part of this model; it is a function of the log, the simulator and the supplementary logs at one moment.
- Auditor.DiagnosticSnapshot: section summaries, quick references and reason texts are not modelled; the missing steps, their arguments and their order are.
- AuditorRuns.FollowingSettles: assumes that steps succeed, that builds detect the discovered simulator, that a discovery of the root finds the same each time, and that neither logs nor waveforms change while the auditor is followed; that steps have their arguments and pass the gate is proved. A discovery without a simulator is the subject of `UndetectedNeverSettles` instead.
- SweepTool.NextCallIsRetry: what discovery finds under a scope of a waveform is an input; `max_wait_cycles`, which no retry changes, is omitted.
- LogSnapshots.EventsNeverChange: assumes that snapshot ids, which are truncated digests, differ for different material.
- LogSnapshots.SnapshotStore.Parse: a missing file and bad detail arguments, which also end a parse before the capture, are not modelled.
- HierarchyDigest.DigestDeterminesValue: assumes digests of one size, no collision among the strings hashed, no digest that begins with the separator byte, and names without that byte.
- TraceMetrics.Metrics.Accumulate: times and counts are real numbers; rounding is not modelled.
- The transport, tool schemas, output-budget shrinking, error formatting and clock detection are not modelled: they decide no state.
- Parsers, the Source Graph engine, NPI, the LSF runner and the transaction matcher are not modelled: their answers are inputs.
- Configuration parsing is not modelled; the round and instance limits are arbitrary numbers here.
- The comparison of two log snapshots and the choice of its baseline are not modelled beyond the lookup of a previous snapshot.
