# Plurora: a verified model of its runtime core

Dafny 4.11 model and proofs for the parts of Plurora that carry the most state, branching and recursion.
`dafny verify dfyconfig.toml` checks everything.

* **Run binding broker** (`BindingRecords`, `BrokerModel`, `BrokerInvariant`, `BrokerSteps`, `BrokerTheorems`,
  `BrokerLasting`, `BrokerReopening`, `BrokerFreeing`, `BrokerPromises`, `BrokerRace`, `BrokerProgress`,
  `BrokerRegions`). Any number of tasks attach, ask for permits, drop permits, close and stop runs. The broker is a state machine with one action for each region that a task executes under a lock, plus the moments
  in between where tasks interleave. `Reached(run)` is the state after a sequence of actions, `Feasible(run)` says each
  was possible. The theorems hold for every feasible run. `BrokerRegions` is the broker's mutable state as a class:
  its methods do to the maps what the actions of the machine do. What Powerbox control, the handle table and the stream
  registry answer is left open: every answer is an action. A waiter on `tokio::sync::Notify` is modelled by an epoch: a future created before
  `notify_waiters` is woken by it.
* **Nested assembly resolution** (`AssemblyModel`, `AssemblyCollect`, `AssemblyLaws`, `AssemblyImports`,
  `AssemblyAccounts`, `AssemblyLoading`, `AssemblyPreflight`). `Trace` goes from a root port down to a leaf. `Collect`
  walks all nodes and hands a map of imports down; `Collector` is that walk as it is coded, three lists that grow. `Climb` is the reference for both: it
  starts at a leaf port and follows exposures outwards, with no map. A ranking of lock digests stands for content
  addressing, which makes nesting well founded.
* **Event store** (`EventLog`, `EventStore`, `EventRuns`, `EventPaging`, `KindPrefix`, `KindQuery`). The in-memory
  store as a class, runs of writes on it, paging on both backends, and the byte range that stands for a kind prefix in
  SQL.
* **Component artifacts** (`Artifact`, `Component`, `ComponentOrder`, `ComponentDecode`, `ComponentLaws`,
  `ComponentIdentity`). The builder, the decoder, when what the one writes is accepted by the other, and what a digest
  pins. Printing, parsing and hashing are parameters (`Codec`). Injectivity of the hash is asked only of the documents one build generates.
* **World bundles** (`WorldBundle`, `WorldBundleLaws`), **canonical JSON** (`Json`, `JsonCanon`), **schema subset**
  (`Schema`, `SchemaLaws`). `Sorting` and `Basics` serve all of them.

Integers are unbounded unless the source depends on their width: the generation counter, the gate counter and event
positions saturate or fail at the `u64` limit, and SQLite positions are compared as `i64`.

Four promises of the source are false in general. Each has a lemma at a concrete input or run that breaks it, and the
exact condition under which it holds:

* `list_kind_prefix` and `list_session_kind_prefix` on SQLite are meant to return the kinds with a prefix. Incrementing
  the last byte of a text can leave UTF-8, and the bound then defaults to the empty string, below everything.
  `PushdownExact` proves the scan right exactly when the last byte is neither `0x7F` nor `0xBF`; `DeleteIsNotFound` is a
  kind that does not find itself. The session query also orders by the stored number, which from position 2^63 on is
  negative: `BackendsAgree` and `HighRowComesFirst`.
* SQLite's `list_session` is the whole log exactly when it has at most 1000 events and all positions fit an `i64`
  (`SqlListSession`, `LastRowIsCut`), and replay in pages exactly when all positions fit (`SqlReplayComplete`,
  `HighRowIsLost`). `SqlPageAgrees` says exactly when a single page is right, `HighCursorStartsOver` is one that is not.
* `stop_run` is to close all generations of its run. It closes those it finds, for good, but an attach that passed its
  activation check can insert another one before `stop_run` returns or after. `StopPromise`: the run is clear whenever
  `stop_run` returns Ok exactly when, as its close is done, no component of the run is registered. `StoppedForGood` is the
  same for any later state, `StopLeavesOneLive` a run that breaks it.
* `close_binding_barrier` decides under both locks, gives up the attach lock first, and an attach can insert before it
  returns. `BarrierPromise`: the binding is clear whenever it returns exactly when, as it decides, no component that fits
  the binding's selection is registered. `BarrierLeavesOneLive` is a run that breaks it.

## Model

| member | source | states |
|---|---|---|
| `BrokerTheorems.RunKeeps` | crates/plurora-runtime/src/binding_runtime.rs:414-1110 | every feasible run of attach, permit, close, barrier, stop and cleanup actions, in any interleaving, ends in a state that satisfies the broker's invariant |
| `BrokerTheorems.StepKeeps` | crates/plurora-runtime/src/binding_runtime.rs:254-264 | each single action keeps the invariant over live generations, issued handles, gates, admissions, lock holders and waiting tasks |
| `BrokerTheorems.RunKeepsKeys` | crates/plurora-runtime/src/binding_runtime.rs:335-365 | in every reachable state what is registered is a complete key with an id that is not blank |
| `BrokerTheorems.CloseBarrier` | crates/plurora-runtime/src/binding_runtime.rs:802-844 | at the moment `close_binding_barrier` decides for Ok, no generation of the binding is live, no admission of any generation of it ever created is outstanding, and it has no pending cleanup |
| `BrokerLasting.BarrierLasts` | crates/plurora-runtime/src/binding_runtime.rs:802-844 | from that moment on, at return and in every continuation, what existed of the binding is neither live nor admitted, and whatever of it is live or admitted was inserted since |
| `BrokerPromises.BarrierPromise` | crates/plurora-runtime/src/binding_runtime.rs:802-844 | for a binding with one selection record: the binding is clear at every return the call can come to, with no component that fits the selection's consumer pin registered meanwhile, exactly when none is registered as it decides |
| `BrokerPromises.BarrierPromiseAtLarge` | crates/plurora-runtime/src/binding_runtime.rs:802-844 | with nothing known about selections and nothing registered meanwhile: exactly when no component is registered at all |
| `BrokerLasting.BarrierCleans` | crates/plurora-runtime/src/binding_runtime.rs:802-844 | until an attach inserts for the binding again, it stays clear, out of every closer's queue and out of pending cleanup |
| `BrokerRace.BarrierOvertaken` | crates/plurora-runtime/src/binding_runtime.rs:802-844 | wherever the barrier has decided and given up the attach lock, an attach for the binding can insert before the call returns |
| `BrokerRace.BarrierLeavesOneLive` | crates/plurora-runtime/src/binding_runtime.rs:802-844 | a whole run from the start in which `close_binding_barrier` returns Ok and a generation of its binding is live |
| `BrokerTheorems.CloseDrained` | crates/plurora-runtime/src/binding_runtime.rs:1047-1110 | once a closer (of a handle, binding, exposure, provider run, consumer run or stopped run) has seen its removed generations settle, nothing that matches what it closes is live or admitted, whatever ran in between |
| `BrokerLasting.ClearMeans` | crates/plurora-runtime/src/binding_runtime.rs:1047-1110 | what any close left clear is clear later exactly when everything it selects that was inserted since is closed and settled again |
| `BrokerReopening.StillStaysClear` | crates/plurora-runtime/src/binding_runtime.rs:454-476 | what is clear stays clear in every continuation while nothing usable is registered, if nothing usable is now and no attach for it is past its activation check |
| `BrokerFreeing.AttachLockCanBeFreed` | crates/plurora-runtime/src/binding_runtime.rs:1073-1110 | from every reachable state, if clients give back their permits, the run can go on to where nobody holds the attach lock, with nothing registered and nothing new begun |
| `BrokerFreeing.Drains` | crates/plurora-runtime/src/binding_runtime.rs:1073-1110 | from every reachable state a closer can be brought to the end of its queue, whoever sleeps or records |
| `BrokerPromises.Reopened` | crates/plurora-runtime/src/binding_runtime.rs:414-623 | wherever a usable component is registered or an attach is past its check, whoever holds which lock, a continuation makes a generation of the goal live |
| `BrokerPromises.ClosedForGood` | crates/plurora-runtime/src/binding_runtime.rs:1047-1110 | what a close of any kind has left clear stays so for good exactly when no registered component could be attached for it and no attach for it is past its activation check |
| `BrokerPromises.UsableForSelection` | crates/plurora-runtime/src/binding_runtime.rs:1129-1147 | a registered component can be attached for a selection exactly when it is the consumer the selection pins |
| `BrokerLasting.StopLasts` | crates/plurora-runtime/src/binding_runtime.rs:880-927 | from the moment `stop_run` has seen everything it closed settle, at return and ever after, what existed of the run is neither live nor admitted, and whatever of it is live or admitted was inserted since |
| `BrokerPromises.StopPromise` | crates/plurora-runtime/src/binding_runtime.rs:880-927 | the run is clear at every return Ok that `stop_run` can come to, with no component of the run registered meanwhile, exactly when none is registered as its close is done |
| `BrokerLasting.UndisturbedStop` | crates/plurora-runtime/src/binding_runtime.rs:880-927 | if no attach inserts for the run meanwhile, nothing of it is live or admitted when `stop_run` returns |
| `BrokerLasting.StopForgets` | crates/plurora-runtime/src/binding_runtime.rs:921-927 | when `stop_run` returns Ok no activation of its run is registered |
| `BrokerPromises.StoppedForGood` | crates/plurora-runtime/src/binding_runtime.rs:880-927 | a run that is clear stays clear in every continuation that registers none of its components exactly when none is registered now and no attach for it is past its activation check |
| `BrokerRace.StopOvertaken` | crates/plurora-runtime/src/binding_runtime.rs:880-927 | wherever `stop_run` waits for Powerbox control, an attach of a component still registered can insert, and `stop_run` then returns Ok over a live generation of its run |
| `BrokerRace.StopLeavesOneLive` | crates/plurora-runtime/src/binding_runtime.rs:880-927 | a whole run from the start in which this happens |
| `BrokerTheorems.SerialFree` | crates/plurora-runtime/src/binding_runtime.rs:1047-1110 | whenever no task holds the close serial, every outstanding admission belongs to a live generation |
| `BrokerTheorems.AdmissionsConserved` | crates/plurora-runtime/src/binding_runtime.rs:756-793 | a gate's in-flight count is the number of admissions outstanding on its generation, and it is open exactly while the generation is live |
| `BrokerTheorems.NeverSaturates` | crates/plurora-runtime/src/binding_runtime.rs:189-201 | a release always finds a positive count, so the saturating subtraction never hides an error |
| `BrokerTheorems.ClosedForever` | crates/plurora-runtime/src/binding_runtime.rs:1047-1071 | a removed generation is never live again, gets no new admission, and its in-flight count never rises, in any continuation of the run |
| `BrokerTheorems.LateGrantIsAwaited` | crates/plurora-runtime/src/binding_runtime.rs:777-793 | a permit that is returned after its generation was removed was admitted before, and a closer is still waiting for it |
| `BrokerRace.GrantOvertaken` | crates/plurora-runtime/src/binding_runtime.rs:777-793 | wherever an invocation is being recorded and nobody closes, its generation can be removed first and the permit is granted all the same |
| `BrokerRace.PermitComesLate` | crates/plurora-runtime/src/binding_runtime.rs:777-793 | a whole run from the start in which a permit is granted on a generation no longer live |
| `BrokerTheorems.NoLostWakeup` | crates/plurora-runtime/src/binding_runtime.rs:226-240 | a closer asleep in `wait_settled` without a notification waits for a positive count or for a task that has decremented and not yet notified |
| `BrokerTheorems.OneLiveGeneration` | crates/plurora-runtime/src/binding_runtime.rs:501-557 | concurrent attaches leave at most one live generation for a selection and activation |
| `BrokerTheorems.LiveIsPinned` | crates/plurora-runtime/src/binding_runtime.rs:414-500 | every generation ever created has an issued handle and matches its selection's consumer and provider pins; a live one is as it was created |
| `BrokerTheorems.PermitsArePinned` | crates/plurora-runtime/src/binding_runtime.rs:634-793 | every outstanding permit carries the pinned provider and was asked for by exactly the activation of its generation |
| `BrokerTheorems.NumbersUnique` | crates/plurora-runtime/src/binding_runtime.rs:540-557 | below the `u64` limit no two generations share a number |
| `BrokerTheorems.NumbersIncrease` | crates/plurora-runtime/src/binding_runtime.rs:540-557 | below the limit a new generation's number is above all earlier ones |
| `BrokerTheorems.HandlesNeverForgotten` | crates/plurora-runtime/src/binding_runtime.rs:625-627 | issued handles never shrink over a run, and a generation once created keeps its selection, activation, provider and number |
| `BrokerProgress.NoDeadlock` | crates/plurora-runtime/src/binding_runtime.rs:226-240 | in every reachable state with a task, some task can step, unless the closer waits for a client that still holds a granted permit |
| `BrokerRegions.RunBindingBroker.constructor` | crates/plurora-runtime/src/binding_runtime.rs:287-306 | a new broker is in the machine's initial state |
| `BrokerRegions.RunBindingBroker.RegisterComponentActivation` | crates/plurora-runtime/src/binding_runtime.rs:335-365 | refuses exactly the incomplete keys and changes nothing then; otherwise the first registration of a key wins, later ones return its id, and no registered id changes |
| `BrokerRegions.RunBindingBroker.FindAttached` | crates/plurora-runtime/src/binding_runtime.rs:501-515 | finds a live generation of this selection, activation and provider exactly when there is one |
| `BrokerRegions.RunBindingBroker.InsertGeneration` | crates/plurora-runtime/src/binding_runtime.rs:540-557 | afterwards the request is attached and the generation admits, with nothing in flight and, below the limit, a number above all earlier ones; every other generation and gate is as before |
| `BrokerRegions.RunBindingBroker.AdmitInvocation` | crates/plurora-runtime/src/binding_runtime.rs:756-776 | counts the call in exactly when the prepared generation is still the live one and open |
| `BrokerRegions.RunBindingBroker.ReleaseInvocation` | crates/plurora-runtime/src/binding_runtime.rs:189-201 | a positive count falls by one, the gate stays open or shut as it was, and no other gate changes |
| `BrokerRegions.ReleaseUndoesAdmit` | crates/plurora-runtime/src/binding_runtime.rs:189-201 | counting a call out undoes counting it in, below the limit of the counter |
| `BrokerRegions.RunBindingBroker.MatchingIds` | crates/plurora-runtime/src/binding_runtime.rs:1047-1071 | lists the live handles that match, each once |
| `BrokerRegions.RunBindingBroker.CloseMatching` | crates/plurora-runtime/src/binding_runtime.rs:1047-1071 | removes exactly the matching generations, shuts their gates and returns each once, as the machine's close action |
| `BrokerRegions.RunBindingBroker.ForgetRun` | crates/plurora-runtime/src/binding_runtime.rs:881-927 | drops the activation ids of the stopped run and no others |
| `AssemblyModel.ExactLoadedComponent` | crates/plurora-runtime/src/assembly_runtime.rs:1200-1254 | the match list over ready packages yields the specified verdict: missing, ambiguous, unsupported or selected |
| `AssemblyLoading.LoadedMeans` | crates/plurora-runtime/src/assembly_runtime.rs:1200-1282 | a component is selected exactly when one position in the ready packages matches the lock entry and no other does, under a contract and with an entry that runs here |
| `AssemblyLoading.OneMatch` | crates/plurora-runtime/src/assembly_runtime.rs:1204-1222 | the list has one candidate exactly when a single package and component position matches, and that is the candidate |
| `AssemblyCollect.IsFixed` | crates/plurora-runtime/src/assembly_runtime.rs:1142-1149 | true exactly when an authoring or installation binding names the consumer |
| `AssemblyCollect.CollectImports` | crates/plurora-runtime/src/assembly_runtime.rs:1052-1079 | builds the import map of a nested assembly |
| `AssemblyCollect.Collector.ValidatePort` | crates/plurora-runtime/src/assembly_runtime.rs:1130-1196 | a port adds nothing, one gap or one pin, as its supply decides |
| `AssemblyCollect.Collector.ValidateRequiredBindings` | crates/plurora-runtime/src/assembly_runtime.rs:1118-1198 | appends the pins and gaps of all ports of a node and leaves the rest |
| `AssemblyCollect.Collector.CollectLockedNodes` | crates/plurora-runtime/src/assembly_runtime.rs:1007-1116 | the recursive walk grows its three lists by exactly what the specification finds, or fails with its error |
| `AssemblyLaws.NestedAgrees` | crates/plurora-runtime/src/assembly_runtime.rs:1052-1079 | the map handed to a nested assembly says of each of its exposed imports what climbing from there says |
| `AssemblyLaws.RootWalkIsSum` | crates/plurora-runtime/src/assembly_runtime.rs:1007-1116 | the top-down walk with its maps finds, site by site and in order, what climbing from each component node finds, or both fail alike |
| `AssemblyLaws.SitesDistinct` | crates/plurora-runtime/src/assembly_runtime.rs:1032-1040 | no two component nodes of the nested expansion have the same path |
| `AssemblyImports.ClimbTraces` | crates/plurora-runtime/src/assembly_runtime.rs:263-345 | a root port reached by climbing from a leaf port traces back down to that leaf |
| `AssemblyImports.TraceClimbs` | crates/plurora-runtime/src/assembly_runtime.rs:263-345 | conversely, what a root port traces to climbs back to it, or meets a binding on the way, unless an exposure on the way is not the first of its target, and then it climbs to another port or nowhere |
| `AssemblyImports.PinsAreSound` | crates/plurora-runtime/src/assembly_runtime.rs:1186-1194 | every required import is, in path, leaf port and contract, what its root port traces to, and its path ends at its leaf node |
| `AssemblyImports.PinsResolve` | crates/plurora-runtime/src/assembly_runtime.rs:263-345 | `resolve_powerbox_leaf` succeeds for a pin's root port exactly when the leaf's component is loaded, and then returns the pin's path and port |
| `AssemblyImports.RootPortsDistinct` | crates/plurora-runtime/src/assembly_runtime.rs:1118-1198 | the root ports of required imports are pairwise distinct, and so are their leaves |
| `AssemblyImports.ImportsAccounted` | crates/plurora-runtime/src/assembly_runtime.rs:1130-1196 | each required launch-phase import of the expansion is bound on its way out, pinned exactly once, or has a report that is among the gaps, and only one of these |
| `AssemblyAccounts.GapsCounted` | crates/plurora-runtime/src/assembly_runtime.rs:1032-1196 | a gap is listed exactly as often as there are ports it reports plus component nodes whose loading it reports; bound and pinned ports are reported by none |
| `AssemblyAccounts.LeavesCounted` | crates/plurora-runtime/src/assembly_runtime.rs:1093-1111 | selected entries and component gaps together are as many as the component nodes of the expansion |
| `AssemblyAccounts.TracedIsSite` | crates/plurora-runtime/src/assembly_runtime.rs:263-345 | the leaf a root port traces to is one of the component nodes the walk visits |
| `AssemblyAccounts.RootImportPinned` | crates/plurora-runtime/src/assembly_runtime.rs:1118-1198 | a root import that traces to a deferred leaf that can be bound has a pin exactly when no binding and no earlier exposure of the same target stands between, and then exactly one, that of the leaf |
| `AssemblyImports.SitesSelected` | crates/plurora-runtime/src/assembly_runtime.rs:1093-1111 | the selected entries are the component nodes whose component is loaded, each once, in order |
| `AssemblyImports.NoGapsSelectsAll` | crates/plurora-runtime/src/assembly_runtime.rs:1093-1111 | without gaps every component node of the expansion is selected |
| `AssemblyPreflight.TracedPortResolves` | crates/plurora-runtime/src/assembly_runtime.rs:975-1005 | a port that traces to a leaf through the locks also passes `assembly_port_resolves`, which looks at assemblies alone |
| `AssemblyPreflight.ChooseBindings` | crates/plurora-runtime/src/assembly_runtime.rs:856-889 | the loop over required imports yields the one valid binding of each or the gap the count of matches calls for |
| `AssemblyPreflight.BindImports` | crates/plurora-runtime/src/assembly_runtime.rs:832-904 | asks Powerbox control only when something is required, and turns each of its outcomes into bindings and gaps |
| `AssemblyPreflight.InspectBindings` | crates/plurora-runtime/src/assembly_runtime.rs:811-948 | the inspection from the root lock on, with its errors, sorted gaps, claims and activations |
| `AssemblyPreflight.GaplessMeans` | crates/plurora-runtime/src/assembly_runtime.rs:811-912 | no gap is reported exactly when none was found before, no node explains one, and every required import is settled by what was prepared |
| `AssemblyPreflight.GaplessIsReady` | crates/plurora-runtime/src/assembly_runtime.rs:811-948 | then the selected bindings match the required imports one for one in order, each the only one for its consumer port and valid, and the claims cover every component node |
| `EventStore.InMemoryEventStore.Append` | crates/plurora-runtime/src/event_store.rs:865-888 | appends exactly when the id is new in all sessions and the position free in its own; otherwise the store is unchanged |
| `EventStore.InMemoryEventStore.AppendBatchAtomicIfSessionsEmpty` | crates/plurora-runtime/src/event_store.rs:903-946 | succeeds exactly when the required sessions are empty and appending one by one would succeed throughout, then reaches the same state; otherwise nothing changes |
| `EventStore.InMemoryEventStore.BuildCandidate` | crates/plurora-runtime/src/event_store.rs:903-946 | pushing unsorted and sorting once at the end gives what placing event by event gives |
| `EventStore.InMemoryEventStore.AppendWithSequence` | crates/plurora-runtime/src/event_store.rs:1009-1036 | appends at the next position and fails without change at the limit |
| `EventStore.InMemoryEventStore.AppendWithSequenceIfNext` | crates/plurora-runtime/src/event_store.rs:1038-1070 | appends exactly when the expected position is the next one; a stale expectation changes nothing |
| `EventStore.InMemoryEventStore.ListSessionRange` | crates/plurora-runtime/src/event_store.rs:969-995 | the events after a position, in order, cut to the limit |
| `EventStore.InMemoryEventStore.ListSession` | crates/plurora-runtime/src/event_store.rs:948-950 | the whole log |
| `EventStore.InMemoryEventStore.ListSessionKindPrefix` | crates/plurora-runtime/src/event_store.rs:1074-1090 | filtering without sorting yields the kinds with the prefix in ascending order |
| `EventStore.InMemoryNextSequence` | crates/plurora-runtime/src/event_store.rs:851-861 | zero for an empty log, otherwise one above the highest position, an error at the limit |
| `EventStore.NextIsUnique` | crates/plurora-runtime/src/event_store.rs:851-861 | no other answer is the next position |
| `EventRuns.AlwaysValid` | crates/plurora-runtime/src/event_store.rs:865-946 | after any run of writes ids are unique across sessions and each log is strictly ascending |
| `EventRuns.AllocatedIsContiguous` | crates/plurora-runtime/src/event_store.rs:1009-1070 | a session whose positions the store allocates holds exactly 0, 1, 2, ... in order |
| `EventRuns.PositionStays` | crates/plurora-runtime/src/event_store.rs:865-1070 | a position once taken stays taken in every continuation |
| `EventRuns.SingleWinner` | crates/plurora-runtime/src/event_store.rs:1038-1070 | of all compare-and-appends in a run that expect the same tail at most one succeeds |
| `EventPaging.ReplayIsLog` | crates/plurora-runtime/src/event_store.rs:969-995 | for every positive limit paging ends and yields the log, nothing lost and nothing twice |
| `EventPaging.SqlPageMeans` | crates/plurora-runtime/src/event_store.rs:393-408 | for any log and any position to continue behind, what SQLite returns is determined: behind a position stored as it is, the front of the low rows that follow; behind one stored as a negative number, the front of the high rows that follow and then of all low rows |
| `EventPaging.SqlPageAgrees` | crates/plurora-runtime/src/event_store.rs:393-408 | this is the in-memory page of the capped size exactly when the half of the log that the stored order puts on the wrong side is empty or the other half fills the page |
| `EventPaging.HighCursorStartsOver` | crates/plurora-runtime/src/event_store.rs:393-408 | behind position 2^63 SQLite returns the row at position 1 |
| `EventPaging.SqlReplayEnds` | crates/plurora-runtime/src/event_store.rs:393-408 | for every log and positive limit a complete replay exists: paging ends |
| `EventPaging.SqlReplayComplete` | crates/plurora-runtime/src/event_store.rs:393-408 | every paged replay yields exactly the rows whose position fits an `i64`, so the whole log exactly when all do |
| `EventPaging.SqlListSession` | crates/plurora-runtime/src/event_store.rs:379-381 | without a limit SQLite returns the whole log exactly when it has at most 1000 events and every position fits an `i64` |
| `EventPaging.HighRowIsLost` | crates/plurora-runtime/src/event_store.rs:379-408 | one event at position 2^63: the session is listed, and replayed, as empty |
| `EventPaging.LastRowIsCut` | crates/plurora-runtime/src/event_store.rs:379-381 | a session of 1001 events is listed without its last |
| `KindPrefix.KindPrefixUpperBound` | crates/plurora-runtime/src/event_store.rs:595-609 | the loop ends and computes the least string above all that start with the prefix, the empty string where that is not UTF-8, and none only for an all-0xFF prefix |
| `KindPrefix.RangeIsPrefix` | crates/plurora-runtime/src/event_store.rs:595-609 | on bytes, lying between prefix and bound is starting with the prefix |
| `KindPrefix.BoundOfText` | crates/plurora-runtime/src/event_store.rs:595-609 | for UTF-8 text only the empty prefix has no bound |
| `KindPrefix.ScanFindsNothing` | crates/plurora-runtime/src/event_store.rs:532-556 | where the incremented byte leaves UTF-8 the scan selects no kind at all |
| `KindPrefix.PushdownExact` | crates/plurora-runtime/src/event_store.rs:532-586 | the scan is the prefix match for every kind exactly when the prefix is empty or ends in neither 0x7F nor 0xBF |
| `KindPrefix.DeleteIsNotFound` | crates/plurora-runtime/src/event_store.rs:532-556 | a concrete kind the scan misses |
| `KindQuery.SqlAnswerUnique` | crates/plurora-runtime/src/event_store.rs:560-586 | the session query, as the selected rows ordered by stored position, determines its answer |
| `KindQuery.SqlAnswers` | crates/plurora-runtime/src/event_store.rs:560-586 | and always has one |
| `KindQuery.BackendsAgree` | crates/plurora-runtime/src/event_store.rs:560-586 | it is the in-memory answer exactly when the prefix can be scanned, or nothing starts with it, and the rows that start with it do not lie on both sides of 2^63 |
| `KindQuery.HighRowComesFirst` | crates/plurora-runtime/src/event_store.rs:560-586 | two events, at 1 and at 2^63, come back in the wrong order |
| `Component.NormalizeEach` | crates/plurora-core/src/component.rs:656-710 | sorts and dedups the lists inside every protocol implementation |
| `Component.NormalizeDeclaration` | crates/plurora-core/src/component.rs:656-710 | fills in defaults, sorts and dedups the declared lists, and drops the protocols of a foreign capsule |
| `Component.BuildComponentDescriptor` | crates/plurora-core/src/component.rs:656-881 | builds the descriptor of the normalized declaration, or reports a missing surface |
| `ComponentOrder.OrderDoesNotMatter` | crates/plurora-core/src/component.rs:656-881 | declarations that differ in order and repetition of capability ids, surface ids, protocols, profiles, vectors, side effects, content roots and surfaces, in the order of provided capabilities, and in the package id, build the same descriptor with the same digests |
| `ComponentDecode.Walk` | crates/plurora-core/src/component.rs:285-328 | accepts exactly the values with no raw secret, no host path and only references in secret fields, at any depth |
| `ComponentDecode.ValidatePayloadDescriptor` | crates/plurora-core/src/component.rs:267-283 | accepts exactly well-typed, content-addressed, portable references that repeat nothing and do not name themselves |
| `ComponentDecode.CollectReferences` | crates/plurora-core/src/component.rs:212-243 | one growing set decides validity, types and uniqueness of the digests |
| `ComponentDecode.Decode` | crates/plurora-core/src/component.rs:153-265 | returns the parsed payload exactly when it passes every check, stated without loops |
| `ComponentLaws.ProtocolJsonInjective` | crates/plurora-core/src/component.rs:718-740 | different protocol implementations have different canonical documents |
| `ComponentLaws.NormalizeRepeatless` | crates/plurora-core/src/component.rs:656-710 | after normalization no protocol, surface id or content-root digest appears twice |
| `ComponentLaws.ReferencesDistinct` | crates/plurora-core/src/component.rs:842-859 | the references of a built payload are free of repetition exactly when no content root carries a generated digest |
| `ComponentLaws.BuiltDecodes` | crates/plurora-core/src/component.rs:153-265 | a built artifact decodes to its own payload exactly when the declaration has a name and version, is portable, and its content roots are valid and not generated documents |
| `ComponentIdentity.BehaviorDigestPins` | crates/plurora-core/src/component.rs:768-819 | two components with one behavior digest have the same id, version, capability ids, protocols and, up to member order of schemas, the same claims |
| `ComponentIdentity.ClaimTold` | crates/plurora-core/src/component.rs:768-800 | every field of a capability claim can be told from its canonical document |
| `Json.SortJsonValue` | crates/plurora-core/src/world_bundle.rs:541-558 | rewriting from the inside out computes the canonical tree |
| `JsonCanon.CanonicalInOrder` | crates/plurora-core/src/world_bundle.rs:541-558 | the result is in key order at every depth |
| `JsonCanon.CanonicalIdempotent` | crates/plurora-core/src/component.rs:998-1015 | canonicalising twice changes nothing |
| `JsonCanon.CanonicalPreserves` | crates/plurora-core/src/world_bundle.rs:541-558 | the result is the same value up to member order |
| `JsonCanon.CanonicalDecides` | crates/plurora-core/src/world_bundle.rs:432-436 | two values have one canonical tree exactly when they differ only in member order, at any depth |
| `JsonCanon.GetCanonical` | crates/plurora-core/src/component.rs:998-1015 | canonicalising an object canonicalises each field and loses none |
| `Artifact.ValidateDescriptor` | crates/plurora-core/src/world_bundle.rs:456-486 | accepts exactly well-formed descriptors whose references are valid, distinct and not their own digest |
| `WorldBundle.ValidateRange` | crates/plurora-core/src/world_bundle.rs:43-73 | accepts exactly ranges whose ends, count and envelopes agree without overflow |
| `WorldBundle.ValidateEntry` | crates/plurora-core/src/world_bundle.rs:181-211 | accepts exactly well-formed lineage entries |
| `WorldBundle.ValidateLineage` | crates/plurora-core/src/world_bundle.rs:277-291 | one pass with a set of heads seen accepts exactly lineages where each head is new and each parent stands earlier |
| `WorldBundle.ValidateProfiles` | crates/plurora-core/src/world_bundle.rs:501-520 | accepts exactly distinct, valid profile pins |
| `WorldBundle.ValidateInventory` | crates/plurora-core/src/world_bundle.rs:298-306 | accepts exactly inventories of valid descriptors with distinct digests |
| `WorldBundle.ValidateManifest` | crates/plurora-core/src/world_bundle.rs:238-329 | accepts exactly the manifests that satisfy every rule, stated without loops |
| `WorldBundle.ValidateShape` | crates/plurora-core/src/world_bundle.rs:392-429 | accepts exactly archives of the right format with a valid manifest, its own descriptor, and objects whose descriptors are those of the inventory, each once |
| `WorldBundleLaws.LineageAcyclic` | crates/plurora-core/src/world_bundle.rs:277-291 | in a valid manifest no head is its own ancestor |
| `WorldBundleLaws.AncestorsPresent` | crates/plurora-core/src/world_bundle.rs:277-313 | every transitive parent of the world head is an entry of the lineage |
| `WorldBundleLaws.ObjectsArePermutation` | crates/plurora-core/src/world_bundle.rs:392-429 | the inline objects' descriptors are a permutation of the inventory |
| `WorldBundleLaws.RootsInlinedOnce` | crates/plurora-core/src/world_bundle.rs:358-374 | every required root has exactly one inline object |
| `WorldBundleLaws.EnvelopesAreTheRanges` | crates/plurora-core/src/world_bundle.rs:314-327 | the number of original envelopes is the sum of the range lengths |
| `SchemaLaws.OneOfMeansExactlyOne` | crates/plurora-runtime/src/schema.rs:18-32 | `oneOf` passes exactly when one branch accepts and no other does |
| `SchemaLaws.AtMostOneBranch` | crates/plurora-runtime/src/schema.rs:12-32 | branches that require a common field with different constants never accept the same value |
| `SchemaLaws.DiscriminatedIsDisjunction` | crates/plurora-runtime/src/schema.rs:18-82 | on such unions exactly-one is plain disjunction |
| `SchemaLaws.OrderNeverMatters` | crates/plurora-runtime/src/schema.rs:3-85 | reordering members of schema or value, at any depth, never changes the verdict |
| `Schema.FieldsMean` | crates/plurora-runtime/src/schema.rs:53-68 | `required` passes exactly when every named field is present |
| `Schema.EachMeans` | crates/plurora-runtime/src/schema.rs:70-82 | `properties` passes exactly when every property that is present is accepted by its schema |

## Left out

- Cancellation of broker tasks, timers, wall-clock expiry and the loop of the cleanup supervisor: tasks run each action to its end; expiry is a close that may happen at any time.
- Cleanup per generation: pending cleanup is kept per binding, and only statements per binding are made.
- Starting and stopping a run as a whole, foreign launches, rights and entitlements: the gaps they report enter the inspection as `before`.
- Verification of the artifact closure of an installation: the maps of assemblies and locks are given; unique node, port and exposure ids (`AssemblyRevision::validate`) and acyclic nesting are assumptions.
- What Powerbox control answers to the broker is not restricted: after `run_stopped` it may name any bindings, also none, and `attach` may be called with any selection that its own checks accept.
- `validate_selected` and Powerbox control's answer are parameters of the inspection, and so is the digest of a port contract.
- The text heuristics for raw secrets, secret field names, secret references and host paths are parameters (`Policy`): they are finite tables of patterns.
- JSON printing and parsing, SHA-256 and UUIDs: a round trip is asked of the payload that is built, freedom from collisions of the documents it generates. Errors of serialization do not occur.
- JSON numbers that are not integers are reals; member lookup and comparison of values are by canonical form.
- SQL text, SQLite and PostgreSQL themselves: queries are relations between rows and pages. `list_all`, which orders by timestamp text, and the broadcast channel are not modelled.
- Manifest validation, package loading, the CLI, the web client and the remaining crates: field-by-field checks, I/O and user interface.
