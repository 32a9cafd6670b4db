# A verified model of the launcher's control plane

This project models the parts of the sing-box launcher that decide when the VPN core is started,
restarted, rebuilt and talked to, and proves properties of them over all inputs and all runs.
`dafny verify dfyconfig.toml` checks everything.

| part | files |
|---|---|
| Process supervisor: one mutex, one `Monitor` per child, unlocked restart windows, stability goroutines | `Supervisor`, `SupervisorSafety`, `SupervisorStability`, `SupervisorBudget`, `SupervisorProgress`, `ProcessService` |
| Rebuild and Update, mutually recursive through the body cache | `Rebuild`, `RebuildService` |
| Per-source refresh under `SubscriptionMu` | `RefreshMeta` |
| The transport override slot and the generation counter | `Transport`, `TransportOverlap`, `TransportService` |
| Caches and schedulers fed by streams and clocks | `ConnTracker`, `LogRing`, `AutoUpdate` |
| Versions and the template marker | `Versions`, `TemplateMarker` |
| List merge and pinning, JSON formatter, quoting | `ProxyList`, `Formatter`, `FormatterReads`, `Quoting` |

Concurrent parts are labelled transition systems: a `State`, an `Event` per locked section or shared
access, `Enabled`, `Next`, and `Runs`/`After` over event sequences. Their main results quantify over every
run. Objects whose methods update fields are classes; each method is proved equal to the step (or the
function) of the specification beside it. The network, the parser, the builder, the platform and the clock
are parameters or events.

## Modelling conventions

- Supervisor: a section that holds `CmdMutex` without waiting is one step. `Start` holds it across a
  config rebuild, so it is two steps (`Lock`, `Finish`). Signals, watchdogs and crashes are all
  `ChildExit`, which may happen at any time. Before `Start(true)` a Monitor sleeps 500 ms for the adapter
  cleanup, after a crash 2 s more; the cleanup itself may take any further time.
- Process ids and transport objects are never reused.
- Time is in milliseconds; `Tick` may advance it by any amount between steps.
- Rebuild: `fuel` counts the nested Updates allowed and None means it ran out. `Ends` says that some
  fuel suffices. Nothing bounds the input: the results are for every fuel.
- `DeleteOrphans` removes every body whose id is not known, unless the removal fails or the cache
  directory cannot be read (`removable`); when the state directory cannot be listed, no id is known. A
  fetch that delivers nothing also stands for a body that could not be written.
- Go's `int` appears where it matters, in `Versions.ScanInt`.
- Loops of several lines that occur twice in a source function are helper methods here.

## Where the code differs from what it says

- core/config_service_subscriptions.go:32-35 says the caller holds `SubscriptionMu` over load, mutation and
  save. core/config_service.go:197-210 loads first. `RefreshMeta.SweepLosesMetaIff` says when an update is lost.
- core/auto_update.go:23-26 promises a retry 15 s after a failed fetch. The call it watches returns no
  error when the fetch fails (core/config_service_subscriptions.go:376-387), so a retry is scheduled
  exactly when state.json cannot be loaded or saved, or the source is gone or not a subscription:
  `AutoUpdate.FailedFetchIsNotRetried`. Where a retry is scheduled, its clean-up can orphan a newer one:
  `AutoUpdate.OrphanedRetry`, exact condition in `AutoUpdate.SuccessCancelsIff`.
- core/process_service.go:26-27 promises 180 s without a crash before the crash counter is reset. True
  without user actions (`NoFalseStability`, even 182.5 s). With user actions it is false exactly when the
  counter was zero while the goroutine slept (`FalseStabilityIff`); `FalseStabilityAfterRestart` is such a
  run, with a reset 80 s after a crash.
- core/rebuild.go:88-90 describes one Update followed by the rebuild. Update calls Rebuild again, and with a
  failing source beside a working one the nesting does not end: `RebuildSpec.NestingNeedNotEnd`, exact
  condition in `RebuildSpec.EndsIff` and, for sources that answer alike, `RebuildSpec.StationaryEndsIff`.
- core/config_service_subscriptions.go:159-160 lets the GC go on when a state file is broken. When the
  directory itself cannot be listed it goes on too, with no known id, and removes every body it can:
  `RebuildSpec.UpdateKeepsBodies`.
- docs/release_notes/0-9-0.md:15 says that files whose name is no id stay in the cache directory.
  core/state/raw_cache.go:159-177 removes them like any other unknown body.
- The last good body is not always the last fetched: an empty answer, and any answer of a source whose id
  cannot name a file, is not written although the status becomes "ok" (`RefreshMeta.BodyIsLastSuccessIff`).
- A Stop does not cancel an earlier restart that is in its unlocked window
  (`SupervisorSafety.StopStaysDownIff`), and a restart request overtaken by a Stop stays set for the next
  child (`RestartGrantedIff`).
- Tab switches and engine swaps change the endpoint without bumping the generation
  (`Transport.StaleAfterSwitchIff`), and a connect or disconnect changes it some accesses before its bump,
  so a list rendered in between may be stale (`Transport.ConnectOpensWindow`). Two operations that
  overlap can leave a closed machine or engine installed; exactly which pairs, from which access on:
  `TransportOverlap.OverlapIff`.
- `format_value` drops an empty key and prints keys unescaped; the script's own comparison then refuses to
  write (`Formatter.OnlyWhiteSpaceIff`, `Formatter.EmptyKeyIsDropped`).
- Pinning keeps only the first row of a repeated pinned name (`ProxyList.ReorderPermutesIff`).

## Model

| member | source | states |
|---|---|---|
| Supervisor.InvStep | core/process_service.go:126-489 | every critical section keeps: the mutex holder is the one thread inside Start and nothing runs then; `running` holds exactly while one Monitor is unfinished and SingboxCmd names its child; counter at most 3; sleeping goroutines in deadline order |
| Supervisor.InvRun | core/process_service.go:126-596 | the same over every run from a state that has it |
| SupervisorSafety.SingleChild | core/process_service.go:126-400 | at every moment of every interleaving at most one child is live; while running, SingboxCmd names a child with exactly one unfinished Monitor; a Monitor that locks finds its own pid |
| SupervisorSafety.StopStaysDownIff | core/process_service.go:496-509 | after a Stop no run without a further user Start spawns anything if and only if no restart continuation and no earlier Start is under way when the Stop locks |
| SupervisorSafety.GoingDownRun | core/process_service.go:396-412 | once nothing is starting and a stop is pending or nothing runs, no later step spawns until a user Start |
| SupervisorSafety.SpawnRun | core/process_service.go:460-470 | a thread already on its way into Start can spawn without any user action (the witness behind the other direction) |
| SupervisorSafety.ShutDownRun | core/process_service.go:404-412 | after a Stop the running child can be taken down while starting threads stay where they are |
| SupervisorSafety.RequestPends | core/process_service.go:587-596 | an accepted restart request stays pending, and the engine running, until a Monitor locks, through any interleaving |
| SupervisorSafety.RestartGrantedIff | core/process_service.go:414-432 | after KillForRestart on a running engine the next Monitor restarts uncounted and consumes the request if and only if no Stop was pending or followed; otherwise the Stop wins and the request is left over |
| SupervisorStability.HonestRun | core/process_service.go:446-489 | the invariant behind the next row over every run without user actions: sleeping goroutines remember strictly increasing counts, and one that remembers the present count wakes 182.5 s after the last crash or later |
| SupervisorStability.NoFalseStability | core/process_service.go:472-489 | in every run without user actions from a quiet start, whenever a stability goroutine zeroes the counter every earlier crash is at least 182.5 s back (deadline order, Monitor re-locks first) |
| SupervisorStability.StartedQuietly | core/process_service.go:126-152 | one user Start from the initial state is such a quiet start |
| SupervisorStability.StabilityBoundIsMet | core/process_service.go:459-489 | such a run exists and the bound is exact: a crash, a restart with its pause and cleanup, and a reset 182.5 s after the crash |
| SupervisorStability.FalseStabilityIff | core/process_service.go:472-489 | over every run with any user actions and any scheduling, from where a goroutine remembers the present count: when that count is used to reset the counter, a crash was handled meanwhile if and only if the counter was zero meanwhile |
| SupervisorStability.FalseStabilityAfterRestart | core/process_service.go:414-489 | the witness for a false one: an orderly run with one Restart in which the counter is zeroed 80 s after a crash |
| SupervisorBudget.BudgetStep | core/crash_handler.go:62-83 | no step without a user action raises the potential; each spawn lowers it by one and each stability reset raises it by at most three |
| SupervisorBudget.SpawnsAreBounded | core/process_service.go:404-470 | from any reachable state a run without user actions and with R resets spawns at most Budget + 3R children |
| SupervisorBudget.RestartBudget | core/crash_handler.go:62-83 | after one user Start: the first child and at most 3(R + 1) restarts |
| SupervisorBudget.NoSpawnAfterTheEnd | core/process_service.go:434-457 | once the last Monitor ends in a stop, a clean exit or the exhausted budget, nothing spawns before the next user action |
| SupervisorProgress.UserStartSpawns | core/process_service.go:126-242 | from every state the invariant allows, with nothing running and the mutex free: a user's Start can bring a child up without any further user action, and leaves counter and goroutines as they were |
| SupervisorProgress.ForeignProcessEndsStart | core/process_service.go:136-140 | a Start that finds a foreign process ends there: nothing else changes, and over every later run its thread never launches anything |
| SupervisorProgress.LateStartGivesUp | core/process_service.go:128-152 | a Start while running does nothing, and one that gets the mutex too late gives up |
| SupervisorProgress.CrashIsRestarted | core/process_service.go:438-476 | from every state with a crash inside the budget: a run that pauses, cleans up, restarts, counts it, and leaves a goroutine with the new count and its 180 s deadline |
| SupervisorProgress.CrashBeyondBudget | core/process_service.go:438-451 | one crash too many ends the line of restarts and starts the counter afresh |
| SupervisorProgress.StableRunResets | core/process_service.go:472-488 | for every count: 180 s after a restart, and not before, its goroutine clears the counter |
| SupervisorProgress.StopStartsAfresh | core/process_service.go:496-509 | a Stop makes the crash budget whole again, asks a running child to go, and touches nothing else |
| SupervisorProgress.NoStopLeftOver | core/process_service.go:404-412 | in every run a pending stop belongs to a running child |
| SupervisorProgress.MonitorLeaves | core/process_service.go:392-452 | for every state of the fields: an obsolete Monitor leaves them alone; any other leaves the engine down, the counter as decided, and of the two requests the answered one gone |
| SupervisorProgress.KillAsksOnce | core/process_service.go:587-596 | a restart request is set on a running engine only, and nothing else moves |
| SupervisorProgress.FailedLaunch | core/process_service.go:166-228 | a refused or failed launch leaves the engine down, frees the mutex, and only its own thread moves on |
| ProcessService.RunningState.Set | core/controller.go:499-559 | flag, auto-ping timer and published events: one event per real change, timer armed only while running |
| ProcessService.Controller.StartLocked | core/process_service.go:145-242 | the locked part of Start is the `Finish` step, or no change when already running |
| ProcessService.Controller.Stop | core/process_service.go:496-556 | the whole new state and the pid to signal: flags, counter, and the corrected inconsistent state |
| ProcessService.Controller.KillForRestart | core/process_service.go:587-627 | sets the request only while running; the pid to signal |
| ProcessService.Controller.MonitorLocked | core/process_service.go:392-452 | verdict and whole new state on all five outcomes and for an obsolete Monitor |
| ProcessService.Controller.RelockAfterCrash | core/process_service.go:470-489 | leaves the goroutine behind that the `Relock` step of the transition system adds, from every state the fields show |
| ProcessService.Controller.StabilityCheck | core/process_service.go:480-488 | takes the `Stability` step: the goroutine ends and zeroes the counter only when running with the remembered count |
| ProcessService.CounterIsCrashTail | core/crash_handler.go:62-83 | over any history of exits the counter is the length of the run of crashes it ends in, modulo the maximum plus one; which of the five actions each exit gets |
| RebuildSpec.SweepIs | core/config_service_subscriptions.go:72-89 | after a sweep a cached body is that of the last source that delivered under its id, else the old one |
| RebuildSpec.ValidRawIdIff | core/state/raw_cache.go:28-48 | an id can name a cache file if and only if it is non-empty, has at most 128 characters, and all are letters, digits, - or _ |
| RebuildSpec.UpdateKeepsBodies | core/state/raw_cache.go:139-181 | whatever the network answers, an Update leaves a body in place if and only if it does not sweep, or the state directory can be listed and a parsable state file names the source, or the removal fails |
| RebuildSpec.RebuildKeepsBodies | core/rebuild.go:98-257 | through the whole recursion: the body of a named source is there after every Update if and only if at every sweep the state directory could be listed or the removal failed |
| RebuildSpec.MissingAfterSweep | core/rebuild_raw_cache.go:39-53 | exactly which subscriptions lack a body after an Update: those the sweep starved and, when the state directory could not be listed, all others whose body could be removed; state files and config.json are untouched |
| RebuildSpec.NilReturn | core/rebuild.go:98-257 | every nil return: no enabled subscription lacks a body, and config.json was built from the present state and bodies unless nothing was dirty or forced |
| RebuildSpec.RebuildOkIff | core/rebuild.go:98-257 | Rebuild succeeds if and only if state and template load, nothing is missing at its end, its first Update (if any) succeeded, and what it found can be parsed and, when it must write, built and written |
| RebuildSpec.UpdateOkIff | core/config_service.go:193-268 | Update succeeds if and only if state.json has proxies and the parser finds a node in the bodies the sweep leaves |
| RebuildSpec.StaleUntilAccepted | core/rebuild.go:190-241 | through the whole recursion a configuration marked stale stays so until one built from the present state and bodies and accepted by sing-box is in place |
| RebuildSpec.UpdateMarks | core/config_service.go:276-300 | every successful Update leaves the cache marked fresh, and the configuration marked stale unless an accepted one was built from the new bodies |
| RebuildSpec.PlainRebuildMarks | core/rebuild.go:155-241 | without an Update: the fast path and every failure change nothing; a written configuration clears the marker if and only if sing-box accepts it |
| RebuildSpec.BodiesAre | core/rebuild_raw_cache.go:122-141 | for each url the parser gets the body of the last enabled subscription that has one under a usable id |
| RebuildSpec.FuelMonotone | core/rebuild.go:133-150 | more allowed nesting never changes a result |
| RebuildSpec.ProgressBoundsNesting | core/config_service.go:265-297 | if each Update of this nesting leaves strictly fewer missing bodies, it ends after at most as many Updates as bodies are missing |
| RebuildSpec.SecondSweep | core/config_service.go:208-254 | with the same answers a second Update succeeds again and changes no body |
| RebuildSpec.Loops | core/rebuild.go:133-150 | a body still missing after a successful Update keeps the recursion going at every depth |
| RebuildSpec.EndsIff | core/rebuild.go:133-150 | for all sources, parsers and machines: the recursion ends if and only if it does not start, or after some number of Updates nothing is missing or the next Update fails |
| RebuildSpec.StationaryEndsIff | core/rebuild.go:133-150 | for sources that answer alike each time: if and only if there is no template, nothing is missing, the first Update fails, or it leaves no subscription without a body |
| RebuildSpec.NestingNeedNotEnd | core/config_service.go:294-300 | a concrete machine on which it does not end |
| RebuildService.ConfigService.MissingBodies | core/rebuild_raw_cache.go:40-53 | collects exactly the enabled subscriptions without a body |
| RebuildService.ConfigService.ValidateRawID | core/state/raw_cache.go:28-48 | the loop decides exactly that |
| RebuildService.ConfigService.BuildBodyLookup | core/rebuild_raw_cache.go:122-141 | the url-to-body map of enabled subscriptions whose id can name a file, later sources winning |
| RebuildService.ConfigService.FetchAll | core/config_service_subscriptions.go:72-89 | the fetch loop is the sweep of the specification |
| RebuildService.ConfigService.CollectAllStageSourceIDs | core/config_service_subscriptions.go:161-205 | returns exactly the ids named by some parsable state file, none when the directory cannot be listed |
| RebuildService.ConfigService.DeleteOrphans | core/state/raw_cache.go:139-181 | removes exactly the bodies whose id is not known and whose removal succeeds |
| RebuildService.ConfigService.FetchSubscriptions | core/config_service.go:193-280 | Update up to its nested rebuild, in every outcome; the lookup hook is restored |
| RebuildService.ConfigService.WriteConfig | core/rebuild.go:155-256 | fast path, build, write, check, and which markers remain; the hook is restored |
| RebuildService.ConfigService.RebuildConfigIfDirty | core/rebuild.go:98-257 | result and whole new state of the recursion wherever it ends; the hook is restored |
| RebuildService.ConfigService.UpdateConfigFromSubscriptions | core/config_service.go:193-317 | the same for Update; a failed nested rebuild is swallowed |
| RefreshMeta.NoLostMeta | core/config_service_subscriptions.go:349-388 | whenever the lock is free, state.json and the bodies are what the calls of the run produce run one after another in lock order, each with the id it was called with, the answer it fetched and the success of its save, read off the events alone; over every interleaving |
| RefreshMeta.OneCall | core/config_service_subscriptions.go:349-388 | a call that finds the lock free can go all the way and does exactly what it does alone |
| RefreshMeta.SourceHistory | core/config_service_subscriptions.go:213-291 | for each source over any serial run: error count is the trailing run of failures state.json recorded, status the last recorded outcome, body the last non-empty one fetched; nothing else about it changes |
| RefreshMeta.BodyIsLastSuccessIff | core/config_service_subscriptions.go:253-261 | after a success the body on disk is the one just fetched if and only if that is not empty and the id can name a cache file |
| RefreshMeta.SweepLosesMetaIff | core/config_service_subscriptions.go:130-135 | for every file, refresh and answers: a full sweep that loaded before the refresh leaves the outcome of one of the two orders if and only if it has nothing to write (no enabled subscription) or the refresh was harmless (the source enabled and swept with success, or the recorded state already the new one) |
| RefreshMeta.SweepLosesMeta | core/config_service.go:197-210 | the witness for a refresh that was not |
| RefreshMeta.SubscriptionStore.FindSource | core/config_service_subscriptions.go:367-370 | the first source of that id, if any |
| RefreshMeta.SubscriptionStore.RefreshOne | core/config_service_subscriptions.go:213-291 | meta, body and dirty flag for success, failure and a source that is skipped |
| RefreshMeta.SubscriptionStore.RefreshAll | core/config_service_subscriptions.go:72-135 | the sweep over the copy it was given: dirty if and only if an enabled subscription with a url is in it, and only then state.json becomes the swept copy |
| RefreshMeta.SubscriptionStore.RefreshSingleSubscription | core/config_service_subscriptions.go:349-388 | the whole new store and marker, and exactly when an error is returned: on loading, finding, type and saving, never for a failed fetch |
| Transport.ConnectIs | ui/lxd_remote_override.go:56-82 | the seven shared accesses of a connect, undisturbed: new machine selected and installed, old one closed, generation bumped |
| Transport.DisconnectIs | ui/lxd_remote_override.go:91-128 | undisturbed: a machine's transport gives way to the engine's own, the machine is closed and unselected |
| Transport.SwapIs | core/backend.go:71-91 | close, publish, reinstall, undisturbed: what the slot holds for every previous and next engine |
| Transport.ConstructIs | core/backend_daemon_darwin.go:96-126 | construction and swap of a daemon engine, undisturbed |
| Transport.PerformKeepsOwned | core/backend.go:71-155 | every operation keeps: the override is none, the engine's own or the selected machine's, open, and not none in daemon mode; the Local tab installs the daemon's own, Reapply the machine's, Disconnect the engine's own |
| Transport.AfterConnect | ui/lxd_remote_override.go:56-80 | the new machine is selected and in the slot, the old one closed, engine and Clash override stay, the generation moves by one |
| Transport.AfterDisconnect | ui/lxd_remote_override.go:101-126 | no machine selected, the old one closed, engine and Clash override stay, the generation moves by one |
| Transport.AfterTabSwitch | ui/app.go:102-130 | tab switches write the slot and nothing else |
| Transport.AfterSwitch | core/backend.go:134-155 | whatever is in the slot: refused while running, otherwise classic means no engine, daemon and reload a fresh one, the old engine closed and nothing else |
| Transport.AfterClash | ui/clash_remote.go:83-101 | the Clash override is what was set, or none, and the generation moves by one |
| Transport.OwnershipHolds | ui/lxd_remote_override.go:39-183 | over every run whose operations do not overlap, whenever none is under way: the override is owned and open |
| Transport.NoStaleList | ui/clash_api_tab_autorefresh.go:232-253 | in every run that changes the endpoint only by Set and Clear, also overlapping ones, with renders at any time: a list that passes the generation check came from the endpoint in force when it is rendered, unless a Set or Clear is then between its first write (a disconnect: its test of the slot) and its bump |
| Transport.QuietFetch | ui/clash_api_tab_autorefresh.go:232-253 | undisturbed, a fetch of either scope from any state reads the endpoint in force and its list is accepted |
| Transport.EndpointKeptIff | ui/clash_remote.go:214-243 | for every state and every single access of every operation: exactly when the endpoint in force stays the same |
| Transport.StaleInWindowIff | ui/lxd_remote_override.go:56-80 | a list that passes the check goes on passing it through every access but the bump, and stays current if and only if the access keeps the endpoint |
| Transport.ConnectOpensWindow | ui/lxd_remote_override.go:56-80 | from every state, for every list on its way: two accesses into a connect the list passes the check and is not from the machine now in force |
| Transport.StaleListMidConnect | ui/lxd_remote_override.go:216-231 | a run of connects alone that reaches such a state |
| Transport.StaleAfterSwitchIff | core/backend.go:71-155 | after a tab switch, a reapply or an engine swap every list still passes the check; it is current if and only if the slot and the mode were as stated for that operation |
| TransportOverlap.OverlapIff | core/backend.go:71-111 | with any one of the operations under way, at any access, and any further operation: every schedule of the two ends with ownership, if and only if the further one returns at once or neither takes away the machine or the engine the other has put or is about to put into the slot |
| TransportOverlap.HarmIsDone | ui/lxd_remote_override.go:56-126 | the negative half: from every such pair of accesses some schedule ends with the override neither the engine's nor the selected machine's |
| TransportOverlap.PeaceHolds | ui/lxd_remote_override.go:39-183 | the positive half: when neither harms the other and both orders end owned, every schedule does |
| TransportOverlap.OutcomeIs | core/backend_daemon_darwin.go:343-357 | where every operation leads from every access on when nothing interferes |
| TransportOverlap.AlwaysOwnedIff | ui/lxd_remote_override.go:216-231 | the schedules are those of the transition system: all its runs from such a state end owned if and only if all interleavings of the two remaining operations do |
| TransportOverlap.EngineIsKnown | core/backend_daemon_darwin.go:96-117 | in every run the engine is one that was made |
| Transport.OverlapBreaksOwnership | ui/lxd_remote_override.go:56-80 | a run of two overlapping connects that leaves a closed, unselected machine installed |
| Transport.TabSwitchLetsStaleListThrough | ui/app.go:102-130 | a concrete run in which a tab switch lets a machine's list through while the local engine is in force |
| Transport.Finish | core/backend.go:71-91 | from any state an operation left alone runs to the state of its undisturbed form, other operations keeping their place |
| TransportService.Controller.SetLxdRemoteOverride | ui/lxd_remote_override.go:39-84 | equals the undisturbed connect and keeps ownership; unknown machine changes nothing |
| TransportService.Controller.ClearLxdRemoteOverride | ui/lxd_remote_override.go:91-128 | equals the undisturbed disconnect and keeps ownership |
| TransportService.Controller.ReapplyLxdRemoteTransport | ui/lxd_remote_override.go:174-183 | puts the selected machine back and keeps ownership |
| TransportService.Controller.RestoreOwnTransport | core/backend.go:103-111 | puts the daemon's own transport back; nothing in classic mode |
| TransportService.Controller.SetBackend | core/backend.go:71-91 | close before publish before reinstall |
| TransportService.Controller.NewDaemonBackend | core/backend_daemon_darwin.go:96-117 | installs its own transport at once, or changes nothing |
| TransportService.Controller.SwitchBackendMode | core/backend.go:134-155 | when it succeeds, that the engine is then of the wanted kind, and the whole new link in every case, ownership kept |
| TransportService.Controller.ReloadDaemonBackendIfActive | core/daemon_manager_darwin.go:349-360 | a daemon engine replaced by a fresh one, ownership kept |
| ConnTracker.ReplayIsLastWord | core/backend_daemon_traffic_darwin.go:38-55 | folding the events agrees, connection by connection, with the last event that says something about it |
| ConnTracker.SnapshotRefinesReplay | core/backend_daemon_traffic_darwin.go:186-209 | in every interleaving with the stream reader an ok snapshot is the replay of a prefix of what the events delivered since the stream began; none before a batch arrives; all of it when the reader is idle |
| ConnTracker.ReaderFinishes | core/backend_daemon_traffic_darwin.go:199-207 | from every reachable state the reader can finish its batch, and then the map is the replay of everything delivered |
| ConnTracker.StreamCanEnd | core/backend_daemon_traffic_darwin.go:188-198 | between batches the stream can end, and then everything starts anew; a batch for a superseded backend changes nothing |
| ConnTracker.Tracker.ApplyEvent | core/backend_daemon_traffic_darwin.go:38-49 | the new map after NEW, UPDATE and CLOSED |
| ConnTracker.Tracker.MarkDead | core/backend_daemon_traffic_darwin.go:62-67 | empty and not live |
| ConnTracker.Tracker.TakeSnapshot | core/backend_daemon_traffic_darwin.go:71-82 | ok exactly when live, then the whole map |
| ConnTracker.Tracker.Consume | core/backend_daemon_traffic_darwin.go:196-207 | one batch extends the replayed history; a superseded backend changes nothing |
| LogRing.LastOfLast | core/backend_daemon_darwin.go:521-526 | trimming before or after more lines arrive makes no difference |
| LogRing.LastIsTail | core/backend_daemon_darwin.go:535-541 | the lines kept are the end of the list, in order |
| LogRing.HistoryIs | core/backend_daemon_darwin.go:517-523 | the history is the messages of all batches from the last reset on |
| LogRing.LogBuffer.Append | core/backend_daemon_darwin.go:521-523 | one more line, in place while the capacity lasts |
| LogRing.LogBuffer.Shift | core/backend_daemon_darwin.go:524-526 | the in-place shift drops exactly the overflow from the front |
| LogRing.LogBuffer.Receive | core/backend_daemon_darwin.go:517-527 | keeps: the buffer is the last min(3000, n) of the n messages since the last reset, over all streams |
| LogRing.LogBuffer.CoreLogLines | core/backend_daemon_darwin.go:532-542 | a fresh copy of the last min(max, length) lines, all for max 0 |
| AutoUpdate.GrantsAreSpaced | core/auto_update.go:287-299 | for any clock readings, also backwards, grants to one source are 5 s apart |
| AutoUpdate.GrantedIff | core/auto_update.go:287-299 | a fetch is granted if and only if the source has no grant yet or its last one is 5 s old, and other sources do not matter |
| AutoUpdate.WindowBudget | core/auto_update.go:287-299 | at most W/5 + 1 event-triggered fetches of a source in any window of W seconds |
| AutoUpdate.FetchBudget | core/auto_update.go:173-216 | in every interleaving there are at most as many retries as triggers, counted in the events |
| AutoUpdate.CountsAre | core/auto_update.go:173-216 | every trigger and every retry fetches once, and every trigger returns at most once |
| AutoUpdate.RetryHappens | core/auto_update.go:191-216 | a failure schedules one retry of its source, which can run, fetches once and cleans up |
| AutoUpdate.ResumeCancelsAll | core/auto_update.go:230-237 | a manual update takes back every retry that can be reached, and none that is under way |
| AutoUpdate.RegisteredIff | core/auto_update.go:191-237 | a step leaves every armed retry within reach of its cancellation if and only if it is not a clean-up over a newer armed retry of the same source |
| AutoUpdate.SuccessCancelsIff | core/auto_update.go:219-226 | over every run: at each moment a success of any source cancels all its retries, if and only if no callback of the run cleaned up over a newer retry |
| AutoUpdate.OrphanedRetry | core/auto_update.go:202-215 | a run with such a clean-up, after which a success leaves a retry armed |
| AutoUpdate.FailedFetchIsNotRetried | core/auto_update.go:173-186 | a retry is scheduled if and only if state.json cannot be loaded, the source is gone or no subscription, or the save fails; a failed fetch is recorded in its meta and cancels the pending retry |
| AutoUpdate.AutoUpdater.EventCooldownAllow | core/auto_update.go:287-299 | the answer, the new table, and the grant history of every source |
| AutoUpdate.QuestionsAre | core/auto_update.go:264-278 | the loop asks for each enabled subscription with a url whose last refresh failed, in the order of the sources, and for no other |
| AutoUpdate.AutoUpdater.TriggerRetryForFailedSources | core/auto_update.go:264-278 | asks for exactly the eligible sources in order and starts exactly those granted, each once |
| Versions.CompareMeans | core/core_version.go:191-253 | the sign is decided exactly by the first differing component of the zero-padded base versions, and between equal bases by the suffix |
| Versions.TotalPreorder | core/core_version.go:191-213 | on all strings: reflexive, sign-antisymmetric, transitive, strict when one step is |
| Versions.ScanIs | core/core_version.go:236-242 | a component is blanks, a sign, a number and anything after it: the number counts, zero when there is none or it does not fit in 64 bits |
| Versions.ScanDecimal | core/core_version.go:236-242 | every number below 2^63 is read back from its decimal numeral |
| Versions.PrintedParts | core/core_version.go:191-229 | the components of a printed release number come back, with or without a leading v and a suffix, and so does whether it has one |
| Versions.ComparePrinted | core/core_version.go:191-253 | on printed release numbers of any length, in terms of the numbers alone: the first that differs decides, missing ones counting as zero, then the suffix |
| Versions.TrailingZero | core/core_version.go:226-253 | appending `.0` to a version without suffix compares equal |
| Versions.CompareBaseVersions | core/core_version.go:226-253 | the loop computes the comparison of the zero-padded components |
| Versions.Compare | core/core_version.go:191-213 | negative exactly for an older version, zero exactly for the same |
| TemplateMarker.MarkerIsRunningMaximum | core/template_migration.go:42-83 | over any launches, whatever fails at which: the marker is the version of a completed release launch (or the initial one) and no completed one is above it |
| TemplateMarker.DeletedIffNewest | core/template_migration.go:52-67 | after any launches the template is deleted if and only if it is there and can be removed and the version is a release strictly above all earlier completed ones |
| TemplateMarker.DevIff | core/template_migration.go:91-102 | a dev build is empty, begins with v-local-test, contains unnamed-dev or ends in -dirty |
| TemplateMarker.ReleasesAreReleases | core/template_migration.go:91-102 | no printed release number is a dev build |
| TemplateMarker.FailedRemovalRetries | core/template_migration.go:61-81 | any number of launches at which something failed leave no trace: a later launch deletes exactly when it would have done so before them |
| TemplateMarker.Launcher.InvalidateTemplateIfStale | core/template_migration.go:42-83 | marker, file and error in every case |
| ProxyList.MergeCounts | ui/clash_api_tab_helpers.go:109-140 | how often each name occurs in the merged list, for all lists |
| ProxyList.MergePermutesIff | ui/clash_api_tab_helpers.go:109-140 | the merged names are a permutation of the answer's if and only if every surviving name occurs as often on screen as in the answer |
| ProxyList.MergeShape | ui/clash_api_tab_helpers.go:118-138 | for all lists: survivors first in screen order with their delay and the data of the answer's last row of that name, then newcomers in answer order |
| ProxyList.MergeIdempotentIff | ui/clash_api_tab_helpers.go:109-140 | merging the same answer again changes nothing if and only if rows of one new name differ in their delay only |
| ProxyList.MergePreservingOrder | ui/clash_api_tab_helpers.go:109-140 | the loops compute that merge |
| ProxyList.PinnedOnTop | ui/clash_api_tab_helpers.go:57-77 | direct-out first, the active node next, each only if in the list |
| ProxyList.RestIsStable | ui/clash_api_tab_helpers.go:78-84 | below the top the other rows keep their order; no name appears or disappears |
| ProxyList.ReorderIdempotent | ui/clash_api_tab_helpers.go:36-85 | pinning again changes nothing, on all lists |
| ProxyList.ReorderPermutesIff | ui/clash_api_tab_helpers.go:36-85 | no row is lost if and only if every pinned name occurs once |
| ProxyList.ReorderWithPinned | ui/clash_api_tab_helpers.go:36-85 | the loops compute that order |
| Formatter.OnlyWhiteSpaceIff | scripts/format_wizard_template.py:135-163 | for every value, level, key and comma: the printed text is key, compact text and comma up to white space outside strings, if and only if the key and every key printed on a line of its own is non-empty and needs no escape |
| FormatterReads.FormattedReads | scripts/format_wizard_template.py:222-230 | when the keys it gives a line of their own are plain, the printed text reads back as the value it was given, at every level |
| FormatterReads.ValueReads | scripts/format_wizard_template.py:38-39 | whatever follows, the compact text of a value without its white space is read back as the value |
| FormatterReads.StringReads | scripts/format_wizard_template.py:38-39 | every string is read back from its escaped form |
| FormatterReads.CompactInjective | scripts/format_wizard_template.py:38-39 | different values have different compact texts |
| Formatter.OneLineIff | scripts/format_wizard_template.py:139-145 | one line if and only if a scalar, or short and without an expression, or a lone `#if` whose value is no container |
| Formatter.HasExprIff | scripts/format_wizard_template.py:51-59 | there is an expression if and only if a string that begins with @ or an object with a key that begins with # is somewhere inside |
| Formatter.LoneIfRaises | scripts/format_wizard_template.py:144-144 | a lone `#if` that holds no object raises |
| Formatter.EmptyKeyIsDropped | scripts/format_wizard_template.py:137-137 | a concrete value whose empty key disappears |
| Formatter.WellFormedPrints | scripts/format_wizard_template.py:142-145 | no exception when every `#if` holds an object |
| Formatter.FormatValue | scripts/format_wizard_template.py:135-163 | the branches and loops compute those lines, None where the script raises |
| Quoting.QuoteReads | core/daemon_manager_darwin.go:458-460 | in any context a quoted argument adds exactly its text to the word being read (sections 2.2.1 and 2.2.2 of the POSIX Shell Command Language) |
| Quoting.UnquotedRules | core/daemon_manager_darwin.go:395-427 | what the reader does with one unquoted character: blanks, backslash, backslash and line feed, operators (sections 2.2 and 2.2.1 of the POSIX Shell Command Language) |
| Quoting.QuotedIsOneWord | core/daemon_manager_darwin.go:458-460 | splitting a quoted string gives exactly one word equal to it |
| Quoting.QuoteInjective | core/daemon_manager_darwin.go:458-460 | different strings quote differently |
| Quoting.CommandSplits | core/daemon_manager_darwin.go:395-427 | a command line of bare and quoted arguments splits into exactly their texts |
| Quoting.InstallWords | core/daemon_manager_darwin.go:414-417 | the install command's words, for every path of the core |
| Quoting.UninstallWords | core/daemon_manager_darwin.go:421-427 | the uninstall command's words, with and without purge, for every path |
| Quoting.LiteralReads | core/daemon_manager_darwin.go:441-442 | reading an AppleScript literal inverts the two replacement passes, whatever follows |
| Quoting.OrderOfPassesMatters | core/daemon_manager_darwin.go:441-442 | the passes in the other order are not inverted: a concrete string |
| Quoting.UninstallEndToEnd | core/daemon_manager_darwin.go:431-446 | from the path through shell quoting, AppleScript escaping and back: the shell sees exactly the intended words |
| Quoting.CsvRoundTripIff | core/process_service.go:674-698 | printed fields come back if and only if no field holds a quote and the list is not one empty field |
| Quoting.FieldsKeepText | core/process_service.go:674-698 | on every line the fields joined by commas are the line without its quotes |
| Quoting.ParseCSVLine | core/process_service.go:674-698 | the loop computes those fields |

## Left out

- The privileged macOS launch: `running` is published after Start released the mutex, so the single-child claim is not made there.
- Out-of-band `RunningState.Set(false)` by the kill dialog and Diagnostics, PID reuse, the kill watchdog's own decisions.
- The exit of the whole program (context cancellation of the stability goroutine, `gracefulExit`).
- `RebuildSpec` leaves the contents of configurations, node parsing, base64 decoding of bodies, the GC of disabled nodes and of rule-sets (`collectAllStageRuleSetTags`, a union like the one over source ids), progress and UI events to the oracles or out; `stripANSI` only cleans log text.
- RebuildService.ConfigService.RebuildConfigIfDirty: requires a ghost nesting depth that suffices; where the recursion does not end the method's contract says nothing, and `RebuildSpec.EndsIff` says when that is.
- RebuildService.ConfigService.UpdateConfigFromSubscriptions: the same ghost depth as RebuildConfigIfDirty.
- RefreshMeta.NoLostMeta: `RefreshSourceInPlace` and the debug API's `SaveState` do not take the lock and are not covered; the full sweep is treated in `SweepLosesMetaIff`, its own save succeeding.
- SupervisorStability.NoFalseStability: assumes (and `FalseStabilityIff` does not) that sleeping goroutines lock in deadline order and that a Monitor locks again right after its Start returns.
- RefreshMeta.BodyIsLastSuccessIff: assumes that only `WriteRawBody` wrote the cache, so no body under the id is empty or belongs to an id it refuses, and that it does not fail on the disk.
- TransportOverlap.OverlapIff: two operations at a time; a third one under way is not considered.
- TemplateMarker.MarkerIsRunningMaximum: the template download in the UI (ui/core_dashboard_tab.go:950) also stamps the marker between launches, also for dev versions; runs with such downloads are not covered.
- TemplateMarker.DeletedIffNewest: the same.
- Quoting.CommandSplits: bare arguments contain only characters whose meaning the two POSIX sections settle.
- Metadata of a fetched subscription other than status and error count, the copying of connection fields (`protoConnToClash`), host name normalisation.
- The formatter's `format_var`, `format_preset`, `format_template` and the pass that strips trailing commas (it also rewrites string values containing a comma before a bracket; the script's comparison then refuses to write).
- `prepareConfigForDaemon`, pairing and settings of the daemon manager, reconnect backoff, the auto-refresh ticker's `reconcile`, heartbeat and staleness tests: they would only add easy members.
- Log text, localisation, dialogs, file paths, HTTP and gRPC calls.
