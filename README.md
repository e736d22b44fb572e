# SmartHunter scan orchestrator, modelled in Dafny

SmartHunter attaches to the Monster Hunter: World process and locates game
structures by scanning the process's memory for byte patterns. The
`MemoryUpdater` class drives this. It is a state machine stepped once per
dispatcher-timer tick. The states run from self-update maintenance through
waiting for the game process to fast probes and then full scans, ending in
`Working` or `PatternScanFailed`. The class owns three pieces of mutable
state: the bound `Process`, the list of fast scans at cached addresses and
the list of full scans over the main module.

The project has four modules:

- `Collaborators` (`collaborators.dfy`) holds the records the orchestrator
  reads from code that is not part of this model: address ranges, a per-tick
  snapshot of each byte pattern, the process records, and `MemoryScan`. That
  is a class standing for `ThreadedMemoryScan`, with its completion flag,
  per-partition results and cancellation flag.
- `Transitions` (`transitions.dfy`) holds the states and the ordered
  transition table as pure functions of what one tick observes. It also holds
  the lemmas about guards, choice, absorbing states and runs.
- `ScanPlan` (`scan_plan.dfy`) holds the specification functions of the
  effects, with the lemmas that say what they mean:
  - which patterns get a fast probe or a full scan, and over which range;
  - which process the search binds;
  - which scans survive into `Working`;
  - the logged match range.
- `Core` (`memory_updater.dfy`) holds the tick-rate clamp and the class
  `MemoryUpdater`. The class's fields are updated in place by `Initialize`,
  the three list-building effects, `Step` (one `StateMachine.Update()`) and
  `Update` (the timer's tick handler).

`StateMachine<State>` is not part of this model. Its behaviour is taken to
be this:

- the transitions of the current state are tried in declared order;
- the first enabled one fires, its effect runs once, and then the machine
  moves to its target;
- the machine starts in `None`, the default value of the `State` enum,
  since `CreateStateMachine` sets no initial state;
- a state with no entry in the table behaves like a state with no enabled
  transition: `Update()` does not throw there;
- a state with no enabled transition stays where it is;
- an exception from an effect leaves the state unchanged and propagates to
  the tick handler.

`PatternScanFailed` has no entry in the table, so by the last three
assumptions it is absorbing and the timer keeps running there.

Two facts about the code:

- The start-up phase consists of the distinct states `None`,
  `DeleteOldFiles`, `CheckingForUpdates`, `DownloadingUpdates` and
  `Restarting`.
- `PatternScanFailed` is entered only when at least one full scan exists and
  none matched, and no completed fast scan matched. With no full scan and no
  completed fast scan that matched, both completion guards hold and
  `Working`, declared first, is chosen. Its
  merge then throws if no fast scan matched either, and the tick handler
  disables the timer. `OnlyOverlapThrows` and `Core.MemoryUpdater.Update`
  state this.

## Model

| member | source | states |
|---|---|---|
| Core.ClampedRate | SmartHunter/Core/MemoryUpdater.cs:386-388 | the configured rate is forced into [1, 60]; it is unchanged inside that interval, and below or above it becomes the nearest bound |
| Core.TargetMilliseconds | SmartHunter/Core/MemoryUpdater.cs:390 | the interval lies in [16, 1000] and is the whole number of milliseconds of one tick at the clamped rate, rounded down |
| Core.MemoryUpdater.TryUpdateTimerInterval | SmartHunter/Core/MemoryUpdater.cs:384-395 | afterwards the timer interval equals the clamped target, whether or not it had to change |
| Core.MemoryUpdater.constructor | SmartHunter/Core/MemoryUpdater.cs:47-57 | the process name, thread count, tick rate and shutdown-on-exit flag are the arguments given; the machine starts in None with no process and no scan, a fresh timer is enabled at the clamped interval, and the invariant holds |
| Core.MemoryUpdater.Initialize | SmartHunter/Core/MemoryUpdater.cs:345-367 | the process is unbound and both lists are emptied; every old full scan is cancelled with its results untouched; fast scans that are not also full scans keep their cancellation flag; shutdown is requested exactly when the process exited and shutdown-on-exit is configured |
| Core.MemoryUpdater.FindTargetProcess | SmartHunter/Core/MemoryUpdater.cs:183-202 | the search returns exactly FirstRunning: the first enumerated process that can be inspected, has the target name and has not exited, or nothing |
| Core.MemoryUpdater.StartFastScans | SmartHunter/Core/MemoryUpdater.cs:213-226 | the fast list keeps its old scans as a prefix and gains fresh scans whose requests are exactly ScanRequests(patterns, Probe), in pattern order; every scan added is new: the configured thread count, not finished, nothing found, not cancelled |
| Core.MemoryUpdater.StartFullScans | SmartHunter/Core/MemoryUpdater.cs:240-254 | the full list keeps its old scans as a prefix and gains fresh scans whose requests are exactly ScanRequests(patterns, Module(main module of the bound process)), in pattern order; every scan added is new, as for the fast scans |
| Core.MemoryUpdater.MergeResults | SmartHunter/Core/MemoryUpdater.cs:274-288 | the full list becomes its matching scans followed by the matching fast scans, both in original order; every scan left has a match; the effect throws exactly when that list is empty, which is exactly when no full and no fast scan matched |
| Core.MemoryUpdater.Choose | SmartHunter/Core/MemoryUpdater.cs:59-342 | the transition picked is the first enabled one of the current state's table on this tick's observations, and it has the shape its effect requires |
| Core.MemoryUpdater.Perform | SmartHunter/Core/MemoryUpdater.cs:59-342 | per effect: logging and file maintenance change nothing; a reset unbinds the process, empties both lists, cancels every old full scan and asks for shutdown exactly after a process exit with shutdown-on-exit configured; a bind binds the given process; the scan starters append exactly their requests to their own list; the merge keeps only the matching full scans followed by the matching fast scans; old full scans keep their completion and results, and only a reset changes their cancellation flag; every scan in either list afterwards was in one before or is a new one; only the merge throws, exactly when nothing matched |
| Core.MemoryUpdater.RunEffect | SmartHunter/Core/MemoryUpdater.cs:59-342 | the per-effect outcome of Perform for a transition of the right shape from the current state, and the invariant between state, process and lists holds for the target, or for the current state when the merge threw; every scan afterwards was there before or is new |
| Core.MemoryUpdater.Apply | SmartHunter/Core/MemoryUpdater.cs:59-342 | runs a fired transition: the invariant is kept; the state becomes the target unless the effect threw, and then it is unchanged; the per-effect outcome of Perform carries over, including shutdown, the cancellation of the old full scans on a reset, the match of every scan left by the merge, and that every scan afterwards was there before or is new |
| Core.MemoryUpdater.Step | SmartHunter/Core/MemoryUpdater.cs:59-342 | one machine update keeps the invariant and moves to Next(state, observations) unless it threw, and then the state is unchanged. It throws exactly when Working is chosen and no scan matched. The outcome of the chosen effect (none when nothing is enabled) is as in Perform, including that every scan afterwards was there before or is new, and a bind binds FirstRunning |
| Core.MemoryUpdater.Update | SmartHunter/Core/MemoryUpdater.cs:369-380 | the tick handler keeps the invariant and the interval; the timer stays enabled exactly unless Working was chosen with nothing matched; while enabled the state is Next(state, observations), once disabled it is unchanged; the process, the lists, the old full scans and shutdown change as in Step, and every scan afterwards was there before or is new |
| Transitions.Table | SmartHunter/Core/MemoryUpdater.cs:59-342 | definition: the transitions of each state in declared order, each with its target, its guard evaluated on the tick's observations and its effect; PatternScanFailed has none |
| Transitions.AllDone | SmartHunter/Core/MemoryUpdater.cs:237-238 | definition: the number of completed scans equals the number of scans, the guard of FastPatternScanning and the first test of both PatternScanning guards |
| Transitions.WorkingGuard | SmartHunter/Core/MemoryUpdater.cs:263-273 | definition: every full scan completed, and some completed full scan matched, or there is no full scan, or some completed fast scan matched; its meaning is proved by CompletionGuards |
| Transitions.FailedGuard | SmartHunter/Core/MemoryUpdater.cs:291-301 | definition: every full scan completed, none matched, and no completed fast scan matched; its meaning is proved by CompletionGuards |
| ScanPlan.ScanRequests | SmartHunter/Core/MemoryUpdater.cs:215-252 | definition: one request per wanted pattern, in pattern order, over RangeFor; both the fast-probe loop and the full-scan loop build exactly this; its meaning is proved by ScanRequestsSound and ScanRequestsComplete |
| ScanPlan.WithMatches | SmartHunter/Core/MemoryUpdater.cs:276-285 | definition: the scans of a list that found at least one address, in list order; its meaning is proved by WithMatchesExact |
| Collaborators.HasMatches | SmartHunter/Core/MemoryUpdater.cs:268 | definition: a scan has matches when the flattened matches of its partitions are non-empty; the same test is used at lines 276 and 296, and HasMatchesIffSomePartition equates it with the per-partition test of line 285 |
| ScanPlan.Running | SmartHunter/Core/MemoryUpdater.cs:190-199 | definition: an enumerated entry the search accepts is present, can be inspected without throwing (the catch of line 196 skips the rest), has the target name and has not exited |
| ScanPlan.Wanted | SmartHunter/Core/MemoryUpdater.cs:217-219 | definition: a pattern gets a fast probe when its cached address is non-empty and parses, and a full scan (line 242) when it has matched nothing; its meaning is proved by FastProbesAtCachedAddresses and FullScansOverModule |
| ScanPlan.RangeFor | SmartHunter/Core/MemoryUpdater.cs:221 | definition: a fast probe covers the pattern's byte length from the parsed address; a full scan covers the main module of line 245 |
| ScanPlan.FirstMatches | SmartHunter/Core/MemoryUpdater.cs:286 | definition: for each surviving scan in list order, the first match of its first partition with matches, one per scan; FirstMatch states that this is the first flattened match |
| Core.MemoryUpdater.NewScan | SmartHunter/Core/MemoryUpdater.cs:221 | definition: a scan as an effect starts it, with ThreadsPerScan workers (also line 250), not finished, nothing found and not cancelled |
| Transitions.FirstEnabled | SmartHunter/Core/MemoryUpdater.cs:59-342 | the index returned is of an enabled transition with no enabled one before it, and there is none exactly when no transition is enabled |
| Transitions.ShapedMoveConsistent | SmartHunter/Core/MemoryUpdater.cs:206-342 | a move of the right shape takes a state consistent with the bound process and the two lists to a target consistent with what its effect leaves behind; a throwing merge leaves PatternScanning consistent |
| Transitions.ChosenShape | SmartHunter/Core/MemoryUpdater.cs:59-342 | every transition that fires has that shape. Binding belongs only to WaitingForProcess→ProcessFound and fast scans only to ProcessFound→FastPatternScanning. Full scans belong only to FastPatternScanning→PatternScanning and the merge only to PatternScanning→Working. Every reset lands in WaitingForProcess |
| Transitions.ChosenIgnoresTarget | SmartHunter/Core/MemoryUpdater.cs:177-204 | outside WaitingForProcess the chosen transition does not depend on the process search |
| Transitions.DeleteOldFilesExactlyOne | SmartHunter/Core/MemoryUpdater.cs:87-106 | the two guards are complements on the auto-update flag, so exactly one fires: CheckingForUpdates when set, the reset towards WaitingForProcess otherwise |
| Transitions.UpdateCheckOracles | SmartHunter/Core/MemoryUpdater.cs:108-126 | the two CheckForUpdates calls are independent: "not found" on the first takes the reset; "found" twice goes to DownloadingUpdates; "found then not found" stays in CheckingForUpdates |
| Transitions.WaitingForProcessMovesOnlyOnTarget | SmartHunter/Core/MemoryUpdater.cs:177-204 | with no target found nothing fires; with one found the move to ProcessFound fires and binds it |
| Transitions.PatternScanFailedAbsorbing | SmartHunter/Core/MemoryUpdater.cs:289-305 | PatternScanFailed has no transition, so every tick stays there |
| Transitions.CompletionGuards | SmartHunter/Core/MemoryUpdater.cs:263-300 | neither completion guard holds before every full scan completed; at least one holds afterwards; both hold exactly when there is no full scan and no completed fast scan matched |
| Transitions.PatternScanningStep | SmartHunter/Core/MemoryUpdater.cs:257-316 | before completion only the exit reset can fire; after completion the tick ends in Working or PatternScanFailed; Working is chosen whenever its guard holds; PatternScanFailed is reached exactly when some full scans exist, all completed, none matched and no completed fast scan matched |
| Transitions.OnlyOverlapThrows | SmartHunter/Core/MemoryUpdater.cs:261-300 | Working with an empty merge happens exactly in the overlap of the two guards when no fast scan matched at all |
| Transitions.WorkingLeavesOnExit | SmartHunter/Core/MemoryUpdater.cs:318-342 | Working leaves only when the process has exited, and then resets with processExited set |
| Transitions.FailedIsFinal | SmartHunter/Core/MemoryUpdater.cs:289-305 | once a run reaches PatternScanFailed, every later state of the run is PatternScanFailed |
| Transitions.FailedStays | SmartHunter/Core/MemoryUpdater.cs:289-305 | a run started in PatternScanFailed never leaves it |
| Transitions.WaitingWithoutTarget | SmartHunter/Core/MemoryUpdater.cs:177-204 | while no tick finds a target, a run from WaitingForProcess stays in WaitingForProcess |
| ScanPlan.ScanRequestsSound | SmartHunter/Core/MemoryUpdater.cs:215-225 | every scan started is for a wanted pattern over the range RangeFor gives; pattern indexes strictly increase; there are never more scans than patterns |
| ScanPlan.ScanRequestsComplete | SmartHunter/Core/MemoryUpdater.cs:248-252 | every wanted pattern gets a scan |
| ScanPlan.FastProbesAtCachedAddresses | SmartHunter/Core/MemoryUpdater.cs:215-225 | a pattern gets a fast probe exactly when its cached address is non-empty and parses; each probe starts at the parsed address and spans the pattern's byte length |
| ScanPlan.FullScansOverModule | SmartHunter/Core/MemoryUpdater.cs:242-252 | a pattern gets a full scan exactly when it has matched nothing, and every full scan covers the same module range |
| ScanPlan.FirstRunning | SmartHunter/Core/MemoryUpdater.cs:185-201 | a process is found exactly when some enumerated one can be inspected, has the name and has not exited; the one found is the first such, in enumeration order |
| ScanPlan.WithMatchesExact | SmartHunter/Core/MemoryUpdater.cs:276-282 | the survivors are exactly the scans with matches, each at an increasing position of the original list |
| ScanPlan.AllSurvivorsMatched | SmartHunter/Core/MemoryUpdater.cs:276-285 | every surviving scan has a match |
| ScanPlan.NoSurvivors | SmartHunter/Core/MemoryUpdater.cs:276-282 | nothing survives exactly when no scan matched |
| ScanPlan.MergedScans | SmartHunter/Core/MemoryUpdater.cs:276-285 | the merged list holds only scans of the two lists, each with a match, and it is empty exactly when neither snapshot count of matches is positive |
| ScanPlan.NoSurvivorsCounted | SmartHunter/Core/MemoryUpdater.cs:276-282 | the same, stated over the snapshot counts the guards use |
| ScanPlan.MatchRange | SmartHunter/Core/MemoryUpdater.cs:286-287 | there is no range exactly when the list is empty (the source's First() throws); otherwise both ends are elements of the list and bound every element |
| Collaborators.Flatten | SmartHunter/Core/MemoryUpdater.cs:268 | the flattened results are empty exactly when every partition's list is empty |
| Collaborators.HasMatchesIffSomePartition | SmartHunter/Core/MemoryUpdater.cs:285 | "some partition has matches" and "the flattened matches are non-empty" agree |
| Collaborators.FirstMatch | SmartHunter/Core/MemoryUpdater.cs:286 | the first match of the first partition that has one is the first element of the flattened results |
| Collaborators.Count | SmartHunter/Core/MemoryUpdater.cs:265-269 | the count is at most the length; it is zero exactly when no element satisfies the filter and full exactly when all do |
| Collaborators.MemoryScan.TryCancel | SmartHunter/Core/MemoryUpdater.cs:353 | cancellation raises the flag and leaves completion and results untouched |

## Left out

- Self-update file work is left out because it is a filesystem and process side effect. This covers deleting `OLD_*` files, the zip rename and extract, starting the new executable and `Environment.Exit`. Only the state skeleton remains, with the effect `FileMaintenance`.
- The guards of the updater states are independent per-tick booleans, because `Updater` is not part of this model. This covers the configuration flag, both `CheckForUpdates()` results and both `DownloadUpdates()` results.
- `DispatcherTimer` and the WPF plumbing are reduced to the class `Timer` with the fields `isEnabled` and `intervalMs`, and `Application.Current.Shutdown()` to the flag `shutdownRequested`. These are UI framework calls.
- `ProcessName`, `ThreadsPerScan`, `UpdatesPerSecond` and `ShutdownWhenProcessExits` are abstract or virtual properties in the source (lines 38-43). A subclass could return a different value at each read (lines 190, 221, 250, 362 and 388); the model fixes each one when the object is constructed.
- `OverlayViewModel.Instance.IsGameActive`, cleared by `Initialize`, is left out entirely: no field stands for it, because it only feeds the overlay.
- `Log` output is left out, because it does not affect the orchestrator's state. So is the write that `ConfigHelper.Memory.Save` makes to the persisted pattern configuration.
- Exceptions from `Updater`, `ConfigHelper.Memory.Save`, `Process.HasExited` and the self-update file work are not modelled. In the source each reaches the tick handler and disables the timer; a throw from `Save` would also leave only the matching full scans in the list, since it runs between `RemoveAll` and `AddRange`. In the model only the empty merge throws.
- Process enumeration comes in through the per-tick `Tick` record. An entry that throws on inspection is a record with `inspectable` false.
- `Process.MainModule` is read on the FastPatternScanning tick in the source; the model takes the module base and size recorded in the `ProcessInfo` bound on the WaitingForProcess tick, so the module is taken as fixed from binding on. `MainModule` itself throwing is not modelled.
- `ThreadedMemoryScan`, `BytePattern`, `AddressRange` and `MhwHelper.TryParseHex` are not part of this model. Pattern matching, range partitioning, worker threads and cancellation internals are not modelled. The parsed address is a per-pattern input.
- Scan workers run concurrently with the orchestrator. Their completion and results are whatever the `MemoryScan` objects hold when a tick starts.
- `UpdateMemory`, the recurring action of `Working`, is abstract in this class, so it is left out. Its caught exceptions are left out with it.
- The `ulong`/`int` widths of addresses and counts are not modelled; the model uses unbounded naturals.
- The float division `1000f / clamped` is integer division here. For the integers 1 to 60 its truncated value is the same.
- `Pattern.matchedCount` is a per-tick input with no link to the results of any scan. The source relies on `ThreadedMemoryScan` writing its hits back into `BytePattern.MatchedAddresses`, which the full-scan effect reads; that write-back is not modelled. So the model does not show that a fast-probe hit keeps its pattern out of the full scans.
