/** The scan orchestrator's states and its ordered transition table, as pure
    functions of what one tick observes. The table follows
    MemoryUpdater.CreateStateMachine; the semantics of StateMachine<State>
    (whose source is not part of this model) is taken to be: in declared
    order, the first transition whose guard holds fires, its effect runs
    once and the machine moves to its target; a state with no transition
    (or none enabled) stays where it is. */
module Transitions {
  import opened Collaborators

  datatype State =
    | None
    | DeleteOldFiles
    | CheckingForUpdates
    | DownloadingUpdates
    | Restarting
    | WaitingForProcess
    | ProcessFound
    | FastPatternScanning
    | PatternScanning
    | PatternScanFailed
    | Working

  /** The states in which no process is bound and no scan exists. */
  predicate BeforeProcess(s: State) {
    s.None? || s.DeleteOldFiles? || s.CheckingForUpdates? || s.DownloadingUpdates? ||
    s.Restarting? || s.WaitingForProcess?
  }

  /** What a transition does to the orchestrator when it fires. */
  datatype Effect =
    | LogOnly                       // only writes to the log
    | FileMaintenance               // self-update file work: no effect on the orchestrator
    | Reset(processExited: bool)    // Initialize(processExited)
    | Bind(process: ProcessInfo)    // the guard of WaitingForProcess binds Process
    | StartFastScans                // one scan at each parsable cached address
    | StartFullScans                // one module-wide scan per pattern with no match yet
    | MergeResults                  // drop failed full scans, adopt matching fast scans

  datatype Transition = Transition(target: State, enabled: bool, effect: Effect)

  /** Everything the guards read at one tick. `updateFound` and `updateFoundAgain`
      are the results of the two separate CheckForUpdates() calls, `downloaded`
      and `downloadedAgain` those of the two DownloadUpdates() calls; `target` is
      what the process search of WaitingForProcess found; `fast` and `full` are
      the snapshots of m_FastMemoryScans and m_MemoryScans; `processExited` is
      Process.HasExited of the bound process. */
  datatype Observation = Observation(
    autoUpdate: bool,
    updateFound: bool,
    updateFoundAgain: bool,
    downloaded: bool,
    downloadedAgain: bool,
    target: Option<ProcessInfo>,
    fast: seq<ScanView>,
    full: seq<ScanView>,
    processExited: bool)

  predicate Done(v: ScanView) { v.completed }
  predicate DoneWithMatches(v: ScanView) { v.completed && HasMatches(v) }
  predicate NoMatches(v: ScanView) { !HasMatches(v) }

  /** `completedScans.Count() == scans.Count()`. */
  predicate AllDone(vs: seq<ScanView>) {
    Count(vs, Done) == |vs|
  }

  /** Guard of PatternScanning -> Working. */
  predicate WorkingGuard(full: seq<ScanView>, fast: seq<ScanView>) {
    AllDone(full) &&
    (Count(full, DoneWithMatches) > 0 || |full| == 0 || Count(fast, DoneWithMatches) > 0)
  }

  /** Guard of PatternScanning -> PatternScanFailed. */
  predicate FailedGuard(full: seq<ScanView>, fast: seq<ScanView>) {
    AllDone(full) &&
    Count(full, NoMatches) == |full| && Count(fast, DoneWithMatches) == 0
  }

  /** The transitions of each state, in declared order, with their guards
      evaluated on `v`. PatternScanFailed has no entry. */
  function Table(s: State, v: Observation): seq<Transition> {
    match s
    case None =>
      [Transition(DeleteOldFiles, true, FileMaintenance)]
    case DeleteOldFiles =>
      [Transition(CheckingForUpdates, v.autoUpdate, LogOnly),
       Transition(WaitingForProcess, !v.autoUpdate, Reset(false))]
    case CheckingForUpdates =>
      [Transition(WaitingForProcess, !v.updateFound, Reset(false)),
       Transition(DownloadingUpdates, v.updateFoundAgain, LogOnly)]
    case DownloadingUpdates =>
      [Transition(Restarting, v.downloaded, LogOnly),
       Transition(WaitingForProcess, !v.downloadedAgain, Reset(false))]
    case Restarting =>
      [Transition(Restarting, true, FileMaintenance)]
    case WaitingForProcess =>
      (match v.target
       case Some(p) => [Transition(ProcessFound, true, Bind(p))]
       case None => [Transition(ProcessFound, false, LogOnly)])
    case ProcessFound =>
      [Transition(FastPatternScanning, true, StartFastScans)]
    case FastPatternScanning =>
      [Transition(PatternScanning, AllDone(v.fast), StartFullScans)]
    case PatternScanning =>
      [Transition(Working, WorkingGuard(v.full, v.fast), MergeResults),
       Transition(PatternScanFailed, FailedGuard(v.full, v.fast), LogOnly),
       Transition(WaitingForProcess, v.processExited, Reset(true))]
    case PatternScanFailed =>
      []
    case Working =>
      [Transition(WaitingForProcess, v.processExited, Reset(true))]
  }

  /** The index of the first enabled transition, if any. */
  function FirstEnabled(ts: seq<Transition>): (r: Option<nat>)
    ensures r.Some? ==> r.value < |ts| && ts[r.value].enabled
    ensures r.Some? ==> forall j :: 0 <= j < r.value ==> !ts[j].enabled
    ensures r.None? <==> forall j :: 0 <= j < |ts| ==> !ts[j].enabled
  {
    if ts == [] then Option.None
    else if ts[0].enabled then Some(0)
    else match FirstEnabled(ts[1..])
      case None => Option.None
      case Some(k) => Some(k + 1)
  }

  /** The transition that fires in state `s` on a tick that observes `v`. */
  function Chosen(s: State, v: Observation): Option<Transition> {
    var ts := Table(s, v);
    match FirstEnabled(ts)
    case None => Option.None
    case Some(k) => Some(ts[k])
  }

  /** The effect a tick runs: that of the transition chosen, or, when none
      is, nothing, which is what an effect that only logs does. */
  function EffectOf(c: Option<Transition>): Effect {
    if c.Some? then c.value.effect else LogOnly
  }

  /** The state after a tick whose effect did not throw. */
  function Next(s: State, v: Observation): State {
    match Chosen(s, v)
    case None => s
    case Some(t) => t.target
  }

  // ---------------------------------------------------------------------
  // Properties of the table

  /** Which effects go with which moves: the scan-starting, binding and
      merging effects belong to one move each, every reset lands in
      WaitingForProcess, and the other effects move only between the states
      before a process is found, or from PatternScanning to PatternScanFailed. */
  predicate Shaped(s: State, t: Transition, found: Option<ProcessInfo>) {
    && t.enabled
    && (t.effect.Reset? ==> t.target == WaitingForProcess)
    && (t.effect.Bind? ==> s == WaitingForProcess && t.target == ProcessFound && found == Some(t.effect.process))
    && (t.effect.StartFastScans? ==> s == ProcessFound && t.target == FastPatternScanning)
    && (t.effect.StartFullScans? ==> s == FastPatternScanning && t.target == PatternScanning)
    && (t.effect.MergeResults? ==> s == PatternScanning && t.target == Working)
    && (t.effect.LogOnly? ==>
          (s == PatternScanning && t.target == PatternScanFailed) ||
          (BeforeProcess(s) && BeforeProcess(t.target) && t.target != WaitingForProcess))
    && (t.effect.FileMaintenance? ==>
          BeforeProcess(s) && BeforeProcess(t.target) && t.target != WaitingForProcess)
  }

  /** Which resources exist in each state: nothing is bound and no scan
      exists before a process is found; a process is bound from ProcessFound
      on; no scan exists yet in ProcessFound and no full scan in
      FastPatternScanning. */
  predicate Consistent(s: State, bound: bool, noFull: bool, noFast: bool) {
    && (BeforeProcess(s) ==> !bound && noFull && noFast)
    && (!BeforeProcess(s) ==> bound)
    && (s.ProcessFound? ==> noFull && noFast)
    && (s.FastPatternScanning? ==> noFull)
  }

  /** What each effect does to the orchestrator's resources, seen as whether
      a process is bound and whether each scan list is empty (primed: after
      the effect): a reset releases everything, a bind binds, the scan
      starters touch only their own list, the merge only the full list, and
      the other effects nothing. */
  predicate ResourcesAfter(e: Effect, bound: bool, noFull: bool, noFast: bool,
                           bound': bool, noFull': bool, noFast': bool) {
    && (e.Reset? ==> !bound' && noFull' && noFast')
    && (e.Bind? ==> bound' && noFull' == noFull && noFast' == noFast)
    && (e.LogOnly? || e.FileMaintenance? ==> bound' == bound && noFull' == noFull && noFast' == noFast)
    && (e.StartFastScans? ==> bound' == bound && noFull' == noFull)
    && (e.StartFullScans? || e.MergeResults? ==> bound' == bound && noFast' == noFast)
  }

  /** A move of that shape keeps the resources consistent with the state:
      the target is consistent with what the effect leaves behind, and when
      the merge throws the machine stays in PatternScanning, which is
      consistent too. */
  lemma ShapedMoveConsistent(s: State, t: Transition, found: Option<ProcessInfo>,
                             bound: bool, noFull: bool, noFast: bool,
                             bound': bool, noFull': bool, noFast': bool)
    requires Consistent(s, bound, noFull, noFast) && Shaped(s, t, found)
    requires ResourcesAfter(t.effect, bound, noFull, noFast, bound', noFull', noFast')
    ensures Consistent(t.target, bound', noFull', noFast')
    ensures t.effect.MergeResults? ==> Consistent(s, bound', noFull', noFast')
  {
  }

  /** Every transition that fires has that shape. */
  lemma ChosenShape(s: State, v: Observation)
    ensures Chosen(s, v).Some? ==> Shaped(s, Chosen(s, v).value, v.target)
  {
    var ts := Table(s, v);
    match FirstEnabled(ts)
    case None =>
    case Some(k) =>
      assert ts[k] in ts;
  }

  /** Only WaitingForProcess looks at the process search: elsewhere the
      chosen transition does not depend on it. */
  lemma ChosenIgnoresTarget(s: State, v: Observation, w: Observation)
    requires s != WaitingForProcess
    requires w == v.(target := w.target)
    ensures Chosen(s, v) == Chosen(s, w)
  {
    assert Table(s, v) == Table(s, w);
  }

  /** From DeleteOldFiles the two guards are complements on the auto-update
      flag: exactly one transition is enabled, and only the one towards
      WaitingForProcess resets. */
  lemma DeleteOldFilesExactlyOne(v: Observation)
    ensures Table(DeleteOldFiles, v)[0].enabled != Table(DeleteOldFiles, v)[1].enabled
    ensures Chosen(DeleteOldFiles, v) ==
      if v.autoUpdate then Some(Transition(CheckingForUpdates, true, LogOnly))
      else Some(Transition(WaitingForProcess, true, Reset(false)))
  {
  }

  /** CheckForUpdates() is called once per guard, so the two answers may
      differ: "found, then not found" enables neither transition and the tick
      is spent in CheckingForUpdates; "not found, then found" takes the first. */
  lemma UpdateCheckOracles(v: Observation)
    ensures v.updateFound && !v.updateFoundAgain ==> Next(CheckingForUpdates, v) == CheckingForUpdates
    ensures !v.updateFound ==> Chosen(CheckingForUpdates, v) == Some(Transition(WaitingForProcess, true, Reset(false)))
    ensures v.updateFound && v.updateFoundAgain ==> Next(CheckingForUpdates, v) == DownloadingUpdates
  {
    var ts := Table(CheckingForUpdates, v);
    if v.updateFound && v.updateFoundAgain {
      assert FirstEnabled(ts[1..]) == Some(0);
    }
  }

  /** WaitingForProcess moves only when the search found a process, and then binds it. */
  lemma WaitingForProcessMovesOnlyOnTarget(v: Observation)
    ensures v.target.None? ==> Chosen(WaitingForProcess, v).None?
    ensures v.target.Some? ==> Chosen(WaitingForProcess, v) == Some(Transition(ProcessFound, true, Bind(v.target.value)))
  {
  }

  /** PatternScanFailed has no transition: whatever a tick observes, it stays. */
  lemma PatternScanFailedAbsorbing(v: Observation)
    ensures Chosen(PatternScanFailed, v).None?
    ensures Next(PatternScanFailed, v) == PatternScanFailed
  {
  }

  /** The two completion guards of PatternScanning: neither holds before every
      full scan has completed, at least one holds afterwards, and both hold
      exactly when there is no full scan and no completed fast scan matched. */
  lemma CompletionGuards(full: seq<ScanView>, fast: seq<ScanView>)
    ensures (WorkingGuard(full, fast) || FailedGuard(full, fast)) ==>
              forall k :: 0 <= k < |full| ==> full[k].completed
    ensures (forall k :: 0 <= k < |full| ==> full[k].completed) ==>
              WorkingGuard(full, fast) || FailedGuard(full, fast)
    ensures WorkingGuard(full, fast) && FailedGuard(full, fast) <==>
              |full| == 0 && forall k :: 0 <= k < |fast| ==> !(fast[k].completed && HasMatches(fast[k]))
  {
    if forall k :: 0 <= k < |full| ==> full[k].completed {
      assert AllDone(full);
      if !WorkingGuard(full, fast) {
        assert forall k :: 0 <= k < |full| ==> !DoneWithMatches(full[k]);
        assert forall k :: 0 <= k < |full| ==> NoMatches(full[k]);
      }
    }
  }

  /** What PatternScanning does at one tick. Until every full scan has
      completed only the process-exit transition can fire; once they have,
      the tick always ends in Working or PatternScanFailed, so the exit
      transition, declared third, is never reached. Working is chosen whenever
      its guard holds, in particular in the overlap of the two guards. */
  lemma PatternScanningStep(v: Observation)
    ensures !AllDone(v.full) ==>
      Chosen(PatternScanning, v) ==
        (if v.processExited then Some(Transition(WaitingForProcess, true, Reset(true))) else Option.None)
    ensures AllDone(v.full) ==>
      Next(PatternScanning, v) == Working || Next(PatternScanning, v) == PatternScanFailed
    ensures WorkingGuard(v.full, v.fast) ==>
      Chosen(PatternScanning, v) == Some(Transition(Working, true, MergeResults))
    ensures Next(PatternScanning, v) == PatternScanFailed <==>
      AllDone(v.full) && |v.full| > 0 &&
      (forall k :: 0 <= k < |v.full| ==> !HasMatches(v.full[k])) &&
      (forall k :: 0 <= k < |v.fast| ==> !(v.fast[k].completed && HasMatches(v.fast[k])))
  {
    var ts := Table(PatternScanning, v);
    CompletionGuards(v.full, v.fast);
    if WorkingGuard(v.full, v.fast) {
      assert FirstEnabled(ts) == Some(0);
    } else if FailedGuard(v.full, v.fast) {
      assert FirstEnabled(ts[1..]) == Some(0);
      assert forall k :: 0 <= k < |v.full| ==> NoMatches(v.full[k]);
    } else if v.processExited {
      assert FirstEnabled(ts[2..]) == Some(0);
      assert FirstEnabled(ts[1..]) == Some(1);
    } else {
      assert FirstEnabled(ts).None?;
    }
    if AllDone(v.full) && |v.full| > 0 &&
       (forall k :: 0 <= k < |v.full| ==> !HasMatches(v.full[k])) &&
       (forall k :: 0 <= k < |v.fast| ==> !(v.fast[k].completed && HasMatches(v.fast[k]))) {
      assert forall k :: 0 <= k < |v.full| ==> NoMatches(v.full[k]);
      assert !DoneWithMatches(v.full[0]);
      assert forall k :: 0 <= k < |v.fast| ==> !DoneWithMatches(v.fast[k]);
    }
  }

  /** The Working effect finds nothing to monitor: no full scan and no fast
      scan has matched, so the list it builds is empty and the `First()` that
      follows throws. */
  predicate MergeFindsNothing(v: Observation) {
    Count(v.full, HasMatches) == 0 && Count(v.fast, HasMatches) == 0
  }

  /** The only way into that exception is the overlap of the two completion
      guards: no full scan at all, and no fast scan that matched. */
  lemma OnlyOverlapThrows(v: Observation)
    ensures (Chosen(PatternScanning, v) == Some(Transition(Working, true, MergeResults)) && MergeFindsNothing(v)) <==>
      (WorkingGuard(v.full, v.fast) && FailedGuard(v.full, v.fast) &&
       forall k :: 0 <= k < |v.fast| ==> !HasMatches(v.fast[k]))
  {
    var ts := Table(PatternScanning, v);
    PatternScanningStep(v);
    CompletionGuards(v.full, v.fast);
    if !WorkingGuard(v.full, v.fast) {
      assert !ts[0].enabled;
      assert Chosen(PatternScanning, v) != Some(Transition(Working, true, MergeResults));
    } else if MergeFindsNothing(v) {
      assert forall k :: 0 <= k < |v.fast| ==> !DoneWithMatches(v.fast[k]);
    }
  }

  /** Working leaves only when the bound process has exited, and then resets. */
  lemma WorkingLeavesOnExit(v: Observation)
    ensures Chosen(Working, v) ==
      (if v.processExited then Some(Transition(WaitingForProcess, true, Reset(true))) else Option.None)
  {
  }

  /** The states a run passes through when the tick observations are `vs`,
      starting in `s` and assuming no effect throws. */
  function Run(s: State, vs: seq<Observation>): (trace: seq<State>)
    ensures |trace| == |vs|
    decreases vs
  {
    if vs == [] then [] else [Next(s, vs[0])] + Run(Next(s, vs[0]), vs[1..])
  }

  /** Once PatternScanFailed is entered, every later tick stays there: the
      state is entered at most once per run. */
  lemma {:induction false} FailedIsFinal(s: State, vs: seq<Observation>, i: nat)
    requires i < |vs| && Run(s, vs)[i] == PatternScanFailed
    ensures forall j :: i <= j < |vs| ==> Run(s, vs)[j] == PatternScanFailed
    decreases i
  {
    var s' := Next(s, vs[0]);
    if i == 0 {
      assert s' == PatternScanFailed;
      if |vs| > 1 {
        FailedStays(vs[1..]);
      }
    } else {
      FailedIsFinal(s', vs[1..], i - 1);
    }
  }

  /** A run that starts in PatternScanFailed never leaves it. */
  lemma {:induction false} FailedStays(vs: seq<Observation>)
    ensures forall j :: 0 <= j < |vs| ==> Run(PatternScanFailed, vs)[j] == PatternScanFailed
  {
    if vs != [] {
      PatternScanFailedAbsorbing(vs[0]);
      FailedStays(vs[1..]);
    }
  }

  /** While no tick's process search finds a target, WaitingForProcess never advances. */
  lemma {:induction false} WaitingWithoutTarget(vs: seq<Observation>)
    requires forall j :: 0 <= j < |vs| ==> vs[j].target.None?
    ensures forall j :: 0 <= j < |vs| ==> Run(WaitingForProcess, vs)[j] == WaitingForProcess
  {
    if vs != [] {
      WaitingForProcessMovesOnlyOnTarget(vs[0]);
      WaitingWithoutTarget(vs[1..]);
    }
  }
}
