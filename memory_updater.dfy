/** The scan orchestrator itself: the MemoryUpdater object, stepped once per
    timer tick. Its fields are the bound process, the two scan lists and the
    timer; the collaborators it consults (configuration, updater, process
    directory, patterns) are read through the `Tick` each step receives. */
module Core {
  import opened Collaborators
  import opened Transitions
  import opened ScanPlan

  /** What the outside world answers during one tick: the auto-update flag of
      the configuration, the answers of the two CheckForUpdates() calls and of
      the two DownloadUpdates() calls, the process enumeration (an absent entry
      stands for a null), Process.HasExited of the bound process, and the
      patterns with their current match counts. */
  datatype Tick = Tick(
    autoUpdate: bool,
    updateFound: bool,
    updateFoundAgain: bool,
    downloaded: bool,
    downloadedAgain: bool,
    processes: seq<Option<ProcessInfo>>,
    processExited: bool,
    patterns: seq<Pattern>)

  const MinUpdatesPerSecond := 1
  const MaxUpdatesPerSecond := 60

  /** The configured tick rate forced into [1, 60]. */
  function ClampedRate(updatesPerSecond: int): (r: int)
    ensures MinUpdatesPerSecond <= r <= MaxUpdatesPerSecond
    ensures MinUpdatesPerSecond <= updatesPerSecond <= MaxUpdatesPerSecond ==> r == updatesPerSecond
    ensures updatesPerSecond < MinUpdatesPerSecond ==> r == MinUpdatesPerSecond
    ensures updatesPerSecond > MaxUpdatesPerSecond ==> r == MaxUpdatesPerSecond
  {
    var atLeast := if updatesPerSecond > MinUpdatesPerSecond then updatesPerSecond else MinUpdatesPerSecond;
    if atLeast < MaxUpdatesPerSecond then atLeast else MaxUpdatesPerSecond
  }

  /** The timer interval: the whole number of milliseconds of one tick at the
      clamped rate (rounded down), which always lies in [16, 1000]. */
  function TargetMilliseconds(updatesPerSecond: int): (ms: int)
    ensures 16 <= ms <= 1000
    ensures ms * ClampedRate(updatesPerSecond) <= 1000 < (ms + 1) * ClampedRate(updatesPerSecond)
  {
    var rate := ClampedRate(updatesPerSecond);
    var ms := 1000 / rate;
    assert ms * rate <= 1000 < (ms + 1) * rate;
    ms
  }

  /** The resources the effects act on: the bound process, the full and
      the fast scan lists, and whether a shutdown was requested. */
  datatype Resources = Resources(
    process: Option<ProcessInfo>,
    full: seq<MemoryScan>,
    fast: seq<MemoryScan>,
    shutdown: bool)

  /** What running effect `e` does to the resources `r`, giving `r'`: a reset
      releases everything and, after a process exit, asks for shutdown when
      `shutdownOnExit` is configured; a bind binds its process; the scan
      starters append exactly the requests for `patterns` to their own list;
      the merge replaces the full list by `survivors` (the matching full scans,
      then the matching fast scans, as they were before the effect); the other
      effects change nothing. */
  predicate Outcome(e: Effect, patterns: seq<Pattern>, shutdownOnExit: bool, r: Resources, r': Resources,
                    survivors: seq<MemoryScan>) {
    && r'.shutdown == (r.shutdown || (e.Reset? && e.processExited && shutdownOnExit))
    && (e.LogOnly? || e.FileMaintenance? ==>
          r'.process == r.process && r'.full == r.full && r'.fast == r.fast)
    && (e.Reset? ==>
          r'.process.None? && r'.full == [] && r'.fast == [])
    && (e.Bind? ==>
          r'.process == Some(e.process) && r'.full == r.full && r'.fast == r.fast)
    && (e.StartFastScans? ==>
          r'.process == r.process && r'.full == r.full &&
          Requests(r'.fast) == Requests(r.fast) + ScanRequests(patterns, Probe))
    && (e.StartFullScans? ==>
          r'.process == r.process && r'.process.Some? && r'.fast == r.fast &&
          Requests(r'.full) == Requests(r.full) + ScanRequests(patterns, Module(ModuleRange(r'.process.value))))
    && (e.MergeResults? ==>
          r'.process == r.process && r'.fast == r.fast && r'.full == survivors)
  }

  /** The dispatcher timer that raises the ticks: whether it runs and the
      interval between two ticks in milliseconds. A new timer is stopped and
      its interval is zero. */
  class Timer {
    var isEnabled: bool
    var intervalMs: int

    constructor ()
      ensures !isEnabled && intervalMs == 0
    {
      isEnabled := false;
      intervalMs := 0;
    }
  }

  class MemoryUpdater {
    const processName: string
    const threadsPerScan: nat
    const updatesPerSecond: int
    const shutdownWhenProcessExits: bool

    var state: State
    var process: Option<ProcessInfo>
    var memoryScans: seq<MemoryScan>
    var fastMemoryScans: seq<MemoryScan>
    var shutdownRequested: bool
    const timer: Timer

    /** Before a process is found nothing is bound and no scan exists; from
        ProcessFound on a process is bound; the full scans exist only from
        PatternScanning on and the fast scans only from FastPatternScanning on. */
    ghost predicate Valid()
      reads this`state, this`process, this`memoryScans, this`fastMemoryScans
    {
      Consistent(state, process.Some?, memoryScans == [], fastMemoryScans == [])
    }

    /** What the guards of the current state read at this tick. */
    function Observe(t: Tick): Observation
      reads this`memoryScans, this`fastMemoryScans, memoryScans, fastMemoryScans
    {
      Observation(t.autoUpdate, t.updateFound, t.updateFoundAgain, t.downloaded, t.downloadedAgain,
           FirstRunning(t.processes, processName),
           Views(fastMemoryScans), Views(memoryScans), t.processExited)
    }

    /** The machine starts in None with nothing bound and no scan; the timer
        runs at the clamped rate. */
    constructor (processName: string, threadsPerScan: nat, updatesPerSecond: int, shutdownWhenProcessExits: bool)
      ensures this.processName == processName && this.threadsPerScan == threadsPerScan
      ensures this.updatesPerSecond == updatesPerSecond && this.shutdownWhenProcessExits == shutdownWhenProcessExits
      ensures Valid() && state == State.None
      ensures process.None? && memoryScans == [] && fastMemoryScans == []
      ensures !shutdownRequested && fresh(timer)
      ensures timer.isEnabled && timer.intervalMs == TargetMilliseconds(updatesPerSecond)
    {
      this.processName := processName;
      this.threadsPerScan := threadsPerScan;
      this.updatesPerSecond := updatesPerSecond;
      this.shutdownWhenProcessExits := shutdownWhenProcessExits;
      state := State.None;
      process := Option.None;
      memoryScans := [];
      fastMemoryScans := [];
      shutdownRequested := false;
      timer := new Timer();
      new;
      TryUpdateTimerInterval();
      timer.isEnabled := true;
    }

    /** Sets the timer interval from the clamped tick rate. */
    method TryUpdateTimerInterval()
      modifies timer`intervalMs
      ensures timer.intervalMs == TargetMilliseconds(updatesPerSecond)
    {
      var targetMilliseconds := TargetMilliseconds(updatesPerSecond);
      if timer.intervalMs != targetMilliseconds {
        timer.intervalMs := targetMilliseconds;
      }
    }

    /** Unbinds the process, cancels every full scan (the fast scans are not
        cancelled) and starts both lists afresh; after a process exit it asks
        the application to shut down when so configured. */
    method Initialize(processExited: bool)
      modifies this`process, this`memoryScans, this`fastMemoryScans, this`shutdownRequested, memoryScans
      ensures process.None? && memoryScans == [] && fastMemoryScans == []
      ensures forall s :: s in old(memoryScans) ==>
        s.cancelled && s.completed == old(s.completed) && s.results == old(s.results)
      ensures forall s :: s in old(fastMemoryScans) && s !in old(memoryScans) ==> s.cancelled == old(s.cancelled)
      ensures shutdownRequested == (old(shutdownRequested) || (processExited && shutdownWhenProcessExits))
    {
      process := Option.None;
      var i := 0;
      var scans := memoryScans;
      while i < |scans|
        modifies scans
        invariant 0 <= i <= |scans|
        invariant forall k :: 0 <= k < i ==> scans[k].cancelled
        invariant forall s :: s in scans ==> s.completed == old(s.completed) && s.results == old(s.results)
        invariant forall s :: s in old(fastMemoryScans) && s !in scans ==> s.cancelled == old(s.cancelled)
      {
        scans[i].TryCancel();
        i := i + 1;
      }
      fastMemoryScans := [];
      memoryScans := [];
      if processExited && shutdownWhenProcessExits {
        shutdownRequested := true;
      }
    }

    /** The guard of WaitingForProcess: the first enumerated process that can
        be inspected, has the target's name and has not exited. */
    method FindTargetProcess(processes: seq<Option<ProcessInfo>>) returns (found: Option<ProcessInfo>)
      ensures found == FirstRunning(processes, processName)
    {
      var i := 0;
      while i < |processes|
        invariant 0 <= i <= |processes|
        invariant forall j :: 0 <= j < i ==> !Running(processes[j], processName)
      {
        var p := processes[i];
        if p.Some? && p.value.inspectable {
          if p.value.name == processName && !p.value.hasExited {
            return p;
          }
        }
        i := i + 1;
      }
      return Option.None;
    }

    /** A scan as the effects start it: the configured thread count, no
        worker finished, nothing found and not cancelled. */
    predicate NewScan(s: MemoryScan)
      reads s
    {
      s.threads == threadsPerScan && !s.completed && s.results == [] && !s.cancelled
    }

    /** The effect of ProcessFound: a fast scan for every pattern whose cached
        address is non-empty and parses, appended in pattern order. */
    method StartFastScans(patterns: seq<Pattern>)
      modifies this`fastMemoryScans
      ensures Requests(fastMemoryScans) == Requests(old(fastMemoryScans)) + ScanRequests(patterns, Probe)
      ensures fastMemoryScans[..|old(fastMemoryScans)|] == old(fastMemoryScans)
      ensures forall s :: s in fastMemoryScans ==> s in old(fastMemoryScans) || (fresh(s) && NewScan(s))
    {
      var added := [];
      var i := 0;
      while i < |patterns|
        modifies {}
        invariant 0 <= i <= |patterns|
        invariant Requests(added) == ScanRequests(patterns[..i], Probe)
        invariant forall s :: s in added ==> fresh(s) && NewScan(s)
      {
        ScanRequestsStep(patterns, i, Probe);
        var pattern := patterns[i];
        assert Wanted(pattern, Probe) <==> |pattern.lastResultAddress| > 0 && pattern.parsedAddress.Some?;
        if |pattern.lastResultAddress| > 0 && pattern.parsedAddress.Some? {
          var range := AddressRange(pattern.parsedAddress.value, pattern.byteLength);
          var memoryScan := new MemoryScan(ScanRequest(i, range), threadsPerScan);
          RequestsAppend(added, [memoryScan]);
          added := added + [memoryScan];
        }
        i := i + 1;
      }
      assert patterns[..i] == patterns;
      RequestsAppend(fastMemoryScans, added);
      fastMemoryScans := fastMemoryScans + added;
    }

    /** The effect of FastPatternScanning: a scan of the bound process's main
        module for every pattern that has matched nothing, in pattern order. */
    method StartFullScans(patterns: seq<Pattern>)
      requires process.Some?
      modifies this`memoryScans
      ensures Requests(memoryScans) ==
        Requests(old(memoryScans)) + ScanRequests(patterns, Module(ModuleRange(process.value)))
      ensures memoryScans[..|old(memoryScans)|] == old(memoryScans)
      ensures forall s :: s in memoryScans ==> s in old(memoryScans) || (fresh(s) && NewScan(s))
    {
      var addressRange := ModuleRange(process.value);
      var added := [];
      var i := 0;
      while i < |patterns|
        modifies {}
        invariant 0 <= i <= |patterns|
        invariant Requests(added) == ScanRequests(patterns[..i], Module(addressRange))
        invariant forall s :: s in added ==> fresh(s) && NewScan(s)
      {
        ScanRequestsStep(patterns, i, Module(addressRange));
        if patterns[i].matchedCount == 0 {
          var memoryScan := new MemoryScan(ScanRequest(i, addressRange), threadsPerScan);
          RequestsAppend(added, [memoryScan]);
          added := added + [memoryScan];
        }
        i := i + 1;
      }
      assert patterns[..i] == patterns;
      RequestsAppend(memoryScans, added);
      memoryScans := memoryScans + added;
    }

    /** The effect of PatternScanning -> Working: remove the full scans that
        found nothing (the others keep their order), append the fast scans that
        found something, then take the least and greatest first match; that
        last step throws when the list is empty. */
    method MergeResults() returns (threw: bool)
      modifies this`memoryScans
      ensures memoryScans == old(WithMatches(memoryScans) + WithMatches(fastMemoryScans))
      ensures forall s :: s in memoryScans ==>
        (s in old(memoryScans) || s in old(fastMemoryScans)) && HasMatches(s.View())
      ensures threw <==> memoryScans == []
      ensures threw <==>
        old(Count(Views(memoryScans), HasMatches) == 0 && Count(Views(fastMemoryScans), HasMatches) == 0)
    {
      MergedScans(memoryScans, fastMemoryScans);
      var merged := WithMatches(memoryScans) + WithMatches(fastMemoryScans);
      var orderedMatches := MatchRange(FirstMatches(merged));
      threw := orderedMatches.None?;
      memoryScans := merged;
    }

    /** Evaluates the guards of the current state in order and picks the
        first enabled transition; only WaitingForProcess runs the process
        search. */
    method Choose(t: Tick) returns (chosen: Option<Transition>)
      ensures chosen == Chosen(state, Observe(t))
      ensures chosen.Some? ==> Shaped(state, chosen.value, FirstRunning(t.processes, processName))
    {
      var target := Option.None;
      if state.WaitingForProcess? {
        target := FindTargetProcess(t.processes);
      }
      var v := Observation(t.autoUpdate, t.updateFound, t.updateFoundAgain, t.downloaded, t.downloadedAgain,
                    target, Views(fastMemoryScans), Views(memoryScans), t.processExited);
      if !state.WaitingForProcess? {
        ChosenIgnoresTarget(state, v, Observe(t));
      }
      ChosenShape(state, Observe(t));
      chosen := Chosen(state, v);
    }

    /** The resources the effects act on, as they are now. */
    function Snapshot(): Resources
      reads this`process, this`memoryScans, this`fastMemoryScans, this`shutdownRequested
    {
      Resources(process, memoryScans, fastMemoryScans, shutdownRequested)
    }

    /** Runs the effect of a transition that fires. Of the exceptions the
        source's effects can raise, only the empty merge of PatternScanning ->
        Working is modelled; the collaborators are taken never to throw. The
        full scans there were before keep their progress and results, and
        only a reset cancels them. Every scan in the lists afterwards was
        there before or was just started. */
    method Perform(effect: Effect, t: Tick) returns (threw: bool)
      requires effect.StartFullScans? ==> process.Some?
      modifies this`process, this`memoryScans, this`fastMemoryScans, this`shutdownRequested, memoryScans
      ensures threw <==> (effect.MergeResults? &&
        old(Count(Views(memoryScans), HasMatches) == 0 && Count(Views(fastMemoryScans), HasMatches) == 0))
      ensures Outcome(effect, t.patterns, shutdownWhenProcessExits, old(Snapshot()), Snapshot(),
                      old(WithMatches(memoryScans) + WithMatches(fastMemoryScans)))
      ensures forall s :: s in old(memoryScans) ==>
        s.completed == old(s.completed) && s.results == old(s.results) &&
        s.cancelled == (old(s.cancelled) || effect.Reset?)
      ensures forall s :: s in memoryScans || s in fastMemoryScans ==>
        s in old(memoryScans) || s in old(fastMemoryScans) || (fresh(s) && NewScan(s))
      ensures effect.MergeResults? ==> forall s :: s in memoryScans ==> HasMatches(s.View())
      ensures ResourcesAfter(effect, old(process.Some?), old(memoryScans == []), old(fastMemoryScans == []),
                             process.Some?, memoryScans == [], fastMemoryScans == [])
    {
      threw := false;
      match effect
      case LogOnly =>
      case FileMaintenance =>
      case Reset(processExited) =>
        Initialize(processExited);
      case Bind(p) =>
        process := Some(p);
      case StartFastScans =>
        StartFastScans(t.patterns);
      case StartFullScans =>
        StartFullScans(t.patterns);
      case MergeResults =>
        threw := MergeResults();
    }

    /** Runs the effect of a transition that fires from the current state,
        keeping the invariant for the state the machine is in afterwards: the
        target, or the current state when the effect threw. */
    method RunEffect(tr: Transition, t: Tick) returns (threw: bool)
      requires Valid() && Shaped(state, tr, FirstRunning(t.processes, processName))
      modifies this`process, this`memoryScans, this`fastMemoryScans, this`shutdownRequested, memoryScans
      ensures threw <==> (tr.effect.MergeResults? &&
        old(Count(Views(memoryScans), HasMatches) == 0 && Count(Views(fastMemoryScans), HasMatches) == 0))
      ensures Outcome(tr.effect, t.patterns, shutdownWhenProcessExits, old(Snapshot()), Snapshot(),
                      old(WithMatches(memoryScans) + WithMatches(fastMemoryScans)))
      ensures forall s :: s in old(memoryScans) ==>
        s.completed == old(s.completed) && s.results == old(s.results) &&
        s.cancelled == (old(s.cancelled) || tr.effect.Reset?)
      ensures forall s :: s in memoryScans || s in fastMemoryScans ==>
        s in old(memoryScans) || s in old(fastMemoryScans) || (fresh(s) && NewScan(s))
      ensures tr.effect.MergeResults? ==> forall s :: s in memoryScans ==> HasMatches(s.View())
      ensures Consistent(if threw then state else tr.target, process.Some?, memoryScans == [], fastMemoryScans == [])
    {
      ghost var bound, noFull, noFast := process.Some?, memoryScans == [], fastMemoryScans == [];
      threw := Perform(tr.effect, t);
      ShapedMoveConsistent(state, tr, FirstRunning(t.processes, processName),
        bound, noFull, noFast, process.Some?, memoryScans == [], fastMemoryScans == []);
    }

    /** Runs a fired transition: its effect, then (unless the effect threw)
        the move to its target. */
    method Apply(tr: Transition, t: Tick) returns (threw: bool)
      requires Valid() && Shaped(state, tr, FirstRunning(t.processes, processName))
      modifies this`state, this`process, this`memoryScans, this`fastMemoryScans, this`shutdownRequested, memoryScans
      ensures Valid()
      ensures state == if threw then old(state) else tr.target
      ensures threw <==> (tr.effect.MergeResults? &&
        old(Count(Views(memoryScans), HasMatches) == 0 && Count(Views(fastMemoryScans), HasMatches) == 0))
      ensures Outcome(tr.effect, t.patterns, shutdownWhenProcessExits, old(Snapshot()),
                      Resources(process, memoryScans, fastMemoryScans, shutdownRequested),
                      old(WithMatches(memoryScans) + WithMatches(fastMemoryScans)))
      ensures forall s :: s in old(memoryScans) ==>
        s.completed == old(s.completed) && s.results == old(s.results) &&
        s.cancelled == (old(s.cancelled) || tr.effect.Reset?)
      ensures forall s :: s in memoryScans || s in fastMemoryScans ==>
        s in old(memoryScans) || s in old(fastMemoryScans) || (fresh(s) && NewScan(s))
      ensures tr.effect.MergeResults? ==> forall s :: s in memoryScans ==> HasMatches(s.View())
    {
      threw := RunEffect(tr, t);
      if !threw {
        state := tr.target;
      }
    }

    /** One evaluation of the state machine. The first enabled transition of
        the current state fires; its effect runs; unless the effect threw, the
        machine moves to the transition's target. When no transition is
        enabled nothing changes, as after an effect that only logs. A bind
        binds the process the search found. */
    method Step(t: Tick) returns (threw: bool)
      requires Valid()
      modifies this`state, this`process, this`memoryScans, this`fastMemoryScans, this`shutdownRequested, memoryScans
      ensures Valid()
      ensures !threw ==> state == old(Next(state, Observe(t)))
      ensures threw ==> state == old(state)
      ensures threw <==> old(Chosen(state, Observe(t))) == Some(Transition(Working, true, Effect.MergeResults)) &&
                         old(MergeFindsNothing(Observe(t)))
      ensures var e := EffectOf(old(Chosen(state, Observe(t))));
        Outcome(e, t.patterns, shutdownWhenProcessExits, old(Snapshot()), Snapshot(),
                old(WithMatches(memoryScans) + WithMatches(fastMemoryScans)))
      ensures var e := EffectOf(old(Chosen(state, Observe(t))));
        forall s :: s in old(memoryScans) ==>
          s.completed == old(s.completed) && s.results == old(s.results) &&
          s.cancelled == (old(s.cancelled) || e.Reset?)
      ensures forall s :: s in memoryScans || s in fastMemoryScans ==>
        s in old(memoryScans) || s in old(fastMemoryScans) || (fresh(s) && NewScan(s))
      ensures var e := EffectOf(old(Chosen(state, Observe(t))));
        e.MergeResults? ==> forall s :: s in memoryScans ==> HasMatches(s.View())
      ensures var e := EffectOf(old(Chosen(state, Observe(t))));
        e.Bind? ==> process == FirstRunning(t.processes, processName)
    {
      var chosen;
      if state.WaitingForProcess? {
        chosen := Choose(t);
      } else {
        ChosenShape(state, Observe(t));
        chosen := Chosen(state, Observe(t));
      }
      if chosen.Some? {
        threw := Apply(chosen.value, t);
      } else {
        threw := false;
      }
    }

    /** The timer's tick handler: one Step; an exception escaping it disables
        the timer for good. */
    method Update(t: Tick)
      requires Valid() && timer.isEnabled
      modifies this`state, this`process, this`memoryScans, this`fastMemoryScans, this`shutdownRequested,
        memoryScans, timer`isEnabled
      ensures Valid()
      ensures timer.intervalMs == old(timer.intervalMs)
      ensures timer.isEnabled <==>
        !(old(Chosen(state, Observe(t))) == Some(Transition(Working, true, Effect.MergeResults)) &&
          old(MergeFindsNothing(Observe(t))))
      ensures timer.isEnabled ==> state == old(Next(state, Observe(t)))
      ensures !timer.isEnabled ==> state == old(state)
      ensures var e := EffectOf(old(Chosen(state, Observe(t))));
        Outcome(e, t.patterns, shutdownWhenProcessExits, old(Snapshot()),
                Resources(process, memoryScans, fastMemoryScans, shutdownRequested),
                old(WithMatches(memoryScans) + WithMatches(fastMemoryScans)))
      ensures var e := EffectOf(old(Chosen(state, Observe(t))));
        forall s :: s in old(memoryScans) ==>
          s.completed == old(s.completed) && s.results == old(s.results) &&
          s.cancelled == (old(s.cancelled) || e.Reset?)
      ensures forall s :: s in memoryScans || s in fastMemoryScans ==>
        s in old(memoryScans) || s in old(fastMemoryScans) || (fresh(s) && NewScan(s))
      ensures var e := EffectOf(old(Chosen(state, Observe(t))));
        e.MergeResults? ==> forall s :: s in memoryScans ==> HasMatches(s.View())
      ensures var e := EffectOf(old(Chosen(state, Observe(t))));
        e.Bind? ==> process == FirstRunning(t.processes, processName)
    {
      var threw := Step(t);
      timer.isEnabled := !threw;
    }
  }
}
