/** Specification functions for what the effects of the orchestrator do to
    the scan lists, with the lemmas that say what they mean: which patterns
    get a scan and over which range, which scans survive into Working, which
    process the search binds, and the match range logged on entering Working. */
module ScanPlan {
  import opened Collaborators

  /** A fast probe at the cached address, or a scan of the whole main module. */
  datatype ScanKind = Probe | Module(range: AddressRange)

  /** Whether a pattern gets a scan of this kind: a probe needs a non-empty
      cached address that parses as hex; a module scan needs a pattern that
      has matched nothing yet. */
  predicate Wanted(p: Pattern, kind: ScanKind) {
    match kind
    case Probe => |p.lastResultAddress| > 0 && p.parsedAddress.Some?
    case Module(_) => p.matchedCount == 0
  }

  /** The range a wanted pattern's scan covers: for a probe, the pattern's own
      length starting at the cached address; for a module scan, the module. */
  function RangeFor(p: Pattern, kind: ScanKind): AddressRange
    requires Wanted(p, kind)
  {
    match kind
    case Probe => AddressRange(p.parsedAddress.value, p.byteLength)
    case Module(m) => m
  }

  /** The scans started for `ps`, in pattern order (last pattern last). */
  function ScanRequests(ps: seq<Pattern>, kind: ScanKind): seq<ScanRequest>
    decreases |ps|
  {
    if ps == [] then []
    else
      var i := |ps| - 1;
      ScanRequests(ps[..i], kind) +
      (if Wanted(ps[i], kind) then [ScanRequest(i, RangeFor(ps[i], kind))] else [])
  }

  /** Taking one more pattern adds its request, if it is wanted, at the end. */
  lemma ScanRequestsStep(ps: seq<Pattern>, i: nat, kind: ScanKind)
    requires i < |ps|
    ensures ScanRequests(ps[..i + 1], kind) ==
      ScanRequests(ps[..i], kind) + (if Wanted(ps[i], kind) then [ScanRequest(i, RangeFor(ps[i], kind))] else [])
  {
    assert ps[..i + 1][..i] == ps[..i];
  }

  /** Every scan started is for a wanted pattern, over the range RangeFor
      gives, in pattern order; so never more scans than patterns. */
  lemma {:induction false} ScanRequestsSound(ps: seq<Pattern>, kind: ScanKind)
    ensures var rs := ScanRequests(ps, kind);
      && |rs| <= |ps|
      && (forall k :: 0 <= k < |rs| ==>
            rs[k].patternIndex < |ps| && Wanted(ps[rs[k].patternIndex], kind) &&
            rs[k].range == RangeFor(ps[rs[k].patternIndex], kind))
      && (forall j, k :: 0 <= j < k < |rs| ==> rs[j].patternIndex < rs[k].patternIndex)
    decreases |ps|
  {
    if ps != [] {
      var i := |ps| - 1;
      var init := ps[..i];
      ScanRequestsSound(init, kind);
      assert forall j :: 0 <= j < i ==> init[j] == ps[j];
      if Wanted(ps[i], kind) {
        var rs0 := ScanRequests(init, kind);
        assert ScanRequests(ps, kind) == rs0 + [ScanRequest(i, RangeFor(ps[i], kind))];
      }
    }
  }

  /** Some scan in `rs` is for pattern `n`. */
  predicate Covers(rs: seq<ScanRequest>, n: nat) {
    exists k :: 0 <= k < |rs| && rs[k].patternIndex == n
  }

  /** Every wanted pattern gets a scan. */
  lemma {:induction false} ScanRequestsComplete(ps: seq<Pattern>, kind: ScanKind)
    ensures forall n :: 0 <= n < |ps| && Wanted(ps[n], kind) ==> Covers(ScanRequests(ps, kind), n)
    decreases |ps|
  {
    if ps != [] {
      var i := |ps| - 1;
      var init := ps[..i];
      ScanRequestsComplete(init, kind);
      var rs0, rs := ScanRequests(init, kind), ScanRequests(ps, kind);
      assert rs[..|rs0|] == rs0;
      forall n | 0 <= n < |ps| && Wanted(ps[n], kind)
        ensures Covers(rs, n)
      {
        if n < i {
          assert init[n] == ps[n];
          var k :| 0 <= k < |rs0| && rs0[k].patternIndex == n;
          assert rs[k] == rs0[k];
        } else {
          assert rs == rs0 + [ScanRequest(i, RangeFor(ps[i], kind))];
          assert rs[|rs0|].patternIndex == n;
        }
      }
    }
  }

  /** A fast probe is started exactly for the patterns whose cached address is
      non-empty and parses, at that address and for the pattern's byte length. */
  lemma FastProbesAtCachedAddresses(ps: seq<Pattern>, i: nat)
    requires i < |ps|
    ensures |ps[i].lastResultAddress| > 0 && ps[i].parsedAddress.Some? <==> Covers(ScanRequests(ps, Probe), i)
    ensures forall k :: 0 <= k < |ScanRequests(ps, Probe)| ==>
      var r := ScanRequests(ps, Probe)[k];
      && r.patternIndex < |ps|
      && ps[r.patternIndex].parsedAddress == Some(r.range.start)
      && r.range.size == ps[r.patternIndex].byteLength
  {
    ScanRequestsSound(ps, Probe);
    ScanRequestsComplete(ps, Probe);
  }

  /** A full scan is started exactly for the patterns that have matched
      nothing, and every one covers the same module range. */
  lemma FullScansOverModule(ps: seq<Pattern>, m: AddressRange, i: nat)
    requires i < |ps|
    ensures ps[i].matchedCount == 0 <==> Covers(ScanRequests(ps, Module(m)), i)
    ensures forall k :: 0 <= k < |ScanRequests(ps, Module(m))| ==> ScanRequests(ps, Module(m))[k].range == m
  {
    ScanRequestsSound(ps, Module(m));
    ScanRequestsComplete(ps, Module(m));
  }

  // ---------------------------------------------------------------------
  // The process search of WaitingForProcess

  /** A process the search accepts: present, inspectable without throwing,
      named like the target and not exited. */
  predicate Running(e: Option<ProcessInfo>, name: string) {
    e.Some? && e.value.inspectable && e.value.name == name && !e.value.hasExited
  }

  /** The first accepted process in enumeration order, if any. */
  function FirstRunning(ps: seq<Option<ProcessInfo>>, name: string): (r: Option<ProcessInfo>)
    ensures r.Some? <==> exists k :: 0 <= k < |ps| && Running(ps[k], name)
    ensures r.Some? ==> exists k :: 0 <= k < |ps| && Running(ps[k], name) && ps[k] == Some(r.value) &&
                                    forall j :: 0 <= j < k ==> !Running(ps[j], name)
  {
    if ps == [] then Option.None
    else if Running(ps[0], name) then ps[0]
    else
      var r := FirstRunning(ps[1..], name);
      assert forall k :: 1 <= k < |ps| ==> ps[k] == ps[1..][k - 1];
      r
  }

  // ---------------------------------------------------------------------
  // The scans that survive into Working

  /** The scans of `ss` that found at least one address, in list order. */
  function WithMatches(ss: seq<MemoryScan>): seq<MemoryScan>
    reads ss
    decreases |ss|
  {
    if ss == [] then []
    else
      var i := |ss| - 1;
      WithMatches(ss[..i]) + (if HasMatches(ss[i].View()) then [ss[i]] else [])
  }

  /** WithMatches keeps exactly the scans that matched, in their original order:
      `idx` gives, increasing, the position in `ss` of each kept scan. */
  lemma {:induction false} WithMatchesExact(ss: seq<MemoryScan>) returns (idx: seq<nat>)
    ensures var r := WithMatches(ss);
      && |idx| == |r|
      && (forall k :: 0 <= k < |idx| ==> idx[k] < |ss| && r[k] == ss[idx[k]] && HasMatches(ss[idx[k]].View()))
      && (forall j, k :: 0 <= j < k < |idx| ==> idx[j] < idx[k])
      && (forall i :: 0 <= i < |ss| && HasMatches(ss[i].View()) ==> i in idx)
    decreases |ss|
  {
    if ss == [] {
      idx := [];
    } else {
      var i := |ss| - 1;
      var init := ss[..i];
      var idx0 := WithMatchesExact(init);
      assert forall j :: 0 <= j < i ==> init[j] == ss[j];
      if HasMatches(ss[i].View()) {
        idx := idx0 + [i];
      } else {
        idx := idx0;
      }
    }
  }

  /** Every scan WithMatches keeps comes from the list and has matched. */
  lemma AllSurvivorsMatched(ss: seq<MemoryScan>)
    ensures forall s :: s in WithMatches(ss) ==> s in ss && HasMatches(s.View())
  {
    var idx := WithMatchesExact(ss);
    forall s | s in WithMatches(ss) ensures s in ss && HasMatches(s.View()) {
      var k :| 0 <= k < |WithMatches(ss)| && WithMatches(ss)[k] == s;
    }
  }

  /** Nothing survives exactly when no scan matched. */
  lemma NoSurvivors(ss: seq<MemoryScan>)
    ensures WithMatches(ss) == [] <==> forall k :: 0 <= k < |ss| ==> !HasMatches(ss[k].View())
  {
    var idx := WithMatchesExact(ss);
  }

  /** The same, counted over the snapshots the guards read. */
  lemma NoSurvivorsCounted(ss: seq<MemoryScan>)
    ensures WithMatches(ss) == [] <==> Count(Views(ss), HasMatches) == 0
  {
    NoSurvivors(ss);
    var vs := Views(ss);
    assert forall k :: 0 <= k < |ss| ==> vs[k] == ss[k].View();
  }

  /** The list the merge of PatternScanning -> Working builds: the matching
      full scans, then the matching fast scans. It holds only scans of the two
      lists that matched, and it is empty exactly when neither list has a scan
      that matched. */
  lemma MergedScans(full: seq<MemoryScan>, fast: seq<MemoryScan>)
    ensures var merged := WithMatches(full) + WithMatches(fast);
      && (forall s :: s in merged ==> (s in full || s in fast) && HasMatches(s.View()))
      && (merged == [] <==> Count(Views(full), HasMatches) == 0 && Count(Views(fast), HasMatches) == 0)
  {
    AllSurvivorsMatched(full);
    AllSurvivorsMatched(fast);
    NoSurvivorsCounted(full);
    NoSurvivorsCounted(fast);
  }

  // ---------------------------------------------------------------------
  // The match range logged on entering Working

  /** The first address each scan found, in list order. */
  function FirstMatches(ss: seq<MemoryScan>): (ms: seq<nat>)
    reads ss
    requires forall s :: s in ss ==> HasMatches(s.View())
    ensures |ms| == |ss|
  {
    if ss == [] then []
    else
      assert ss[0] in ss && forall s :: s in ss[1..] ==> s in ss;
      assert HasMatches(ss[0].View()) && ss[0].View().results == ss[0].results;
      [FirstMatch(ss[0].results)] + FirstMatches(ss[1..])
  }

  /** `orderedMatches.First()` and `.Last()` after `OrderBy`: the least and the
      greatest address, or nothing (the source throws) for an empty list. */
  function MatchRange(ms: seq<nat>): (r: Option<(nat, nat)>)
    ensures r.None? <==> ms == []
    ensures r.Some? ==> r.value.0 in ms && r.value.1 in ms
    ensures r.Some? ==> forall m :: m in ms ==> r.value.0 <= m <= r.value.1
  {
    if ms == [] then Option.None
    else
      assert forall m :: m in ms ==> m == ms[0] || m in ms[1..];
      match MatchRange(ms[1..])
      case None => Some((ms[0], ms[0]))
      case Some((lo, hi)) =>
        Some((if ms[0] < lo then ms[0] else lo, if ms[0] > hi then ms[0] else hi))
  }
}
