/** The collaborators of the scan orchestrator whose sources are not part of
    this model (AddressRange, BytePattern, ThreadedMemoryScan, the OS process
    handle, MhwHelper.TryParseHex). They appear here only as the records and
    the observable state the orchestrator reads; matching, partitioning,
    threading and cancellation are not modelled. */
module Collaborators {

  datatype Option<+T> = None | Some(value: T)

  /** A span of the target's address space, built as (start, size). */
  datatype AddressRange = AddressRange(start: nat, size: nat)

  /** What the orchestrator sees of one BytePattern at one tick. `lastResultAddress`
      is the persisted text of the cached address; `parsedAddress` is what
      TryParseHex makes of that text (an oracle here); `matchedCount` is how many
      addresses the pattern has matched so far. */
  datatype Pattern = Pattern(
    name: string,
    lastResultAddress: string,
    parsedAddress: Option<nat>,
    byteLength: nat,
    matchedCount: nat)

  /** What one enumerated OS process exposes. `inspectable` is false when reading
      its name or its exit flag throws (access denied, already gone). */
  datatype ProcessInfo = ProcessInfo(
    name: string,
    hasExited: bool,
    inspectable: bool,
    moduleBase: nat,
    moduleSize: nat)

  /** The main module of a process: the range every full scan covers. */
  function ModuleRange(p: ProcessInfo): AddressRange
  {
    AddressRange(p.moduleBase, p.moduleSize)
  }

  /** Which pattern a scan looks for, and over which range. */
  datatype ScanRequest = ScanRequest(patternIndex: nat, range: AddressRange)

  /** A snapshot of a scan's observable state: whether every worker has finished
      and the per-partition lists of matched addresses. */
  datatype ScanView = ScanView(completed: bool, results: seq<seq<nat>>)

  /** `Results.SelectMany(result => result.Matches)`: the partitions' matches in range order. */
  function Flatten(results: seq<seq<nat>>): (r: seq<nat>)
    ensures |r| == 0 <==> forall k :: 0 <= k < |results| ==> results[k] == []
  {
    if results == [] then [] else results[0] + Flatten(results[1..])
  }

  /** `Results.SelectMany(...).Any()`: the scan found at least one address. */
  predicate HasMatches(v: ScanView) {
    Flatten(v.results) != []
  }

  /** `Results.Where(r => r.Matches.Any()).Any()`: some partition found an address. */
  predicate SomePartitionMatched(v: ScanView) {
    exists k :: 0 <= k < |v.results| && v.results[k] != []
  }

  /** The two ways the source asks "did this scan match?" agree. */
  lemma HasMatchesIffSomePartition(v: ScanView)
    ensures HasMatches(v) <==> SomePartitionMatched(v)
  {
  }

  /** `Results.Where(result => result.Matches.Any()).First().Matches.First()`:
      the first address of the first partition that found one. Defined only when
      the scan matched, which is when neither `First()` throws. */
  function FirstMatch(results: seq<seq<nat>>): (m: nat)
    requires Flatten(results) != []
    ensures m == Flatten(results)[0]
  {
    if results[0] != [] then results[0][0] else FirstMatch(results[1..])
  }

  /** `vs.Where(f).Count()`. */
  function Count(vs: seq<ScanView>, f: ScanView -> bool): (n: nat)
    ensures n <= |vs|
    ensures n == 0 <==> forall k :: 0 <= k < |vs| ==> !f(vs[k])
    ensures n == |vs| <==> forall k :: 0 <= k < |vs| ==> f(vs[k])
  {
    if vs == [] then 0 else (if f(vs[0]) then 1 else 0) + Count(vs[1..], f)
  }

  /** One ThreadedMemoryScan. Its request and thread count never change; its
      workers update `completed` and `results` between ticks, outside the
      orchestrator, and `TryCancel` raises the cooperative cancellation flag. */
  class MemoryScan {
    const request: ScanRequest
    const threads: nat
    var completed: bool
    var results: seq<seq<nat>>
    var cancelled: bool

    constructor (request: ScanRequest, threads: nat)
      ensures this.request == request && this.threads == threads
      ensures !completed && results == [] && !cancelled
    {
      this.request := request;
      this.threads := threads;
      completed := false;
      results := [];
      cancelled := false;
    }

    function View(): ScanView
      reads this
    {
      ScanView(completed, results)
    }

    /** Cooperative cancellation: only the flag changes; partial results stay. */
    method TryCancel()
      modifies this
      ensures cancelled
      ensures completed == old(completed) && results == old(results)
    {
      cancelled := true;
    }
  }

  /** The snapshots of a list of scans, in list order. */
  function Views(ss: seq<MemoryScan>): (vs: seq<ScanView>)
    reads ss
    ensures |vs| == |ss|
    ensures forall k :: 0 <= k < |ss| ==> vs[k] == ss[k].View()
  {
    if ss == [] then [] else [ss[0].View()] + Views(ss[1..])
  }

  /** Requests distributes over concatenation. */
  lemma {:induction false} RequestsAppend(a: seq<MemoryScan>, b: seq<MemoryScan>)
    ensures Requests(a + b) == Requests(a) + Requests(b)
  {
    var r, ra, rb := Requests(a + b), Requests(a), Requests(b);
    forall k | 0 <= k < |r|
      ensures r[k] == (ra + rb)[k]
    {
      if k < |a| {
        assert (a + b)[k] == a[k];
      } else {
        assert (a + b)[k] == b[k - |a|];
      }
    }
    assert r == ra + rb;
  }

  /** The requests of a list of scans, in list order. */
  function Requests(ss: seq<MemoryScan>): (rs: seq<ScanRequest>)
    ensures |rs| == |ss|
    ensures forall k :: 0 <= k < |ss| ==> rs[k] == ss[k].request
  {
    if ss == [] then [] else [ss[0].request] + Requests(ss[1..])
  }
}
