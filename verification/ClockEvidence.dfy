/** Clock-evidence segmentation and windows of crates/mini-aec-lab/src/stability.rs. */
module ClockEvidence {
  import opened AudioTypes

  const MAX_EVENT_GAP_MS: nat := 2_000
  const WINDOW_MS: nat := 300_000
  const MIN_WINDOW_DURATION_MS: nat := 295_000
  const MIN_WINDOW_OBSERVATIONS: nat := 250

  datatype EventKind = Started | Periodic | Final | Failed

  /** A validation event with the snapshot fields the analysis reads. */
  datatype Event = Event(
    kind: EventKind, elapsedMs: nat,
    microphonePosition: Option<nat>, microphoneQpc: Option<nat>, renderPosition: Option<nat>, renderQpc: Option<nat>,
    aecInstance: Option<nat>, epoch: nat,
    discontinuities: nat, timestampErrors: nat, renderDiscontinuities: nat, renderTimestampErrors: nat,
    queueDepth: nat, renderQueueDepth: nat)

  datatype Observation = Observation(
    elapsedMs: nat, microphonePosition: nat, microphoneQpc: nat, renderPosition: nat, renderQpc: nat,
    aecInstance: Option<nat>, epoch: nat,
    discontinuities: nat, timestampErrors: nat, renderDiscontinuities: nat, renderTimestampErrors: nat)

  datatype Reason =
    | MissingObservation | EventGap | InstanceChanged | EpochChanged | DiscontinuityCounted | TimestampErrorCounted
    | MicrophoneStalled | RenderStalled

  datatype Excluded = Excluded(elapsedMs: nat, reason: Reason)

  function Observe(e: Event): Option<Observation> {
    if e.microphonePosition.None? || e.microphoneQpc.None? || e.renderPosition.None? || e.renderQpc.None? then None
    else Some(Observation(
      e.elapsedMs, e.microphonePosition.value, e.microphoneQpc.value, e.renderPosition.value, e.renderQpc.value,
      e.aecInstance, e.epoch, e.discontinuities, e.timestampErrors, e.renderDiscontinuities, e.renderTimestampErrors))
  }

  function BoundaryReason(previous: Observation, current: Observation): Option<Reason> {
    if SaturatingSub(current.elapsedMs, previous.elapsedMs) > MAX_EVENT_GAP_MS then Some(EventGap)
    else if current.aecInstance != previous.aecInstance then Some(InstanceChanged)
    else if current.epoch != previous.epoch then Some(EpochChanged)
    else if current.discontinuities != previous.discontinuities
         || current.renderDiscontinuities != previous.renderDiscontinuities then Some(DiscontinuityCounted)
    else if current.timestampErrors != previous.timestampErrors
         || current.renderTimestampErrors != previous.renderTimestampErrors then Some(TimestampErrorCounted)
    else if current.microphonePosition <= previous.microphonePosition
         || current.microphoneQpc <= previous.microphoneQpc then Some(MicrophoneStalled)
    else if current.renderPosition <= previous.renderPosition
         || current.renderQpc <= previous.renderQpc then Some(RenderStalled)
    else None
  }

  function Scored(events: seq<Event>): seq<Event> {
    if events == [] then [] else
    var e := events[|events| - 1];
    Scored(events[..|events| - 1]) + if e.kind.Periodic? || e.kind.Final? then [e] else []
  }

  // ---- The segmentation as a scan ----

  /** Finished segments with their index ranges, and the open one, which starts at index `open`. */
  datatype Scan = Scan(
    bounds: seq<(nat, nat)>, segments: seq<seq<Observation>>, excluded: seq<Excluded>,
    open: nat, current: seq<Observation>)

  /** Closes the open segment before index `n`; a single observation is no segment. */
  function Close(s: Scan, n: nat): Scan {
    if |s.current| >= 2 then
      s.(bounds := s.bounds + [(s.open, n)], segments := s.segments + [s.current], open := n, current := [])
    else s.(open := n, current := [])
  }

  function Extend(s: Scan, n: nat, e: Event): Scan {
    match Observe(e)
    case None => Close(s, n).(open := n + 1, excluded := s.excluded + [Excluded(e.elapsedMs, MissingObservation)])
    case Some(o) =>
      var reason := if s.current == [] then None else BoundaryReason(s.current[|s.current| - 1], o);
      var s' :=
        if reason.None? then s
        else Close(s, n).(excluded := s.excluded + [Excluded(o.elapsedMs, reason.value)]);
      s'.(current := s'.current + [o])
  }

  function ScanAll(l: seq<Event>): Scan {
    if l == [] then Scan([], [], [], 0, []) else Extend(ScanAll(l[..|l| - 1]), |l| - 1, l[|l| - 1])
  }

  function Segmentation(l: seq<Event>): Scan { Close(ScanAll(l), |l|) }

  // ---- What a clean segment is ----

  /** Events `i - 1` and `i` cannot belong to one segment. */
  ghost predicate Cut(l: seq<Event>, i: nat) {
    && 0 < i < |l|
    && (|| Observe(l[i - 1]).None? || Observe(l[i]).None?
        || BoundaryReason(Observe(l[i - 1]).value, Observe(l[i]).value).Some?)
  }

  ghost predicate CleanRun(l: seq<Event>, lo: nat, hi: nat) {
    && lo <= hi <= |l|
    && (forall i :: lo <= i < hi ==> Observe(l[i]).Some?)
    && (forall i :: lo < i < hi ==> !Cut(l, i))
  }

  /** A nonempty clean run that cannot be extended on either side. */
  ghost predicate MaximalRun(l: seq<Event>, lo: nat, hi: nat) {
    && lo < hi && CleanRun(l, lo, hi)
    && (lo > 0 ==> !CleanRun(l, lo - 1, hi))
    && (hi < |l| ==> !CleanRun(l, lo, hi + 1))
  }

  /** A clean run of two or more that ends before the list does and cannot be extended. */
  ghost predicate ClosedRun(l: seq<Event>, lo: nat, hi: nat) {
    && lo + 2 <= hi < |l| && CleanRun(l, lo, hi) && (lo > 0 ==> Cut(l, lo)) && Cut(l, hi)
  }

  ghost predicate OpenRun(l: seq<Event>, s: Scan) {
    && s.open <= |l| && CleanRun(l, s.open, |l|)
    && |s.current| == |l| - s.open
    && (forall i :: s.open <= i < |l| ==> Observe(l[i]) == Some(s.current[i - s.open]))
    && (0 < s.open < |l| ==> Cut(l, s.open))
    && (0 < s.open == |l| ==> Observe(l[|l| - 1]).None?)
  }

  ghost predicate BoundsExact(l: seq<Event>, bounds: seq<(nat, nat)>) {
    forall lo: nat, hi: nat :: (lo, hi) in bounds <==> ClosedRun(l, lo, hi)
  }

  lemma {:induction false} OpenRunKept(l: seq<Event>)
    ensures OpenRun(l, ScanAll(l))
  {
    if l != [] {
      var n := |l| - 1;
      OpenRunKept(l[..n]);
      OpenRunExtends(l, ScanAll(l[..n]), n);
      assert ScanAll(l) == Extend(ScanAll(l[..n]), n, l[n]);
    }
    hide Extend, Observe, BoundaryReason;
  }

  lemma OpenRunExtends(l: seq<Event>, s: Scan, n: nat)
    requires n == |l| - 1 && OpenRun(l[..n], s)
    ensures OpenRun(l, Extend(s, n, l[n]))
  {
    hide BoundaryReason;
    CutPrefix(l, n);
    assert s.current != [] ==> Observe(l[n - 1]) == Some(s.current[|s.current| - 1]);
    assert s.current == [] ==> s.open == n;
  }

  lemma CutPrefix(l: seq<Event>, n: nat)
    requires n <= |l|
    ensures forall i: nat :: i < n ==> (Cut(l[..n], i) <==> Cut(l, i))
  {
  }

  /** A run that reaches up to a cut at `n` is the open one. */
  lemma ClosedAtEnd(l: seq<Event>, s: Scan, n: nat, lo: nat)
    requires n == |l| - 1 && OpenRun(l[..n], s) && lo + 2 <= n
    requires CleanRun(l, lo, n) && (lo > 0 ==> Cut(l, lo))
    ensures lo == s.open
  {
    CutPrefix(l, n);
    assert 0 < s.open < n ==> Cut(l, s.open);
    assert Observe(l[n - 1]).Some?;
    assert lo < s.open < n ==> !Cut(l, s.open);
    assert s.open < lo ==> !Cut(l, lo);
  }

  lemma {:induction false} BoundsAreExact(l: seq<Event>)
    ensures BoundsExact(l, ScanAll(l).bounds)
  {
    if l != [] {
      var n := |l| - 1;
      BoundsAreExact(l[..n]);
      OpenRunKept(l[..n]);
      var before := ScanAll(l[..n]);
      assert ScanAll(l) == Extend(before, n, l[n]);
      forall lo: nat, hi: nat ensures (lo, hi) in ScanAll(l).bounds <==> ClosedRun(l, lo, hi) {
        assert (lo, hi) in before.bounds <==> ClosedRun(l[..n], lo, hi);
        BoundsExtend(l, before, n, lo, hi);
      }
    }
    hide ClosedRun, ScanAll;
  }

  lemma BoundsExtend(l: seq<Event>, s: Scan, n: nat, lo: nat, hi: nat)
    requires n == |l| - 1 && OpenRun(l[..n], s)
    requires (lo, hi) in s.bounds <==> ClosedRun(l[..n], lo, hi)
    ensures (lo, hi) in Extend(s, n, l[n]).bounds <==> ClosedRun(l, lo, hi)
  {
    hide BoundaryReason;
    CutPrefix(l, n);
    if hi < n {
      ClosedPrefix(l, n, lo, hi);
    } else if hi == n && ClosedRun(l, lo, hi) {
      ClosedAtEnd(l, s, n, lo);
    }
  }

  lemma ClosedPrefix(l: seq<Event>, n: nat, lo: nat, hi: nat)
    requires n <= |l| && hi < n
    ensures ClosedRun(l[..n], lo, hi) <==> ClosedRun(l, lo, hi)
  {
    CutPrefix(l, n);
  }

  lemma MaximalIsCut(l: seq<Event>, lo: nat, hi: nat)
    requires lo < hi && CleanRun(l, lo, hi)
    ensures MaximalRun(l, lo, hi) <==> (lo > 0 ==> Cut(l, lo)) && (hi < |l| ==> Cut(l, hi))
  {
    if lo > 0 {
      assert CleanRun(l, lo - 1, hi) <==> !Cut(l, lo);
    }
    if hi < |l| {
      assert CleanRun(l, lo, hi + 1) <==> !Cut(l, hi);
    }
  }

  /** The segments are exactly the maximal clean runs of at least two observations. */
  lemma SegmentsAreMaximalRuns(l: seq<Event>, lo: nat, hi: nat)
    ensures (lo, hi) in Segmentation(l).bounds <==> MaximalRun(l, lo, hi) && lo + 2 <= hi
  {
    var s := ScanAll(l);
    BoundsAreExact(l);
    OpenRunKept(l);
    if lo + 2 <= hi && CleanRun(l, lo, hi) {
      MaximalIsCut(l, lo, hi);
      if hi == |l| && MaximalRun(l, lo, hi) {
        assert lo < s.open < hi ==> Cut(l, s.open) && !Cut(l, s.open);
        assert s.open < lo ==> Cut(l, lo) && !Cut(l, lo);
      }
    }
    assert (lo, hi) in s.bounds <==> ClosedRun(l, lo, hi);
  }

  /** Each segment holds the observations of its run, and the runs come in order without overlap. */
  ghost predicate Sliced(l: seq<Event>, s: Scan) {
    && |s.segments| == |s.bounds|
    && (forall k :: 0 <= k < |s.bounds| ==> Slice(l, s.bounds[k], s.segments[k]) && s.bounds[k].1 <= s.open)
    && (forall k :: 0 < k < |s.bounds| ==> s.bounds[k - 1].1 <= s.bounds[k].0)
  }

  ghost predicate Slice(l: seq<Event>, bounds: (nat, nat), segment: seq<Observation>) {
    && bounds.0 + 2 <= bounds.1 <= |l| && |segment| == bounds.1 - bounds.0
    && forall i :: 0 <= i < |segment| ==> Observe(l[bounds.0 + i]) == Some(segment[i])
  }

  lemma SliceGrows(l: seq<Event>, n: nat, bounds: (nat, nat), segment: seq<Observation>)
    requires n <= |l| && Slice(l[..n], bounds, segment)
    ensures Slice(l, bounds, segment)
  {
  }

  lemma OpenIsSlice(l: seq<Event>, s: Scan)
    requires OpenRun(l, s)
    ensures s.open <= |l| && (|s.current| >= 2 ==> Slice(l, (s.open, |l|), s.current))
  {
    hide CleanRun, Cut, Observe;
  }

  lemma CloseSlices(l: seq<Event>, s: Scan)
    requires OpenRun(l, s) && Sliced(l, s)
    ensures Sliced(l, Close(s, |l|))
  {
    hide OpenRun, Slice;
    OpenIsSlice(l, s);
  }

  lemma SlicesGrow(l: seq<Event>, n: nat, s: Scan)
    requires n <= |l| && Sliced(l[..n], s)
    ensures Sliced(l, s)
  {
    forall k | 0 <= k < |s.bounds| ensures Slice(l, s.bounds[k], s.segments[k]) {
      SliceGrows(l, n, s.bounds[k], s.segments[k]);
    }
    hide Slice;
  }

  /** An extension leaves the finished segments alone, or adds the one that was open. */
  lemma ExtendShape(s: Scan, n: nat, e: Event)
    requires s.open <= n
    ensures var (s', closed) := (Extend(s, n, e), Close(s, n));
            || (s'.bounds == s.bounds && s'.segments == s.segments && s'.open >= s.open)
            || (s'.bounds == closed.bounds && s'.segments == closed.segments && s'.open >= closed.open)
  {
    hide BoundaryReason, Observe;
  }

  lemma {:induction false} ScanSlices(l: seq<Event>)
    ensures Sliced(l, ScanAll(l))
  {
    if l != [] {
      var n := |l| - 1;
      var before := ScanAll(l[..n]);
      ScanSlices(l[..n]);
      OpenRunKept(l[..n]);
      CloseSlices(l[..n], before);
      SlicesGrow(l, n, before);
      SlicesGrow(l, n, Close(before, n));
      ExtendShape(before, n, l[n]);
      assert ScanAll(l) == Extend(before, n, l[n]);
    }
    hide Slice, Extend, Close, Observe, BoundaryReason;
  }

  lemma SegmentsAreSlices(l: seq<Event>)
    ensures Sliced(l, Segmentation(l))
  {
    ScanSlices(l);
    OpenRunKept(l);
    CloseSlices(l, ScanAll(l));
  }

  // ---- What a boundary is, on the events themselves ----

  /** All four positions and clocks are there. */
  predicate Complete(e: Event) {
    e.microphonePosition.Some? && e.microphoneQpc.Some? && e.renderPosition.Some? && e.renderQpc.Some?
  }

  predicate Rises(a: Option<nat>, b: Option<nat>) { a.Some? && b.Some? && a.value < b.value }

  /** Everything that may separate two complete events, in the order in which it is looked for. */
  function Separations(a: Event, b: Event): (r: seq<(bool, Reason)>)
    ensures |r| == 7
  {
    [(b.elapsedMs > a.elapsedMs + 2_000, EventGap),
     (a.aecInstance != b.aecInstance, InstanceChanged),
     (a.epoch != b.epoch, EpochChanged),
     (a.discontinuities != b.discontinuities || a.renderDiscontinuities != b.renderDiscontinuities,
      DiscontinuityCounted),
     (a.timestampErrors != b.timestampErrors || a.renderTimestampErrors != b.renderTimestampErrors,
      TimestampErrorCounted),
     (!Rises(a.microphonePosition, b.microphonePosition) || !Rises(a.microphoneQpc, b.microphoneQpc),
      MicrophoneStalled),
     (!Rises(a.renderPosition, b.renderPosition) || !Rises(a.renderQpc, b.renderQpc), RenderStalled)]
  }

  /** One of the seven separations holds. */
  predicate Separated(a: Event, b: Event) {
    || b.elapsedMs > a.elapsedMs + 2_000
    || a.aecInstance != b.aecInstance || a.epoch != b.epoch
    || a.discontinuities != b.discontinuities || a.renderDiscontinuities != b.renderDiscontinuities
    || a.timestampErrors != b.timestampErrors || a.renderTimestampErrors != b.renderTimestampErrors
    || !Rises(a.microphonePosition, b.microphonePosition) || !Rises(a.microphoneQpc, b.microphoneQpc)
    || !Rises(a.renderPosition, b.renderPosition) || !Rises(a.renderQpc, b.renderQpc)
  }

  /** The first separation of two events that holds, from the `k`-th on. */
  function FirstSeparation(a: Event, b: Event, k: nat): Option<Reason>
    requires k <= 7
    decreases 7 - k
  {
    if k == 7 then None
    else if Separations(a, b)[k].0 then Some(Separations(a, b)[k].1)
    else FirstSeparation(a, b, k + 1)
  }

  lemma ObserveExactly(e: Event)
    ensures Observe(e).Some? <==> Complete(e)
    ensures Complete(e) ==>
      var o := Observe(e).value;
      && e.elapsedMs == o.elapsedMs && e.aecInstance == o.aecInstance && e.epoch == o.epoch
      && e.microphonePosition == Some(o.microphonePosition) && e.microphoneQpc == Some(o.microphoneQpc)
      && e.renderPosition == Some(o.renderPosition) && e.renderQpc == Some(o.renderQpc)
      && e.discontinuities == o.discontinuities && e.renderDiscontinuities == o.renderDiscontinuities
      && e.timestampErrors == o.timestampErrors && e.renderTimestampErrors == o.renderTimestampErrors
  {
  }

  lemma FirstStep(a: Event, b: Event, k: nat)
    requires k < 7
    ensures FirstSeparation(a, b, k)
         == if Separations(a, b)[k].0 then Some(Separations(a, b)[k].1) else FirstSeparation(a, b, k + 1)
  {
    hide Separations;
  }

  lemma FirstEnds(a: Event, b: Event)
    ensures FirstSeparation(a, b, 7) == None
  {
  }

  lemma BoundaryIsFirst(a: Event, b: Event)
    requires Complete(a) && Complete(b)
    ensures BoundaryReason(Observe(a).value, Observe(b).value) == FirstSeparation(a, b, 0)
  {
    ObserveExactly(a);
    ObserveExactly(b);
    FirstStep(a, b, 0);
    FirstStep(a, b, 1);
    FirstStep(a, b, 2);
    FirstStep(a, b, 3);
    FirstStep(a, b, 4);
    FirstStep(a, b, 5);
    FirstStep(a, b, 6);
    FirstEnds(a, b);
    hide Observe, FirstSeparation;
  }

  lemma FirstSeparates(a: Event, b: Event)
    ensures FirstSeparation(a, b, 0).Some? <==> Separated(a, b)
  {
    FirstStep(a, b, 0);
    FirstStep(a, b, 1);
    FirstStep(a, b, 2);
    FirstStep(a, b, 3);
    FirstStep(a, b, 4);
    FirstStep(a, b, 5);
    FirstStep(a, b, 6);
    FirstEnds(a, b);
    hide FirstSeparation;
  }

  /** Two neighbours are cut if and only if one is incomplete or one of the seven separations holds. */
  lemma CutExactly(l: seq<Event>, i: nat)
    requires 0 < i < |l|
    ensures Cut(l, i) <==> !Complete(l[i - 1]) || !Complete(l[i]) || Separated(l[i - 1], l[i])
  {
    ObserveExactly(l[i - 1]);
    ObserveExactly(l[i]);
    hide Observe, BoundaryReason, Separated, FirstSeparation, Complete;
    FirstSeparates(l[i - 1], l[i]);
    if Complete(l[i - 1]) && Complete(l[i]) {
      BoundaryIsFirst(l[i - 1], l[i]);
    }
  }

  // ---- Which events count ----

  /** `at` lists exactly the indices below `n` that `p` picks, in order. */
  ghost predicate Picked(at: seq<nat>, n: nat, p: nat -> bool) {
    && (forall j, k :: 0 <= j < k < |at| ==> at[j] < at[k])
    && (forall k :: 0 <= k < |at| ==> at[k] < n)
    && (forall i: nat :: i < n ==> (p(i) <==> i in at))
  }

  lemma ScoredGrows(events: seq<Event>, m: nat)
    requires m < |events|
    ensures Scored(events[..m + 1])
         == Scored(events[..m]) + if events[m].kind == Periodic || events[m].kind == Final then [events[m]] else []
  {
    assert events[..m + 1][..m] == events[..m];
  }

  lemma NonePicked(p: nat -> bool)
    ensures Picked([], 0, p)
  {
  }

  lemma PickedSnoc(at: seq<nat>, n: nat, p: nat -> bool)
    requires Picked(at, n, p)
    ensures Picked(if p(n) then at + [n] else at, n + 1, p)
  {
    if p(n) {
      assert forall i :: i in at + [n] <==> i in at || i == n;
    }
  }

  /** `values` are what `f` says at the indices `at`. */
  ghost predicate Read<T>(f: nat -> Option<T>, at: seq<nat>, values: seq<T>) {
    |at| == |values| && forall k :: 0 <= k < |at| ==> f(at[k]) == Some(values[k])
  }

  lemma ReadSnoc<T>(f: nat -> Option<T>, at: seq<nat>, values: seq<T>, n: nat, v: T)
    requires Read(f, at, values) && f(n) == Some(v)
    ensures Read(f, at + [n], values + [v])
  {
  }

  lemma NothingRead<T>(f: nat -> Option<T>)
    ensures Read(f, [], [])
  {
  }

  function IsScored(events: seq<Event>): nat -> bool {
    (i: nat) => i < |events| && (events[i].kind == Periodic || events[i].kind == Final)
  }

  function EventAt(events: seq<Event>): nat -> Option<Event> {
    (i: nat) => if i < |events| then Some(events[i]) else None
  }

  /** The scored events are the periodic and the final ones, in order. */
  lemma {:induction false} ScoredIsFilter(events: seq<Event>, n: nat) returns (at: seq<nat>)
    requires n <= |events|
    ensures Picked(at, n, IsScored(events)) && Read(EventAt(events), at, Scored(events[..n]))
  {
    hide Picked, Read;
    at := [];
    if n == 0 {
      NonePicked(IsScored(events));
      NothingRead(EventAt(events));
      assert Scored(events[..0]) == [];
    } else {
      var m := n - 1;
      at := ScoredIsFilter(events, m);
      hide Scored;
      ScoredGrows(events, m);
      PickedSnoc(at, m, IsScored(events));
      if IsScored(events)(m) {
        ReadSnoc(EventAt(events), at, Scored(events[..m]), m, events[m]);
        at := at + [m];
      } else {
        assert Scored(events[..m]) + [] == Scored(events[..m]);
      }
    }
  }

  // ---- What is excluded ----

  /** Why event `i` cannot continue the run before it, if there is anything to say about it. */
  function ExclusionAt(l: seq<Event>, i: nat): Option<Excluded>
    requires i < |l|
  {
    var o := Observe(l[i]);
    if o.None? then Some(Excluded(l[i].elapsedMs, MissingObservation))
    else if i == 0 || Observe(l[i - 1]).None? then None
    else
      var reason := BoundaryReason(Observe(l[i - 1]).value, o.value);
      if reason.None? then None else Some(Excluded(o.value.elapsedMs, reason.value))
  }

  /** An exclusion on the event itself: it is incomplete, or separated from a complete one before it. */
  lemma ExclusionExactly(l: seq<Event>, i: nat)
    requires i < |l|
    ensures ExclusionAt(l, i)
         == if !Complete(l[i]) then Some(Excluded(l[i].elapsedMs, MissingObservation))
            else if i == 0 || !Complete(l[i - 1]) then None
            else var reason := FirstSeparation(l[i - 1], l[i], 0);
                 if reason.None? then None else Some(Excluded(l[i].elapsedMs, reason.value))
  {
    ObserveExactly(l[i]);
    if i > 0 {
      ObserveExactly(l[i - 1]);
      if Complete(l[i - 1]) && Complete(l[i]) {
        BoundaryIsFirst(l[i - 1], l[i]);
      }
    }
    hide Observe, BoundaryReason, FirstSeparation, Complete;
  }

  /** `excluded` names exactly the exclusions of `l`, in order, the k-th one that of event `at[k]`. */
  ghost predicate Names(l: seq<Event>, excluded: seq<Excluded>, at: seq<nat>) {
    && |at| == |excluded|
    && (forall j, k :: 0 <= j < k < |at| ==> at[j] < at[k])
    && (forall k :: 0 <= k < |at| ==> at[k] < |l| && ExclusionAt(l, at[k]) == Some(excluded[k]))
    && (forall i :: 0 <= i < |l| && ExclusionAt(l, i).Some? ==> i in at)
  }

  lemma ExtendExcludes(l: seq<Event>, s: Scan, n: nat)
    requires n == |l| - 1 && OpenRun(l[..n], s)
    ensures Extend(s, n, l[n]).excluded
         == s.excluded + if ExclusionAt(l, n).Some? then [ExclusionAt(l, n).value] else []
  {
    hide BoundaryReason;
    assert s.current != [] ==> Observe(l[n - 1]) == Some(s.current[|s.current| - 1]);
    assert s.current == [] ==> n == 0 || Observe(l[n - 1]).None?;
  }

  lemma NamesSnoc(l: seq<Event>, excluded: seq<Excluded>, at: seq<nat>, n: nat)
    requires n == |l| - 1 && Names(l[..n], excluded, at)
    ensures var e := ExclusionAt(l, n);
            if e.Some? then Names(l, excluded + [e.value], at + [n]) else Names(l, excluded, at)
  {
    forall i | 0 <= i < n ensures ExclusionAt(l, i) == ExclusionAt(l[..n], i) {
    }
    hide ExclusionAt;
    assert ExclusionAt(l, n).Some? ==> forall i :: i in at ==> i in at + [n];
  }

  /**
   * The excluded entries are exactly the missing observations and the boundaries between two
   * observations, in order and one each.
   */
  lemma {:induction false} ExcludedAreBoundaries(l: seq<Event>) returns (at: seq<nat>)
    ensures Names(l, ScanAll(l).excluded, at)
    ensures forall i :: 0 < i < |l| ==> (Cut(l, i) <==> i in at || Observe(l[i - 1]).None?)
  {
    at := [];
    if l != [] {
      var n := |l| - 1;
      at := ExcludedAreBoundaries(l[..n]);
      OpenRunKept(l[..n]);
      ExtendExcludes(l, ScanAll(l[..n]), n);
      NamesSnoc(l, ScanAll(l[..n]).excluded, at, n);
      assert ScanAll(l) == Extend(ScanAll(l[..n]), n, l[n]);
      assert ScanAll(l[..n]).excluded + [] == ScanAll(l[..n]).excluded;
      if ExclusionAt(l, n).Some? {
        at := at + [n];
      }
    }
    CutsAreNamed(l, ScanAll(l).excluded, at);
    hide Names, Extend, ExclusionAt, OpenRun, Observe;
  }

  lemma CutsAreNamed(l: seq<Event>, excluded: seq<Excluded>, at: seq<nat>)
    requires Names(l, excluded, at)
    ensures forall i :: 0 < i < |l| ==> (Cut(l, i) <==> i in at || Observe(l[i - 1]).None?)
  {
    forall i | 0 < i < |l| ensures Cut(l, i) <==> ExclusionAt(l, i).Some? || Observe(l[i - 1]).None? {
    }
    hide ExclusionAt, Cut, Observe;
  }

  /** Observation i of a segment is what event lo + i of its run says, field by field. */
  lemma SegmentsHoldEvents(l: seq<Event>, k: nat, i: nat)
    requires k < |Segmentation(l).segments| && i < |Segmentation(l).segments[k]|
    ensures |Segmentation(l).bounds| == |Segmentation(l).segments|
    ensures var (lo, hi), o := Segmentation(l).bounds[k], Segmentation(l).segments[k][i];
            && lo + i < hi <= |l| && |Segmentation(l).segments[k]| == hi - lo
            && var e := l[lo + i];
               && e.microphonePosition == Some(o.microphonePosition) && e.microphoneQpc == Some(o.microphoneQpc)
               && e.renderPosition == Some(o.renderPosition) && e.renderQpc == Some(o.renderQpc)
               && e.elapsedMs == o.elapsedMs && e.aecInstance == o.aecInstance && e.epoch == o.epoch
  {
    SegmentsAreSlices(l);
    var (lo, hi) := Segmentation(l).bounds[k];
    assert Slice(l, (lo, hi), Segmentation(l).segments[k]);
    ObserveExactly(l[lo + i]);
    hide Segmentation, Observe;
  }

  ghost predicate StrictlyLater(a: Observation, b: Observation) {
    && a.microphonePosition < b.microphonePosition && a.microphoneQpc < b.microphoneQpc
    && a.renderPosition < b.renderPosition && a.renderQpc < b.renderQpc
    && a.aecInstance == b.aecInstance && a.epoch == b.epoch
    && a.discontinuities == b.discontinuities && a.renderDiscontinuities == b.renderDiscontinuities
    && a.timestampErrors == b.timestampErrors && a.renderTimestampErrors == b.renderTimestampErrors
  }

  lemma CleanPair(l: seq<Event>, k: nat, i: nat)
    requires k < |Segmentation(l).segments| && i + 1 < |Segmentation(l).segments[k]|
    ensures var segment := Segmentation(l).segments[k]; BoundaryReason(segment[i], segment[i + 1]).None?
  {
    SegmentsAreSlices(l);
    var (lo, hi) := Segmentation(l).bounds[k];
    SegmentsAreMaximalRuns(l, lo, hi);
    assert (lo, hi) in Segmentation(l).bounds;
    assert Slice(l, (lo, hi), Segmentation(l).segments[k]);
    assert !Cut(l, lo + i + 1);
  }

  /** Inside a segment positions and clocks strictly rise, in one epoch of one canceller, and no counter moves. */
  lemma {:induction false} SegmentsAreMonotone(l: seq<Event>, k: nat, i: nat, j: nat)
    requires k < |Segmentation(l).segments| && i < j < |Segmentation(l).segments[k]|
    ensures StrictlyLater(Segmentation(l).segments[k][i], Segmentation(l).segments[k][j])
    decreases j - i
  {
    CleanPair(l, k, j - 1);
    if i < j - 1 {
      SegmentsAreMonotone(l, k, i, j - 1);
    }
    hide Segmentation;
  }

  // ---- Durations ----

  function Duration(segment: seq<Observation>): nat {
    if segment == [] then 0 else SaturatingSub(segment[|segment| - 1].elapsedMs, segment[0].elapsedMs)
  }

  function TotalDuration(segments: seq<seq<Observation>>): nat {
    if segments == [] then 0 else TotalDuration(segments[..|segments| - 1]) + Duration(segments[|segments| - 1])
  }

  ghost predicate ElapsedMonotone(l: seq<Event>) {
    forall i :: 0 < i < |l| ==> l[i - 1].elapsedMs <= l[i].elapsedMs
  }

  function LastElapsed(l: seq<Event>): nat { if l == [] then 0 else l[|l| - 1].elapsedMs }

  /** Elapsed time between neighbours that no cut separates. */
  ghost function CleanTime(l: seq<Event>): nat {
    if |l| <= 1 then 0 else
    var n := |l| - 1;
    CleanTime(l[..n]) + if Cut(l, n) then 0 else SaturatingSub(l[n].elapsedMs, l[n - 1].elapsedMs)
  }

  lemma CloseDuration(s: Scan, n: nat)
    ensures TotalDuration(Close(s, n).segments) == TotalDuration(s.segments) + Duration(s.current)
  {
    assert (s.segments + [s.current])[..|s.segments|] == s.segments;
  }

  lemma DurationSnoc(current: seq<Observation>, o: Observation)
    requires current != [] && current[0].elapsedMs <= current[|current| - 1].elapsedMs <= o.elapsedMs
    ensures Duration(current + [o]) == Duration(current) + o.elapsedMs - current[|current| - 1].elapsedMs
  {
  }

  /** The open segment ends with the last event, and its time is in order. */
  ghost predicate OpenTime(l: seq<Event>, s: Scan) {
    s.current != [] ==>
      && l != [] && s.current[|s.current| - 1].elapsedMs == l[|l| - 1].elapsedMs
      && s.current[0].elapsedMs <= s.current[|s.current| - 1].elapsedMs
  }

  /** The next event joins the open segment. */
  predicate Joins(s: Scan, e: Event) {
    && s.current != [] && Observe(e).Some?
    && BoundaryReason(s.current[|s.current| - 1], Observe(e).value).None?
  }

  lemma OpenEnds(l: seq<Event>, s: Scan, n: nat)
    requires n == |l| - 1 && OpenRun(l[..n], s)
    ensures Joins(s, l[n]) <==> n > 0 && !Cut(l, n)
  {
    assert s.current != [] ==> Observe(l[n - 1]) == Some(s.current[|s.current| - 1]);
    assert s.current == [] ==> n == 0 || Observe(l[n - 1]).None?;
    hide BoundaryReason, Observe;
  }

  lemma ExtendCases(s: Scan, n: nat, e: Event)
    ensures var s' := Extend(s, n, e);
            if Joins(s, e) then s'.segments == s.segments && s'.current == s.current + [Observe(e).value]
            else && s'.segments == Close(s, n).segments
                 && s'.current == if Observe(e).None? then [] else [Observe(e).value]
  {
    hide Observe, BoundaryReason;
    assert Observe(e).None? || [] + [Observe(e).value] == [Observe(e).value];
  }

  lemma TimeSnoc(l: seq<Event>, s: Scan, n: nat, o: Observation, s': Scan)
    requires n == |l| - 1 && n > 0 && s.current != [] && OpenTime(l[..n], s) && s'.current == s.current + [o]
    requires o.elapsedMs == l[n].elapsedMs && l[n - 1].elapsedMs <= l[n].elapsedMs
    ensures OpenTime(l, s') && Duration(s'.current) == Duration(s.current) + l[n].elapsedMs - l[n - 1].elapsedMs
  {
    assert l[..n][n - 1] == l[n - 1];
    DurationSnoc(s.current, o);
    hide Duration;
  }

  lemma TimeRestarts(l: seq<Event>, n: nat, o: Observation, s': Scan)
    requires n == |l| - 1 && o.elapsedMs == l[n].elapsedMs && s'.current == [o]
    ensures OpenTime(l, s') && Duration(s'.current) == 0
  {
  }

  lemma NothingOpen(l: seq<Event>, s': Scan)
    requires s'.current == []
    ensures OpenTime(l, s') && Duration(s'.current) == 0
  {
  }

  lemma ExtendTime(l: seq<Event>, s: Scan, n: nat)
    requires n == |l| - 1 && OpenRun(l[..n], s) && OpenTime(l[..n], s) && ElapsedMonotone(l)
    requires TotalDuration(s.segments) + Duration(s.current) == CleanTime(l[..n])
    ensures var s' := Extend(s, n, l[n]);
            OpenTime(l, s') && TotalDuration(s'.segments) + Duration(s'.current) == CleanTime(l)
  {
    assert n > 0 ==> l[n - 1].elapsedMs <= l[n].elapsedMs;
    hide TotalDuration, BoundaryReason, OpenRun, OpenTime, ElapsedMonotone, Observe, Complete, Close, Extend;
    hide CleanTime, Cut, Duration, Joins;
    var s' := Extend(s, n, l[n]);
    OpenEnds(l, s, n);
    ObserveExactly(l[n]);
    CleanTimeSnoc(l, n);
    ExtendCases(s, n, l[n]);
    if Joins(s, l[n]) {
      JoinsOpen(s, l[n]);
      TimeSnoc(l, s, n, Observe(l[n]).value, s');
    } else {
      CloseDuration(s, n);
      if Observe(l[n]).None? {
        NothingOpen(l, s');
      } else {
        TimeRestarts(l, n, Observe(l[n]).value, s');
      }
    }
  }

  lemma JoinsOpen(s: Scan, e: Event)
    requires Joins(s, e)
    ensures s.current != [] && Observe(e).Some?
  {
  }

  lemma CleanTimeSnoc(l: seq<Event>, n: nat)
    requires n == |l| - 1
    ensures CleanTime(l) == if n == 0 then 0
                            else CleanTime(l[..n]) + if Cut(l, n) then 0
                                                     else SaturatingSub(l[n].elapsedMs, l[n - 1].elapsedMs)
    ensures n == 0 ==> CleanTime(l[..n]) == 0
  {
    hide Cut;
  }

  lemma {:induction false} ScanDuration(l: seq<Event>)
    requires ElapsedMonotone(l)
    ensures var s := ScanAll(l); OpenTime(l, s) && TotalDuration(s.segments) + Duration(s.current) == CleanTime(l)
  {
    if l != [] {
      var n := |l| - 1;
      ScanDuration(l[..n]);
      OpenRunKept(l[..n]);
      ExtendTime(l, ScanAll(l[..n]), n);
      assert ScanAll(l) == Extend(ScanAll(l[..n]), n, l[n]);
    }
    hide OpenRun, OpenTime, Extend, CleanTime;
  }

  lemma {:induction false} CleanTimeIsBounded(l: seq<Event>)
    requires ElapsedMonotone(l)
    ensures CleanTime(l) <= LastElapsed(l)
  {
    if |l| > 1 {
      CleanTimeIsBounded(l[..|l| - 1]);
      assert l[|l| - 2].elapsedMs <= l[|l| - 1].elapsedMs;
    }
    hide Cut;
  }

  /** The usable duration is exactly the time between neighbours that belong together, no more than was observed. */
  lemma UsableIsCleanTime(l: seq<Event>)
    requires ElapsedMonotone(l)
    ensures TotalDuration(Segmentation(l).segments) == CleanTime(l) <= LastElapsed(l)
  {
    ScanDuration(l);
    CloseDuration(ScanAll(l), |l|);
    CleanTimeIsBounded(l);
    hide CleanTime, TotalDuration;
  }

  // ---- Windows ----

  /** The first index, from `i` on, at which the elapsed time has reached `end`. */
  function FirstReaching(segment: seq<Observation>, i: nat, end: nat): (r: Option<nat>)
    requires i <= |segment|
    ensures r.Some? ==> i <= r.value < |segment| && segment[r.value].elapsedMs >= end
    ensures forall k :: i <= k < (if r.Some? then r.value else |segment|) ==> segment[k].elapsedMs < end
    decreases |segment| - i
  {
    if i == |segment| then None
    else if segment[i].elapsedMs >= end then Some(i)
    else FirstReaching(segment, i + 1, end)
  }

  predicate Within(segment: seq<Observation>, ws: seq<(nat, nat)>) {
    forall k :: 0 <= k < |ws| ==> ws[k].0 < ws[k].1 < |segment|
  }

  /** The candidate windows of a segment from `start` on, as pairs of first and last index. */
  function Windows(segment: seq<Observation>, start: nat): (r: seq<(nat, nat)>)
    requires start < |segment|
    ensures forall k :: 0 <= k < |r| ==> start <= r[k].0 < r[k].1 < |segment|
    ensures Within(segment, r)
    decreases |segment| - start
  {
    match FirstReaching(segment, start, segment[start].elapsedMs + WINDOW_MS)
    case None => []
    case Some(end) => [(start, end)] + Windows(segment, end)
  }

  function WindowDuration(segment: seq<Observation>, w: (nat, nat)): nat
    requires w.0 < |segment| && w.1 < |segment|
  {
    SaturatingSub(segment[w.1].elapsedMs, segment[w.0].elapsedMs)
  }

  ghost predicate NoGap(segment: seq<Observation>) {
    forall i :: 0 < i < |segment| ==> segment[i].elapsedMs <= segment[i - 1].elapsedMs + MAX_EVENT_GAP_MS
  }

  /**
   * A candidate window lasts at least 300,000 and less than 302,000 ms, so the minimum-duration test
   * never rejects one; consecutive windows share exactly the observation between them.
   */
  lemma {:induction false} WindowsAreTight(segment: seq<Observation>, start: nat)
    requires start < |segment| && NoGap(segment)
    ensures var ws := Windows(segment, start);
            && (ws != [] ==> ws[0].0 == start)
            && (forall k :: 0 <= k < |ws| ==>
                  300_000 <= WindowDuration(segment, ws[k]) < 302_000)
            && (forall k :: 0 < k < |ws| ==> ws[k].0 == ws[k - 1].1)
    decreases |segment| - start
  {
    var end := FirstReaching(segment, start, segment[start].elapsedMs + WINDOW_MS);
    if end.Some? {
      WindowsAreTight(segment, end.value);
      assert segment[end.value - 1].elapsedMs < segment[start].elapsedMs + WINDOW_MS;
    }
  }

  /** A window ends at the first observation 300,000 ms after its start. */
  ghost predicate Shortest(segment: seq<Observation>, w: (nat, nat)) {
    && w.0 < w.1 < |segment| && segment[w.1].elapsedMs >= segment[w.0].elapsedMs + 300_000
    && forall i :: w.0 <= i < w.1 ==> segment[i].elapsedMs < segment[w.0].elapsedMs + 300_000
  }

  ghost predicate AllShortest(segment: seq<Observation>, ws: seq<(nat, nat)>) {
    forall k :: 0 <= k < |ws| ==> Shortest(segment, ws[k])
  }

  ghost predicate Chained(ws: seq<(nat, nat)>, start: nat) {
    && (ws != [] ==> ws[0].0 == start)
    && (forall k :: 0 < k < |ws| ==> ws[k].0 == ws[k - 1].1)
  }

  function LastEnd(ws: seq<(nat, nat)>, start: nat): nat { if ws == [] then start else ws[|ws| - 1].1 }

  /** No further window starts at `last`: what follows is too short. */
  ghost predicate Exhausted(segment: seq<Observation>, last: nat) {
    last < |segment| && forall i :: last <= i < |segment| ==> segment[i].elapsedMs < segment[last].elapsedMs + 300_000
  }

  lemma ChainCons(segment: seq<Observation>, w: (nat, nat), rest: seq<(nat, nat)>)
    requires Shortest(segment, w) && AllShortest(segment, rest) && Chained(rest, w.1)
    ensures AllShortest(segment, [w] + rest) && Chained([w] + rest, w.0)
    ensures LastEnd([w] + rest, w.0) == LastEnd(rest, w.1)
  {
    hide Shortest;
  }

  /**
   * The candidate windows are all there are: each is the shortest from its start, the next one starts where it
   * ends, and after the last one no other fits.
   */
  lemma {:induction false} WindowsAreAll(segment: seq<Observation>, start: nat)
    requires start < |segment|
    ensures var ws := Windows(segment, start);
            AllShortest(segment, ws) && Chained(ws, start) && Exhausted(segment, LastEnd(ws, start))
    decreases |segment| - start
  {
    hide AllShortest, Chained, LastEnd, Exhausted, Windows;
    WindowsStep(segment, start);
    var end := FirstReaching(segment, start, segment[start].elapsedMs + WINDOW_MS);
    if end.Some? {
      WindowsAreAll(segment, end.value);
      FirstIsShortest(segment, start);
      ChainCons(segment, (start, end.value), Windows(segment, end.value));
    } else {
      NoneLeft(segment, start);
    }
  }

  lemma FirstIsShortest(segment: seq<Observation>, start: nat)
    requires start < |segment|
    ensures var end := FirstReaching(segment, start, segment[start].elapsedMs + WINDOW_MS);
            if end.Some? then Shortest(segment, (start, end.value)) else Exhausted(segment, start)
  {
  }

  lemma NoneLeft(segment: seq<Observation>, start: nat)
    requires start < |segment| && FirstReaching(segment, start, segment[start].elapsedMs + WINDOW_MS).None?
    ensures AllShortest(segment, []) && Chained([], start) && Exhausted(segment, LastEnd([], start))
  {
    FirstIsShortest(segment, start);
    hide Exhausted;
  }

  function WindowTotal(segment: seq<Observation>, ws: seq<(nat, nat)>): nat
    requires forall k :: 0 <= k < |ws| ==> ws[k].0 < |segment| && ws[k].1 < |segment|
  {
    if ws == [] then 0 else WindowDuration(segment, ws[0]) + WindowTotal(segment, ws[1..])
  }

  /** Together the windows of a segment last no longer than the segment. */
  lemma {:induction false} WindowsWithinSegment(segment: seq<Observation>, start: nat)
    requires start < |segment| && Rising(segment)
    ensures WindowTotal(segment, Windows(segment, start)) <= segment[|segment| - 1].elapsedMs - segment[start].elapsedMs
    decreases |segment| - start
  {
    var end := FirstReaching(segment, start, segment[start].elapsedMs + WINDOW_MS);
    if end.Some? {
      WindowsWithinSegment(segment, end.value);
      assert ([(start, end.value)] + Windows(segment, end.value))[1..] == Windows(segment, end.value);
    }
  }

  /** Segments meet what the window lemma asks for. */
  lemma SegmentsHaveNoGap(l: seq<Event>, k: nat)
    requires k < |Segmentation(l).segments|
    ensures NoGap(Segmentation(l).segments[k])
  {
    var segment := Segmentation(l).segments[k];
    forall i | 0 < i < |segment| ensures segment[i].elapsedMs <= segment[i - 1].elapsedMs + MAX_EVENT_GAP_MS {
      CleanPair(l, k, i - 1);
    }
    hide Segmentation;
  }

  ghost predicate Rising(segment: seq<Observation>) {
    forall i, j :: 0 <= i < j < |segment| ==> segment[i].elapsedMs <= segment[j].elapsedMs
  }

  function AllWindowTotal(segments: seq<seq<Observation>>): nat {
    if segments == [] then 0 else
    var last := segments[|segments| - 1];
    AllWindowTotal(segments[..|segments| - 1]) + if last == [] then 0 else WindowTotal(last, Windows(last, 0))
  }

  lemma {:induction false} WindowsWithinUsable(segments: seq<seq<Observation>>)
    requires forall k :: 0 <= k < |segments| ==> Rising(segments[k])
    ensures AllWindowTotal(segments) <= TotalDuration(segments)
  {
    if segments != [] {
      var last := segments[|segments| - 1];
      WindowsWithinUsable(segments[..|segments| - 1]);
      if last != [] {
        WindowsWithinSegment(last, 0);
      }
    }
  }

  lemma {:induction false} ScoredRises(events: seq<Event>)
    requires ElapsedMonotone(events)
    ensures ElapsedMonotone(Scored(events)) && LastElapsed(Scored(events)) <= LastElapsed(events)
  {
    if events != [] {
      ScoredRises(events[..|events| - 1]);
    }
  }

  lemma {:induction false} MonotoneOver(l: seq<Event>, i: nat, j: nat)
    requires ElapsedMonotone(l) && i <= j < |l|
    ensures l[i].elapsedMs <= l[j].elapsedMs
    decreases j - i
  {
    if i < j {
      MonotoneOver(l, i, j - 1);
    }
  }

  lemma SegmentRises(l: seq<Event>, k: nat)
    requires ElapsedMonotone(l) && k < |Segmentation(l).segments|
    ensures Rising(Segmentation(l).segments[k])
  {
    SegmentsAreSlices(l);
    var segment, lo := Segmentation(l).segments[k], Segmentation(l).bounds[k].0;
    assert Slice(l, Segmentation(l).bounds[k], segment);
    hide Segmentation;
    forall i, j | 0 <= i < j < |segment| ensures segment[i].elapsedMs <= segment[j].elapsedMs {
      MonotoneOver(l, lo + i, lo + j);
      assert Observe(l[lo + i]) == Some(segment[i]) && Observe(l[lo + j]) == Some(segment[j]);
    }
  }

  /** Window time <= usable time <= observed time, for every list of events in elapsed order. */
  lemma ClockBudget(events: seq<Event>)
    requires ElapsedMonotone(events)
    ensures var segments := Segmentation(Scored(events)).segments;
            AllWindowTotal(segments) <= TotalDuration(segments) <= LastElapsed(events)
  {
    var l := Scored(events);
    ScoredRises(events);
    UsableIsCleanTime(l);
    forall k | 0 <= k < |Segmentation(l).segments| ensures Rising(Segmentation(l).segments[k]) {
      SegmentRises(l, k);
    }
    hide Segmentation, Rising, AllWindowTotal, TotalDuration;
    WindowsWithinUsable(Segmentation(l).segments);
  }

  // ---- The loops ----

  method CleanSegments(events: seq<Event>) returns (segments: seq<seq<Observation>>, excluded: seq<Excluded>)
    ensures segments == Segmentation(Scored(events)).segments
    ensures excluded == ScanAll(Scored(events)).excluded
  {
    hide Scored, ScanAll, Extend, Close, Observe, BoundaryReason;
    NothingScanned();
    segments, excluded := [], [];
    var current: seq<Observation> := [];
    var previous: Option<Observation> := None;
    for i := 0 to |events|
      invariant var s := ScanAll(Scored(events[..i]));
                segments == s.segments && excluded == s.excluded && current == s.current
      invariant previous == LastOf(current)
    {
      var event := events[i];
      ScoredSnoc(events, i);
      ExtendFields(ScanAll(Scored(events[..i])), |Scored(events[..i])|, event);
      if event.kind.Periodic? || event.kind.Final? {
        var observation := Observe(event);
        if observation.None? {
          segments := FinishSegment(segments, current);
          current, previous := [], None;
          excluded := excluded + [Excluded(event.elapsedMs, MissingObservation)];
        } else {
          if previous.Some? {
            var reason := BoundaryReason(previous.value, observation.value);
            if reason.Some? {
              segments := FinishSegment(segments, current);
              current := [];
              excluded := excluded + [Excluded(observation.value.elapsedMs, reason.value)];
            }
          }
          current := current + [observation.value];
          previous := observation;
        }
      }
    }
    assert events[..|events|] == events;
    CloseFields(ScanAll(Scored(events)), |Scored(events)|);
    segments := FinishSegment(segments, current);
  }

  function LastOf(current: seq<Observation>): Option<Observation> {
    if current == [] then None else Some(current[|current| - 1])
  }

  lemma NothingScanned()
    ensures Scored([]) == [] && ScanAll([]) == Scan([], [], [], 0, [])
  {
  }

  lemma CloseFields(s: Scan, n: nat)
    ensures Close(s, n).segments == if |s.current| >= 2 then s.segments + [s.current] else s.segments
  {
  }

  lemma ExtendFields(s: Scan, n: nat, e: Event)
    ensures var s', closed, last := Extend(s, n, e), Close(s, n).segments, LastOf(s.current);
            match Observe(e)
            case None =>
              && s'.segments == closed && s'.current == []
              && s'.excluded == s.excluded + [Excluded(e.elapsedMs, MissingObservation)]
            case Some(o) =>
              var reason := if last.None? then None else BoundaryReason(last.value, o);
              if reason.None? then
                s'.segments == s.segments && s'.current == s.current + [o] && s'.excluded == s.excluded
              else
                && s'.segments == closed && s'.current == [o]
                && s'.excluded == s.excluded + [Excluded(o.elapsedMs, reason.value)]
    ensures Close(s, n).segments == if |s.current| >= 2 then s.segments + [s.current] else s.segments
  {
    hide Observe, BoundaryReason;
  }

  lemma ScoredSnoc(events: seq<Event>, i: nat)
    requires i < |events|
    ensures var l, e := Scored(events[..i]), events[i];
            && Scored(events[..i + 1]) == (if e.kind.Periodic? || e.kind.Final? then l + [e] else l)
            && ScanAll(l + [e]) == Extend(ScanAll(l), |l|, e)
  {
    var l := Scored(events[..i]);
    assert events[..i + 1][..i] == events[..i];
    assert (l + [events[i]])[..|l|] == l;
  }

  method FinishSegment(segments: seq<seq<Observation>>, current: seq<Observation>) returns (r: seq<seq<Observation>>)
    ensures |current| < 2 ==> r == segments
    ensures |current| >= 2 ==> r == segments + [current]
  {
    r := if |current| >= 2 then segments + [current] else segments;
  }

  /** The report of one window: it needs enough observations, and an analysis that succeeds. */
  function Report<R>(analyze: seq<Observation> -> Option<R>, observations: seq<Observation>): seq<R> {
    var report := analyze(observations);
    if |observations| >= MIN_WINDOW_OBSERVATIONS && report.Some? then [report.value] else []
  }

  /** The reports of one segment from its candidate windows. */
  function Reports<R>(analyze: seq<Observation> -> Option<R>, segment: seq<Observation>, ws: seq<(nat, nat)>): seq<R>
    requires Within(segment, ws)
  {
    if ws == [] then [] else
    Report(analyze, segment[ws[0].0..ws[0].1 + 1]) + Reports(analyze, segment, ws[1..])
  }

  lemma WindowsStep(segment: seq<Observation>, start: nat)
    requires start < |segment|
    ensures var end := FirstReaching(segment, start, segment[start].elapsedMs + WINDOW_MS);
            Windows(segment, start) == if end.None? then [] else [(start, end.value)] + Windows(segment, end.value)
  {
    hide FirstReaching, Within;
  }

  lemma NextWindow<R>(analyze: seq<Observation> -> Option<R>, segment: seq<Observation>, start: nat)
    requires start < |segment|
    ensures var end := FirstReaching(segment, start, segment[start].elapsedMs + WINDOW_MS);
            Reports(analyze, segment, Windows(segment, start))
            == if end.None? then []
               else Report(analyze, segment[start..end.value + 1])
                    + Reports(analyze, segment, Windows(segment, end.value))
  {
    var end := FirstReaching(segment, start, segment[start].elapsedMs + WINDOW_MS);
    hide FirstReaching, Report, Reports, Within, Windows;
    WindowsStep(segment, start);
    if end.Some? {
      ReportsCons(analyze, segment, (start, end.value), Windows(segment, end.value));
    } else {
      NoReports(analyze, segment);
    }
  }

  lemma WithinCons(segment: seq<Observation>, w: (nat, nat), rest: seq<(nat, nat)>)
    requires w.0 < w.1 < |segment| && Within(segment, rest)
    ensures Within(segment, [w] + rest)
  {
  }

  lemma ReportsCons<R>(
      analyze: seq<Observation> -> Option<R>, segment: seq<Observation>, w: (nat, nat), rest: seq<(nat, nat)>)
    requires w.0 < w.1 < |segment| && Within(segment, rest)
    ensures Within(segment, [w] + rest)
    ensures Reports(analyze, segment, [w] + rest)
         == Report(analyze, segment[w.0..w.1 + 1]) + Reports(analyze, segment, rest)
  {
    hide Report, Within;
    WithinCons(segment, w, rest);
    assert ([w] + rest)[1..] == rest && ([w] + rest)[0] == w;
  }

  lemma NoReports<R>(analyze: seq<Observation> -> Option<R>, segment: seq<Observation>)
    ensures Reports(analyze, segment, []) == []
  {
  }

  function AllReports<R>(analyze: seq<Observation> -> Option<R>, segments: seq<seq<Observation>>): seq<R> {
    if segments == [] then [] else
    AllReports(analyze, segments[..|segments| - 1])
      + if segments[|segments| - 1] == [] then []
        else Reports(analyze, segments[|segments| - 1], Windows(segments[|segments| - 1], 0))
  }

  /** Window `i` has 250 observations or more, and its analysis succeeds. */
  predicate Reported<R>(
    analyze: seq<Observation> -> Option<R>, segment: seq<Observation>, ws: seq<(nat, nat)>, i: nat)
  {
    && i < |ws| && ws[i].0 < ws[i].1 < |segment|
    && ws[i].1 + 1 - ws[i].0 >= 250 && analyze(segment[ws[i].0..ws[i].1 + 1]).Some?
  }

  /** `at` lists exactly the reported windows from `k` on, in order, and `reports` what they say. */
  ghost predicate Reporting<R>(
      analyze: seq<Observation> -> Option<R>, segment: seq<Observation>, ws: seq<(nat, nat)>, k: nat,
      at: seq<nat>, reports: seq<R>)
  {
    && |at| == |reports|
    && (forall i, j :: 0 <= i < j < |at| ==> at[i] < at[j])
    && (forall i :: 0 <= i < |at| ==> at[i] >= k && Reported(analyze, segment, ws, at[i]))
    && (forall i :: 0 <= i < |at| ==> Some(reports[i]) == analyze(segment[ws[at[i]].0..ws[at[i]].1 + 1]))
    && (forall i: nat :: k <= i && Reported(analyze, segment, ws, i) ==> i in at)
  }

  lemma ReportingCons<R>(
      analyze: seq<Observation> -> Option<R>, segment: seq<Observation>, ws: seq<(nat, nat)>, k: nat,
      at: seq<nat>, reports: seq<R>, report: R)
    requires Reporting(analyze, segment, ws, k + 1, at, reports)
    requires Reported(analyze, segment, ws, k) && analyze(segment[ws[k].0..ws[k].1 + 1]) == Some(report)
    ensures Reporting(analyze, segment, ws, k, [k] + at, [report] + reports)
  {
    hide Reported;
    forall i: nat | k <= i && Reported(analyze, segment, ws, i) ensures i in [k] + at {
      assert i == k || i in at;
    }
  }

  lemma ReportingSkips<R>(
      analyze: seq<Observation> -> Option<R>, segment: seq<Observation>, ws: seq<(nat, nat)>, k: nat,
      at: seq<nat>, reports: seq<R>)
    requires Reporting(analyze, segment, ws, k + 1, at, reports) && !Reported(analyze, segment, ws, k)
    ensures Reporting(analyze, segment, ws, k, at, reports)
  {
    hide Reported;
  }

  lemma SuffixWithin(segment: seq<Observation>, ws: seq<(nat, nat)>, k: nat)
    requires Within(segment, ws) && k < |ws|
    ensures Within(segment, ws[k + 1..]) && ws[k].0 < ws[k].1 < |segment| && ws[k..] == [ws[k]] + ws[k + 1..]
  {
  }

  lemma ReportingStep<R>(
      analyze: seq<Observation> -> Option<R>, segment: seq<Observation>, ws: seq<(nat, nat)>, k: nat, at: seq<nat>)
    requires Within(segment, ws) && k < |ws| && Within(segment, ws[k + 1..])
    requires Reporting(analyze, segment, ws, k + 1, at, Reports(analyze, segment, ws[k + 1..]))
    ensures Within(segment, ws[k..])
    ensures Reporting(analyze, segment, ws, k, if Reported(analyze, segment, ws, k) then [k] + at else at,
                      Reports(analyze, segment, ws[k..]))
  {
    hide Within, Reporting, Reports, Report, Reported;
    SuffixWithin(segment, ws, k);
    var rest := Reports(analyze, segment, ws[k + 1..]);
    ReportsCons(analyze, segment, ws[k], ws[k + 1..]);
    ReportOf(analyze, segment, ws, k);
    if Reported(analyze, segment, ws, k) {
      ReportingCons(analyze, segment, ws, k, at, rest, analyze(segment[ws[k].0..ws[k].1 + 1]).value);
    } else {
      ReportingSkips(analyze, segment, ws, k, at, rest);
      assert [] + rest == rest;
    }
  }

  lemma NothingReported<R>(
      analyze: seq<Observation> -> Option<R>, segment: seq<Observation>, ws: seq<(nat, nat)>)
    ensures Reporting(analyze, segment, ws, |ws|, [], [])
  {
  }

  /** The reports are those of exactly the windows that are large enough and can be analysed, in order. */
  lemma {:induction false} ReportsAreExact<R>(
      analyze: seq<Observation> -> Option<R>, segment: seq<Observation>, ws: seq<(nat, nat)>, k: nat)
    returns (at: seq<nat>)
    requires Within(segment, ws) && k <= |ws|
    ensures Within(segment, ws[k..]) && Reporting(analyze, segment, ws, k, at, Reports(analyze, segment, ws[k..]))
    decreases |ws| - k
  {
    hide Reporting, Reports, Report, Reported;
    if k < |ws| {
      SuffixWithin(segment, ws, k);
      hide Within;
      at := ReportsAreExact(analyze, segment, ws, k + 1);
      ReportingStep(analyze, segment, ws, k, at);
      at := if Reported(analyze, segment, ws, k) then [k] + at else at;
    } else {
      at := [];
      NoReports(analyze, segment);
      NothingReported(analyze, segment, ws);
      assert ws[k..] == [];
    }
  }

  lemma ReportOf<R>(
      analyze: seq<Observation> -> Option<R>, segment: seq<Observation>, ws: seq<(nat, nat)>, k: nat)
    requires k < |ws| && ws[k].0 < ws[k].1 < |segment|
    ensures var report := analyze(segment[ws[k].0..ws[k].1 + 1]);
            && (Reported(analyze, segment, ws, k) ==> report.Some?)
            && Report(analyze, segment[ws[k].0..ws[k].1 + 1])
               == if Reported(analyze, segment, ws, k) then [report.value] else []
  {
  }

  lemma ReportIs<R>(analyze: seq<Observation> -> Option<R>, observations: seq<Observation>)
    ensures Report(analyze, observations)
         == if |observations| >= MIN_WINDOW_OBSERVATIONS && analyze(observations).Some?
            then [analyze(observations).value] else []
  {
  }

  lemma Concat<T>(a: seq<T>, b: seq<T>, c: seq<T>)
    ensures (a + b) + c == a + (b + c) && a + [] == a
  {
  }

  /** The inner loop of `clock_windows`, with the source's own minimum-duration test. */
  method SegmentWindows<R>(analyze: seq<Observation> -> Option<R>, segment: seq<Observation>) returns (reports: seq<R>)
    ensures reports == if segment == [] then [] else Reports(analyze, segment, Windows(segment, 0))
  {
    hide Windows, Reports, Report, FirstReaching, Within;
    reports := [];
    var startIndex := 0;
    while startIndex < |segment|
      invariant segment == [] ==> startIndex == 0 && reports == []
      invariant segment != [] ==> startIndex < |segment|
      invariant segment != [] ==>
        Reports(analyze, segment, Windows(segment, 0))
        == reports + Reports(analyze, segment, Windows(segment, startIndex))
      decreases |segment| - startIndex
    {
      var end := FirstReaching(segment, startIndex, segment[startIndex].elapsedMs + WINDOW_MS);
      NextWindow(analyze, segment, startIndex);
      if end.None? {
        Concat(reports, [], []);
        break;
      }
      var observations := segment[startIndex..end.value + 1];
      var duration := SaturatingSub(observations[|observations| - 1].elapsedMs, observations[0].elapsedMs);
      Concat(reports, Report(analyze, observations), Reports(analyze, segment, Windows(segment, end.value)));
      ReportIs(analyze, observations);
      if duration >= MIN_WINDOW_DURATION_MS && |observations| >= MIN_WINDOW_OBSERVATIONS {
        var report := analyze(observations);
        if report.Some? {
          reports := reports + [report.value];
        }
      }
      startIndex := end.value;
    }
  }

  method ClockWindows<R>(analyze: seq<Observation> -> Option<R>, segments: seq<seq<Observation>>, ratesKnown: bool)
    returns (reports: seq<R>)
    ensures reports == if ratesKnown then AllReports(analyze, segments) else []
  {
    reports := [];
    if !ratesKnown {
      return;
    }
    for i := 0 to |segments|
      invariant reports == AllReports(analyze, segments[..i])
    {
      assert segments[..i + 1][..i] == segments[..i];
      var more := SegmentWindows(analyze, segments[i]);
      reports := reports + more;
    }
    assert segments[..|segments|] == segments;
  }

  // ---- Growing queues ----

  function Depths(events: seq<Event>, render: bool): seq<nat> {
    if events == [] then [] else
    var e := events[|events| - 1];
    Depths(events[..|events| - 1], render)
      + if e.kind.Periodic? then [if render then e.renderQueueDepth else e.queueDepth] else []
  }

  ghost predicate Grows(d: seq<nat>, i: int) {
    0 <= i && i + 3 < |d| && d[i] < d[i + 1] < d[i + 2] < d[i + 3]
  }

  /** Four consecutive depths that strictly increase. */
  ghost predicate Growing(d: seq<nat>) { exists i :: Grows(d, i) }

  /** The length, up to three, of the strictly increasing tail, in steps. */
  ghost predicate Tail(d: seq<nat>, steps: nat) {
    && steps < 3 && (d != [] ==> steps < |d|) && (d == [] ==> steps == 0)
    && (forall i :: 0 < i < |d| && |d| - steps <= i ==> d[i - 1] < d[i])
    && (steps + 1 < |d| ==> d[|d| - steps - 2] >= d[|d| - steps - 1])
  }

  lemma TailStep(d: seq<nat>, steps: nat, depth: nat)
    requires Tail(d, steps) && !Growing(d)
    ensures var d' := d + [depth];
            if d == [] || depth <= d[|d| - 1] then Tail(d', 0) && !Growing(d')
            else if steps == 2 then Grows(d', |d'| - 4)
            else Tail(d', steps + 1) && !Growing(d')
  {
    var d' := d + [depth];
    forall k | Grows(d', k) ensures !(d == [] || depth <= d[|d| - 1]) && steps == 2 {
      assert !Grows(d, k);
      assert k + 3 == |d|;
    }
  }

  lemma DepthsSnoc(events: seq<Event>, i: nat, render: bool)
    requires i < |events|
    ensures var d, e := Depths(events[..i], render), events[i];
            Depths(events[..i + 1], render)
            == if e.kind.Periodic? then d + [if render then e.renderQueueDepth else e.queueDepth] else d
  {
    assert events[..i + 1][..i] == events[..i];
  }

  function LastDepth(d: seq<nat>): Option<nat> { if d == [] then None else Some(d[|d| - 1]) }

  /** What one more periodic depth makes of the tail; `growing` says whether the queue is known to grow. */
  ghost predicate DepthAdded(d: seq<nat>, steps: nat, d': seq<nat>, depth: nat, growing: bool) {
    && LastDepth(d') == Some(depth)
    && if LastDepth(d).None? || depth <= LastDepth(d).value then Tail(d', 0) && !Growing(d')
       else if steps == 2 then growing
       else Tail(d', steps + 1) && !Growing(d')
  }

  lemma TailAdds(d: seq<nat>, steps: nat, depth: nat)
    requires Tail(d, steps) && !Growing(d)
    ensures var d' := d + [depth]; DepthAdded(d, steps, d', depth, Grows(d', |d'| - 4))
  {
    TailStep(d, steps, depth);
    hide Tail, Growing, Grows;
  }

  lemma Known(d: seq<nat>, steps: nat, d': seq<nat>, depth: nat, before: bool, after: bool)
    requires DepthAdded(d, steps, d', depth, before) && (before ==> after)
    ensures DepthAdded(d, steps, d', depth, after)
  {
    hide Tail, Growing;
  }

  lemma DepthStep(events: seq<Event>, i: nat, render: bool, steps: nat)
    requires i < |events| && Tail(Depths(events[..i], render), steps) && !Growing(Depths(events[..i], render))
    ensures var (d, d', e) := (Depths(events[..i], render), Depths(events[..i + 1], render), events[i]);
            if !e.kind.Periodic? then d' == d
            else DepthAdded(d, steps, d', if render then e.renderQueueDepth else e.queueDepth,
                            Growing(Depths(events, render)))
  {
    var d, e := Depths(events[..i], render), events[i];
    var depth := if render then e.renderQueueDepth else e.queueDepth;
    hide Depths, Tail, Growing, Grows, DepthAdded;
    DepthsSnoc(events, i, render);
    if e.kind.Periodic? {
      var d' := d + [depth];
      TailAdds(d, steps, depth);
      if Grows(d', |d'| - 4) {
        GrowsForGood(events, i + 1, render);
      }
      Known(d, steps, d', depth, Grows(d', |d'| - 4), Growing(Depths(events, render)));
    }
  }

  lemma NoDepths(render: bool)
    ensures var d := Depths([], render); Tail(d, 0) && !Growing(d) && LastDepth(d).None?
  {
  }

  /** A queue grows exactly when four consecutive periodic depths strictly increase. */
  method HasGrowingQueue(events: seq<Event>, render: bool) returns (growing: bool)
    ensures growing <==> Growing(Depths(events, render))
  {
    hide Tail, Depths, Growing, LastDepth;
    NoDepths(render);
    var previous: Option<nat> := None;
    var increases := 0;
    for i := 0 to |events|
      invariant increases <= 2
      invariant Tail(Depths(events[..i], render), increases)
      invariant !Growing(Depths(events[..i], render))
      invariant previous == LastDepth(Depths(events[..i], render))
    {
      var event := events[i];
      DepthStep(events, i, render, increases);
      if event.kind.Periodic? {
        var depth := if render then event.renderQueueDepth else event.queueDepth;
        if previous.Some? && depth > previous.value {
          increases := increases + 1;
          if increases >= 3 {
            return true;
          }
        } else {
          increases := 0;
        }
        previous := Some(depth);
      }
    }
    assert events[..|events|] == events;
    growing := false;
  }

  function IsPeriodic(events: seq<Event>): nat -> bool { (i: nat) => i < |events| && events[i].kind == Periodic }

  function DepthAt(events: seq<Event>, render: bool): nat -> Option<nat> {
    (i: nat) =>
      if i >= |events| then None
      else Some(if render then events[i].renderQueueDepth else events[i].queueDepth)
  }

  /** The depths are those of the periodic events, in order, of the queue asked for. */
  lemma {:induction false} DepthsAreFilter(events: seq<Event>, render: bool, n: nat) returns (at: seq<nat>)
    requires n <= |events|
    ensures Picked(at, n, IsPeriodic(events)) && Read<nat>(DepthAt(events, render), at, Depths(events[..n], render))
  {
    hide Picked, Read;
    at := [];
    if n == 0 {
      NonePicked(IsPeriodic(events));
      NothingRead<nat>(DepthAt(events, render));
      assert Depths(events[..0], render) == [];
    } else {
      var m := n - 1;
      at := DepthsAreFilter(events, render, m);
      hide Depths;
      DepthsSnoc(events, m, render);
      PickedSnoc(at, m, IsPeriodic(events));
      if IsPeriodic(events)(m) {
        var depth := if render then events[m].renderQueueDepth else events[m].queueDepth;
        ReadSnoc<nat>(DepthAt(events, render), at, Depths(events[..m], render), m, depth);
        at := at + [m];
      }
    }
  }

  lemma GrowsForGood(events: seq<Event>, n: nat, render: bool)
    requires n <= |events| && Grows(Depths(events[..n], render), |Depths(events[..n], render)| - 4)
    ensures Growing(Depths(events, render))
  {
    DepthsPrefix(events, n, render);
    hide Depths;
    assert Grows(Depths(events, render), |Depths(events[..n], render)| - 4);
  }

  lemma {:induction false} DepthsPrefix(events: seq<Event>, n: nat, render: bool)
    requires n <= |events|
    ensures Depths(events[..n], render) <= Depths(events, render)
    decreases |events|
  {
    if n == |events| {
      assert events[..n] == events;
    } else {
      var init := events[..|events| - 1];
      assert init[..n] == events[..n];
      DepthsPrefix(init, n, render);
    }
  }
}
