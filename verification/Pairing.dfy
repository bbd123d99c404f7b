/** `select_render_frame` of crates/mini-aec-engine/src/runtime.rs: pairing by QPC timestamp. */
module Pairing {
  import opened AudioTypes
  import opened TimedFraming

  const ALIGNMENT_TOLERANCE_100NS: int := 50_000
  const I64_MAX: int := 0x7FFF_FFFF_FFFF_FFFF

  /** The difference of two unsigned ticks, saturated to a signed 64-bit value. */
  function SignedDelta(left: nat, right: nat): int {
    Max(-I64_MAX - 1, Min(I64_MAX, left - right))
  }

  /**
   * Everything the environment answers, in order: what each pop of the render queue returns and whether
   * each canceller can be created. A timeout and an empty queue both answer None. When a list runs out,
   * pops find nothing and creations succeed, so every finite behaviour of the other threads is covered.
   */
  datatype Answers = Answers(pops: seq<Option<TimedFrame>>, creates: seq<bool>)

  function NextPop(a: Answers): (Option<TimedFrame>, Answers) {
    if a.pops == [] then (None, a) else (a.pops[0], a.(pops := a.pops[1..]))
  }

  function NextCreate(a: Answers): (bool, Answers) {
    if a.creates == [] then (true, a) else (a.creates[0], a.(creates := a.creates[1..]))
  }

  datatype Render = Render(held: Option<TimedFrame>, waitExhausted: bool)

  function Listed(frame: Option<TimedFrame>): seq<TimedFrame> {
    if frame.Some? then [frame.value] else []
  }

  /** The frames among a list of answers. */
  function Frames(pops: seq<Option<TimedFrame>>): seq<TimedFrame> {
    if pops == [] then [] else Listed(pops[0]) + Frames(pops[1..])
  }

  /** What one selection did: the frames it dropped as stale and the one it paired, if any. */
  datatype Selected = Selected(
    render: Render, answers: Answers, stale: seq<TimedFrame>, paired: Option<TimedFrame>,
    delta: Option<int>, rebuilds: nat, failed: bool)

  /** Drops stale frames; every marked frame that is examined rebuilds the canceller, or ends the run. */
  function Scan(microphone: nat, r: Render, a: Answers): (s: Selected)
    decreases |a.pops| + |Listed(r.held)|
  {
    if r.held.None? then Selected(r, a, [], None, None, 0, false) else
    var candidate := r.held.value;
    var delta := SignedDelta(candidate.qpc, microphone);
    var (created, a') := if candidate.reset then NextCreate(a) else (true, a);
    var rebuilds := if candidate.reset then 1 else 0;
    if !created then Selected(r, a', [], None, None, 0, true)
    else if delta < -ALIGNMENT_TOLERANCE_100NS then
      var (next, a'') := NextPop(a');
      var rest := Scan(microphone, r.(held := next), a'');
      rest.(stale := [candidate] + rest.stale, rebuilds := rebuilds + rest.rebuilds)
    else if delta <= ALIGNMENT_TOLERANCE_100NS then
      var (next, a'') := NextPop(a');
      Selected(Render(next, false), a'', [], Some(candidate), Some(delta), rebuilds, false)
    else
      Selected(r, a', [], None, Some(delta), rebuilds, false)
  }

  /** A scan continued after some frames were already dropped. */
  function After(stale: seq<TimedFrame>, rebuilds: nat, rest: Selected): Selected {
    rest.(stale := stale + rest.stale, rebuilds := rebuilds + rest.rebuilds)
  }

  lemma PoppedLess(a: Answers)
    ensures |NextPop(a).1.pops| + |Listed(NextPop(a).0)| < |a.pops| + 1
  {
  }

  lemma ScanNothing(microphone: nat, r: Render, a: Answers)
    requires r.held.None?
    ensures Scan(microphone, r, a) == Selected(r, a, [], None, None, 0, false)
  {
  }

  /** What a scan makes of the frame it holds. */
  lemma LookAt(microphone: nat, r: Render, a: Answers)
    requires r.held.Some?
    ensures var f, s := r.held.value, Scan(microphone, r, a);
            var (created, a') := if f.reset then NextCreate(a) else (true, a);
            var n, delta := if f.reset then 1 else 0, SignedDelta(f.qpc, microphone);
            var (next, a'') := NextPop(a');
            && a'.pops == a.pops
            && s == (if !created then Selected(r, a', [], None, None, 0, true)
                     else if delta < -ALIGNMENT_TOLERANCE_100NS then
                       After([f], n, Scan(microphone, r.(held := next), a''))
                     else if delta <= ALIGNMENT_TOLERANCE_100NS then
                       Selected(Render(next, false), a'', [], Some(f), Some(delta), n, false)
                     else Selected(r, a', [], None, Some(delta), n, false))
  {
    hide SignedDelta;
  }

  function Select(microphone: nat, r: Render, a: Answers): Selected {
    if r.held.Some? then Scan(microphone, r, a) else
    var (next, a') := NextPop(a);
    Scan(microphone, Render(next, next.None?), a')
  }

  /** The render frames the worker has in hand or will still be given. */
  function Remaining(r: Render, a: Answers): seq<TimedFrame> { Listed(r.held) + Frames(a.pops) }

  lemma NextPopFrames(a: Answers)
    ensures Frames(a.pops) == Listed(NextPop(a).0) + Frames(NextPop(a).1.pops)
  {
  }

  lemma Prepend<T>(x: T, a: seq<T>, b: seq<T>, c: seq<T>)
    ensures [x] + (a + b + c) == [x] + a + b + c
  {
  }

  lemma {:induction false} ScanConserves(microphone: nat, r: Render, a: Answers)
    ensures var s := Scan(microphone, r, a);
            Remaining(r, a) == s.stale + Listed(s.paired) + Remaining(s.render, s.answers)
    decreases |a.pops| + |Listed(r.held)|
  {
    hide Scan, NextPop, NextCreate, SignedDelta, Frames;
    if r.held.None? {
      ScanNothing(microphone, r, a);
    } else {
      LookAt(microphone, r, a);
      var candidate := r.held.value;
      var (created, a') := if candidate.reset then NextCreate(a) else (true, a);
      NextPopFrames(a');
      if created && SignedDelta(candidate.qpc, microphone) < -ALIGNMENT_TOLERANCE_100NS {
        var (next, a'') := NextPop(a');
        PoppedLess(a');
        ScanConserves(microphone, r.(held := next), a'');
        var rest := Scan(microphone, r.(held := next), a'');
        Prepend(candidate, rest.stale, Listed(rest.paired), Remaining(rest.render, rest.answers));
      }
    }
  }

  /** No frame is lost, replayed or reordered by a selection, whatever the environment answers. */
  lemma SelectConserves(microphone: nat, r: Render, a: Answers)
    ensures var s := Select(microphone, r, a);
            Remaining(r, a) == s.stale + Listed(s.paired) + Remaining(s.render, s.answers)
  {
    if r.held.Some? {
      ScanConserves(microphone, r, a);
    } else {
      var (next, a') := NextPop(a);
      ScanConserves(microphone, Render(next, next.None?), a');
    }
  }

  ghost predicate Compatible(microphone: nat, render: nat) {
    -50_000 <= render - microphone <= 50_000
  }

  /**
   * What a selection may answer: stale frames are hopeless for good; a pair is within tolerance, a miss
   * holds a frame beyond it, both with the true distance; and no distance means no frame.
   */
  ghost predicate Sound(microphone: nat, s: Selected) {
    && (forall f :: f in s.stale ==> forall later: nat :: microphone <= later ==> !Compatible(later, f.qpc))
    && (s.paired.Some? ==>
          Compatible(microphone, s.paired.value.qpc) && s.delta == Some(s.paired.value.qpc - microphone))
    && (s.delta.Some? && s.paired.None? ==>
          && s.render.held.Some? && microphone + 50_000 < s.render.held.value.qpc
          && s.delta == Some(Min(0x7FFF_FFFF_FFFF_FFFF, s.render.held.value.qpc - microphone)))
    && (!s.failed && s.delta.None? ==> s.render.held.None? && s.paired.None?)
    && (s.failed ==> s.render.held.Some? && s.paired.None? && s.delta.None?)
  }

  lemma {:induction false} ScanIsSound(microphone: nat, r: Render, a: Answers)
    ensures Sound(microphone, Scan(microphone, r, a))
    decreases |a.pops| + |Listed(r.held)|
  {
    hide Scan;
    if r.held.None? {
      ScanNothing(microphone, r, a);
    } else {
      LookAt(microphone, r, a);
      var candidate := r.held.value;
      var (created, a') := if candidate.reset then NextCreate(a) else (true, a);
      if created && SignedDelta(candidate.qpc, microphone) < -ALIGNMENT_TOLERANCE_100NS {
        var (next, a'') := NextPop(a');
        ScanIsSound(microphone, r.(held := next), a'');
      }
    }
  }

  lemma SelectIsSound(microphone: nat, r: Render, a: Answers)
    ensures Sound(microphone, Select(microphone, r, a))
  {
    hide Sound;
    if r.held.Some? {
      ScanIsSound(microphone, r, a);
    } else {
      var (next, a') := NextPop(a);
      ScanIsSound(microphone, Render(next, next.None?), a');
    }
  }

  // ---- Rebuilds ----

  predicate IsMarked(f: TimedFrame) { f.reset }

  /** The render frames a selection looked at, in order. */
  function LookedAt(s: Selected): seq<TimedFrame> {
    s.stale + Listed(s.paired) + if s.paired.None? then Listed(s.render.held) else []
  }

  /** `n` creations were asked for and succeeded, and with `failed` one more that did not. */
  ghost predicate Created(before: seq<bool>, n: nat, failed: bool, after: seq<bool>) {
    && (forall i :: 0 <= i < n && i < |before| ==> before[i])
    && (failed ==> n < |before| && !before[n])
    && after == before[Min(n + if failed then 1 else 0, |before|)..]
  }

  lemma CreatedOne(a: Answers)
    ensures var (created, a') := NextCreate(a);
            Created(a.creates, if created then 1 else 0, !created, a'.creates)
  {
  }

  lemma CreatedNone(creates: seq<bool>)
    ensures Created(creates, 0, false, creates)
  {
  }

  lemma CreatedThen(a: seq<bool>, n: nat, b: seq<bool>, m: nat, failed: bool, c: seq<bool>)
    requires Created(a, n, false, b) && Created(b, m, failed, c)
    ensures Created(a, n + m, failed, c)
  {
    var k := Min(n, |a|);
    var l := Min(m + if failed then 1 else 0, |b|);
    assert b == a[k..];
    DropDrop(a, k, l);
    forall i | 0 <= i < n + m && i < |a|
      ensures a[i]
    {
      if i >= n {
        assert b[i - n] == a[i];
      }
    }
    if failed {
      assert k == n && b[m] == a[n + m];
    }
  }

  lemma DropDrop<T>(s: seq<T>, k: nat, l: nat)
    requires k + l <= |s|
    ensures s[k..][l..] == s[k + l..]
  {
  }

  lemma CountFirst(p: TimedFrame -> bool, x: TimedFrame, s: seq<TimedFrame>)
    ensures Count(p, [x] + s) == (if p(x) then 1 else 0) + Count(p, s)
  {
    CountAppend(p, [x], s);
    assert [x][..0] == [];
  }

  /** Every marked frame looked at asks for one rebuild; the last one fails the selection if it fails. */
  ghost predicate RebuildsMarked(a: Answers, s: Selected) {
    && Count(IsMarked, LookedAt(s)) == s.rebuilds + (if s.failed then 1 else 0)
    && Created(a.creates, s.rebuilds, s.failed, s.answers.creates)
  }

  lemma {:induction false} ScanRebuilds(microphone: nat, r: Render, a: Answers)
    ensures RebuildsMarked(a, Scan(microphone, r, a))
    decreases |a.pops| + |Listed(r.held)|
  {
    hide Scan, NextPop, NextCreate, SignedDelta, Created, RebuildsMarked;
    if r.held.None? {
      ScanNothing(microphone, r, a);
      CreatedNone(a.creates);
      NothingMarked(a, Scan(microphone, r, a));
    } else {
      LookAt(microphone, r, a);
      var f := r.held.value;
      var (created, a') := if f.reset then NextCreate(a) else (true, a);
      if f.reset {
        CreatedOne(a);
      } else {
        CreatedNone(a.creates);
      }
      var (next, a'') := NextPop(a');
      PopKeepsCreates(a');
      if created && SignedDelta(f.qpc, microphone) < -ALIGNMENT_TOLERANCE_100NS {
        PoppedLess(a');
        ScanRebuilds(microphone, r.(held := next), a'');
        RebuildsAfter(a, if f.reset then 1 else 0, a'', f, Scan(microphone, r.(held := next), a''));
      } else {
        OneMarked(a, f, Scan(microphone, r, a));
      }
    }
  }

  lemma NothingMarked(a: Answers, s: Selected)
    requires s.stale == [] && s.paired.None? && s.render.held.None? && s.rebuilds == 0 && !s.failed
    requires Created(a.creates, 0, false, s.answers.creates)
    ensures RebuildsMarked(a, s)
  {
    hide Created;
  }

  /** A selection that looked at one frame only. */
  lemma OneMarked(a: Answers, f: TimedFrame, s: Selected)
    requires s.stale == [] && Listed(s.paired) + (if s.paired.None? then Listed(s.render.held) else []) == [f]
    requires s.rebuilds + (if s.failed then 1 else 0) == if f.reset then 1 else 0
    requires Created(a.creates, s.rebuilds, s.failed, s.answers.creates)
    ensures RebuildsMarked(a, s)
  {
    hide Created;
    assert LookedAt(s) == [f] + [];
    CountFirst(IsMarked, f, []);
  }

  lemma PopKeepsCreates(a: Answers)
    ensures NextPop(a).1.creates == a.creates
  {
  }

  lemma RebuildsAfter(a: Answers, n: nat, a': Answers, f: TimedFrame, rest: Selected)
    requires n == (if f.reset then 1 else 0)
    requires Created(a.creates, n, false, a'.creates) && RebuildsMarked(a', rest)
    ensures RebuildsMarked(a, After([f], n, rest))
  {
    hide Count, Created;
    CreatedThen(a.creates, n, a'.creates, rest.rebuilds, rest.failed, rest.answers.creates);
    var s := After([f], n, rest);
    assert LookedAt(s) == [f] + LookedAt(rest);
    CountFirst(IsMarked, f, LookedAt(rest));
  }

  lemma SelectRebuilds(microphone: nat, r: Render, a: Answers)
    ensures RebuildsMarked(a, Select(microphone, r, a))
  {
    hide RebuildsMarked;
    if r.held.Some? {
      ScanRebuilds(microphone, r, a);
    } else {
      var (next, a') := NextPop(a);
      ScanRebuilds(microphone, Render(next, next.None?), a');
      assert a'.creates == a.creates;
      SameCreates(a, a', Scan(microphone, Render(next, next.None?), a'));
    }
  }

  lemma SameCreates(a: Answers, a': Answers, s: Selected)
    requires a.creates == a'.creates && RebuildsMarked(a', s)
    ensures RebuildsMarked(a, s)
  {
  }

  // ---- The greedy matching, seen from outside ----

  /** For each microphone frame from `i` on, the render frame (from `j` on) that it is given. */
  function Assign(ms: seq<nat>, rs: seq<nat>, i: nat, j: nat): (r: seq<Option<nat>>)
    requires i <= |ms| && j <= |rs|
    ensures |r| == |ms| - i
    decreases |ms| - i + |rs| - j
  {
    if i == |ms| then []
    else if j == |rs| then [None] + Assign(ms, rs, i + 1, j)
    else if rs[j] + ALIGNMENT_TOLERANCE_100NS < ms[i] then Assign(ms, rs, i, j + 1)
    else if rs[j] <= ms[i] + ALIGNMENT_TOLERANCE_100NS then [Some(j)] + Assign(ms, rs, i + 1, j + 1)
    else [None] + Assign(ms, rs, i + 1, j)
  }

  function Hits(s: seq<Option<nat>>): nat {
    if s == [] then 0 else (if s[0].Some? then 1 else 0) + Hits(s[1..])
  }

  ghost predicate Nondecreasing(s: seq<nat>) {
    forall i, j :: 0 <= i < j < |s| ==> s[i] <= s[j]
  }

  /** Any one-to-one matching of frames within tolerance, order-preserving or not. */
  ghost predicate Matching(m: set<(nat, nat)>, ms: seq<nat>, rs: seq<nat>, i: nat, j: nat) {
    && (forall p :: p in m ==> i <= p.0 < |ms| && j <= p.1 < |rs| && Compatible(ms[p.0], rs[p.1]))
    && OneToOne(m)
  }

  ghost predicate OneToOne(m: set<(nat, nat)>) {
    forall p, q :: p in m && q in m && (p.0 == q.0 || p.1 == q.1) ==> p == q
  }

  lemma UncrossSize(m: set<(nat, nat)>, p: (nat, nat), q: (nat, nat), c: (nat, nat))
    requires p in m && q in m && c !in m
    ensures |m| <= |m - {p, q} + {c}| + 1
  {
    assert |m - {p, q}| == |m| - |{p, q}| && |{p, q}| <= 2;
  }

  lemma UncrossOneToOne(m: set<(nat, nat)>, p: (nat, nat), q: (nat, nat))
    requires OneToOne(m) && p in m && q in m && p != q
    ensures OneToOne(m - {p, q} + {(q.0, p.1)}) && (q.0, p.1) !in m
    ensures forall x :: x in m - {p, q} ==> x.0 != p.0 && x.1 != q.1
  {
    forall x | x in m - {p, q} ensures x.0 != q.0 && x.1 != p.1 && x.0 != p.0 && x.1 != q.1 {
    }
  }

  lemma Uncross(m: set<(nat, nat)>, ms: seq<nat>, rs: seq<nat>, i: nat, j: nat, p: (nat, nat), q: (nat, nat))
    requires Nondecreasing(ms) && Nondecreasing(rs)
    requires i < |ms| && j < |rs| && Matching(m, ms, rs, i, j)
    requires p in m && q in m && p != q && p.0 == i && q.1 == j && Compatible(ms[i], rs[j])
    ensures Matching(m - {p, q} + {(q.0, p.1)}, ms, rs, i + 1, j + 1)
    ensures |m| <= |m - {p, q} + {(q.0, p.1)}| + 1
  {
    hide Compatible, Nondecreasing, OneToOne;
    UncrossOneToOne(m, p, q);
    CrossedIsCompatible(m, ms, rs, i, j, p, q);
    UncrossSize(m, p, q, (q.0, p.1));
    WindowShrinks(m - {p, q}, ms, rs, i, j, (q.0, p.1));
  }

  lemma CrossedIsCompatible(
      m: set<(nat, nat)>, ms: seq<nat>, rs: seq<nat>, i: nat, j: nat, p: (nat, nat), q: (nat, nat))
    requires Nondecreasing(ms) && Nondecreasing(rs)
    requires i < |ms| && j < |rs| && Matching(m, ms, rs, i, j)
    requires p in m && q in m && p != q && p.0 == i && q.1 == j && Compatible(ms[i], rs[j])
    ensures i < q.0 < |ms| && j < p.1 < |rs| && Compatible(ms[q.0], rs[p.1])
  {
    assert p.1 != j && q.0 != i;
    assert rs[j] <= rs[p.1] && ms[i] <= ms[q.0];
    hide OneToOne, Nondecreasing;
  }

  /** Pairs that avoid both borders, and one more inside, fit into the smaller window. */
  lemma WindowShrinks(m: set<(nat, nat)>, ms: seq<nat>, rs: seq<nat>, i: nat, j: nat, c: (nat, nat))
    requires forall p :: p in m ==>
      i <= p.0 < |ms| && j <= p.1 < |rs| && p.0 != i && p.1 != j && Compatible(ms[p.0], rs[p.1])
    requires i < c.0 < |ms| && j < c.1 < |rs| && Compatible(ms[c.0], rs[c.1]) && OneToOne(m + {c})
    ensures Matching(m + {c}, ms, rs, i + 1, j + 1)
  {
    hide Compatible, OneToOne;
  }

  /** Exchange step: some matching of the rest is at most one pair smaller. */
  lemma Exchange(m: set<(nat, nat)>, ms: seq<nat>, rs: seq<nat>, i: nat, j: nat) returns (rest: set<(nat, nat)>)
    requires Nondecreasing(ms) && Nondecreasing(rs)
    requires i < |ms| && j < |rs| && Compatible(ms[i], rs[j]) && Matching(m, ms, rs, i, j)
    ensures Matching(rest, ms, rs, i + 1, j + 1) && |m| <= |rest| + 1
  {
    hide Matching, Nondecreasing, Compatible;
    MatchesBorderOnce(m, ms, rs, i, j);
    if p :| p in m && p.0 == i {
      if q :| q in m && q.1 == j && q != p {
        Uncross(m, ms, rs, i, j, p, q);
        rest := m - {p, q} + {(q.0, p.1)};
      } else {
        rest := m - {p};
        MatchingShrinks(m, rest, ms, rs, i, j);
      }
    } else if q :| q in m && q.1 == j {
      rest := m - {q};
      MatchingShrinks(m, rest, ms, rs, i, j);
    } else {
      rest := m;
      MatchingShrinks(m, rest, ms, rs, i, j);
    }
  }

  lemma MatchesBorderOnce(m: set<(nat, nat)>, ms: seq<nat>, rs: seq<nat>, i: nat, j: nat)
    requires Matching(m, ms, rs, i, j)
    ensures forall p, q :: p in m && q in m && p.0 == i && q.0 == i ==> p == q
    ensures forall p, q :: p in m && q in m && p.1 == j && q.1 == j ==> p == q
  {
    hide Compatible;
  }

  lemma MatchingShrinks(m: set<(nat, nat)>, rest: set<(nat, nat)>, ms: seq<nat>, rs: seq<nat>, i: nat, j: nat)
    requires Matching(m, ms, rs, i, j) && rest <= m && forall p :: p in rest ==> p.0 != i && p.1 != j
    ensures Matching(rest, ms, rs, i + 1, j + 1)
  {
    hide Compatible;
  }

  /** Greedy is optimal: no one-to-one matching within tolerance pairs more frames. */
  lemma {:induction false} GreedyIsMaximum(m: set<(nat, nat)>, ms: seq<nat>, rs: seq<nat>, i: nat, j: nat)
    requires Nondecreasing(ms) && Nondecreasing(rs)
    requires i <= |ms| && j <= |rs| && Matching(m, ms, rs, i, j)
    ensures |m| <= Hits(Assign(ms, rs, i, j))
    decreases |ms| - i + |rs| - j
  {
    if i == |ms| || j == |rs| {
      assert forall p :: p !in m;
      assert m == {};
    } else if rs[j] + ALIGNMENT_TOLERANCE_100NS < ms[i] {
      forall p | p in m ensures p.1 != j {
        assert ms[i] <= ms[p.0];
      }
      GreedyIsMaximum(m, ms, rs, i, j + 1);
    } else if rs[j] <= ms[i] + ALIGNMENT_TOLERANCE_100NS {
      var rest := Exchange(m, ms, rs, i, j);
      GreedyIsMaximum(rest, ms, rs, i + 1, j + 1);
    } else {
      forall p | p in m ensures p.0 != i {
        assert rs[j] <= rs[p.1];
      }
      GreedyIsMaximum(m, ms, rs, i + 1, j);
    }
  }

  /** One answer for each microphone frame from `i` on: nothing, or a later and later frame from `j` on in reach. */
  ghost predicate MatchesInOrder(s: seq<Option<nat>>, ms: seq<nat>, rs: seq<nat>, i: nat, j: nat) {
    && |s| == |ms| - i
    && (forall k :: 0 <= k < |s| && s[k].Some? ==>
          j <= s[k].value < |rs| && Compatible(ms[i + k], rs[s[k].value]))
    && (forall k, l :: 0 <= k < l < |s| && s[k].Some? && s[l].Some? ==> s[k].value < s[l].value)
  }

  /** The assignment is itself such a matching, and an order-preserving one. */
  lemma {:induction false} AssignIsMatching(ms: seq<nat>, rs: seq<nat>, i: nat, j: nat)
    requires i <= |ms| && j <= |rs|
    ensures MatchesInOrder(Assign(ms, rs, i, j), ms, rs, i, j)
    decreases |ms| - i + |rs| - j
  {
    hide MatchesInOrder;
    if i == |ms| {
      MatchesNothing(ms, rs, i, j);
    } else if j == |rs| {
      AssignIsMatching(ms, rs, i + 1, j);
      MatchesCons(None, Assign(ms, rs, i + 1, j), ms, rs, i, j, j);
    } else if rs[j] + ALIGNMENT_TOLERANCE_100NS < ms[i] {
      AssignIsMatching(ms, rs, i, j + 1);
      MatchesLater(Assign(ms, rs, i, j + 1), ms, rs, i, j);
    } else if rs[j] <= ms[i] + ALIGNMENT_TOLERANCE_100NS {
      AssignIsMatching(ms, rs, i + 1, j + 1);
      MatchesCons(Some(j), Assign(ms, rs, i + 1, j + 1), ms, rs, i, j, j + 1);
    } else {
      AssignIsMatching(ms, rs, i + 1, j);
      MatchesCons(None, Assign(ms, rs, i + 1, j), ms, rs, i, j, j);
    }
  }

  lemma MatchesNothing(ms: seq<nat>, rs: seq<nat>, i: nat, j: nat)
    requires i == |ms|
    ensures MatchesInOrder([], ms, rs, i, j)
  {
  }

  lemma MatchesLater(s: seq<Option<nat>>, ms: seq<nat>, rs: seq<nat>, i: nat, j: nat)
    requires MatchesInOrder(s, ms, rs, i, j + 1)
    ensures MatchesInOrder(s, ms, rs, i, j)
  {
  }

  lemma MatchesCons(
      head: Option<nat>, s: seq<Option<nat>>, ms: seq<nat>, rs: seq<nat>, i: nat, j: nat, next: nat)
    requires i < |ms| && MatchesInOrder(s, ms, rs, i + 1, next)
    requires if head.None? then next == j
             else head == Some(j) && next == j + 1 && j < |rs| && Compatible(ms[i], rs[j])
    ensures MatchesInOrder([head] + s, ms, rs, i, j)
  {
    var whole := [head] + s;
    assert forall k :: 0 < k < |whole| ==> whole[k] == s[k - 1];
    hide Compatible;
  }

  // ---- Iterating the selection is the greedy matching ----

  /** The selections for the microphone frames from `i` on. */
  function SelectAll(ms: seq<nat>, i: nat, r: Render, a: Answers): (chosen: seq<Selected>)
    requires i <= |ms|
    ensures |chosen| == |ms| - i
    decreases |ms| - i
  {
    if i == |ms| then [] else
    var s := Select(ms[i], r, a);
    [s] + SelectAll(ms, i + 1, s.render, s.answers)
  }

  function Ticks(frames: seq<TimedFrame>): (r: seq<nat>)
    ensures |r| == |frames|
  {
    seq(|frames|, k requires 0 <= k < |frames| => frames[k].qpc)
  }

  /** Render frames are there when asked for, and the canceller can be created. */
  ghost predicate Supplied(a: Answers) {
    && (forall k :: 0 <= k < |a.pops| ==> a.pops[k].Some?)
    && (forall k :: 0 <= k < |a.creates| ==> a.creates[k])
  }

  /** The worker is about to look at render frame `j` of `rs`. */
  ghost predicate At(rs: seq<TimedFrame>, j: nat, r: Render, a: Answers) {
    j <= |rs| && Supplied(a) && Remaining(r, a) == rs[j..]
  }

  function Consumed(s: Selected): nat { |s.stale| + |Listed(s.paired)| }

  /** A selection takes exactly the step of the greedy assignment. */
  ghost predicate TakesStep(s: Selected, ms: seq<nat>, rs: seq<TimedFrame>, i: nat, j: nat)
    requires i < |ms| && j <= |rs|
  {
    var next := j + Consumed(s);
    && At(rs, next, s.render, s.answers) && !s.failed
    && (s.paired.Some? ==> s.paired.value == rs[next - 1])
    && Assign(ms, Ticks(rs), i, j)
       == [if s.paired.Some? then Some(next - 1) else None] + Assign(ms, Ticks(rs), i + 1, next)
  }

  lemma PopAdvances(rs: seq<TimedFrame>, j: nat, r: Render, a: Answers)
    requires At(rs, j, r, a) && r.held.Some?
    ensures At(rs, j + 1, Render(NextPop(a).0, r.waitExhausted), NextPop(a).1)
    ensures At(rs, j + 1, Render(NextPop(a).0, false), NextPop(a).1)
    ensures j < |rs| && r.held.value == rs[j]
    ensures NextPop(a).0.None? ==> NextPop(a).1.pops == []
  {
    NextPopFrames(a);
    assert rs[j..] == [rs[j]] + rs[j + 1..];
    assert Remaining(r, a) == [r.held.value] + Frames(a.pops);
  }

  lemma CreateKeepsSupply(rs: seq<TimedFrame>, j: nat, r: Render, a: Answers)
    requires At(rs, j, r, a)
    ensures NextCreate(a).0 && At(rs, j, r, NextCreate(a).1)
  {
  }

  /** The answers left after the candidate was examined. */
  function Examined(r: Render, a: Answers): Answers
    requires r.held.Some?
  {
    if r.held.value.reset then NextCreate(a).1 else a
  }

  /** A candidate that is not stale ends the scan. */
  lemma DeltaCompares(render: nat, microphone: nat)
    ensures SignedDelta(render, microphone) < -ALIGNMENT_TOLERANCE_100NS
        <==> render + ALIGNMENT_TOLERANCE_100NS < microphone
    ensures SignedDelta(render, microphone) <= ALIGNMENT_TOLERANCE_100NS
        <==> render <= microphone + ALIGNMENT_TOLERANCE_100NS
  {
  }

  /** The three steps of the greedy assignment. */
  lemma AssignHead(ms: seq<nat>, rs: seq<nat>, i: nat, j: nat)
    requires i < |ms| && j < |rs|
    ensures Assign(ms, rs, i, j) ==
      if rs[j] + ALIGNMENT_TOLERANCE_100NS < ms[i] then Assign(ms, rs, i, j + 1)
      else if rs[j] <= ms[i] + ALIGNMENT_TOLERANCE_100NS then [Some(j)] + Assign(ms, rs, i + 1, j + 1)
      else [None] + Assign(ms, rs, i + 1, j)
  {
  }

  /** A candidate that is not stale ends the scan. */
  lemma HeadTakesStep(ms: seq<nat>, rs: seq<TimedFrame>, i: nat, j: nat, r: Render, a: Answers)
    requires i < |ms| && At(rs, j, r, a) && r.held.Some?
    requires SignedDelta(r.held.value.qpc, ms[i]) >= -ALIGNMENT_TOLERANCE_100NS
    ensures TakesStep(Scan(ms[i], r, a), ms, rs, i, j)
  {
    hide Scan, Assign, NextPop, NextCreate, SignedDelta, At, Remaining, Frames;
    CreateKeepsSupply(rs, j, r, a);
    PopAdvances(rs, j, r, Examined(r, a));
    assert Ticks(rs)[j] == rs[j].qpc;
    DeltaCompares(rs[j].qpc, ms[i]);
    LookAt(ms[i], r, a);
    AssignHead(ms, Ticks(rs), i, j);
    hide Ticks;
  }

  lemma {:induction false} ScanTakesStep(ms: seq<nat>, rs: seq<TimedFrame>, i: nat, j: nat, r: Render, a: Answers)
    requires i < |ms| && At(rs, j, r, a) && (r.held.None? ==> a.pops == [])
    ensures TakesStep(Scan(ms[i], r, a), ms, rs, i, j)
    decreases |rs| - j
  {
    hide Scan, NextPop, NextCreate, SignedDelta;
    if r.held.None? {
      EmptyTakesStep(ms, rs, i, j, r, a);
    } else if SignedDelta(r.held.value.qpc, ms[i]) >= -ALIGNMENT_TOLERANCE_100NS {
      HeadTakesStep(ms, rs, i, j, r, a);
    } else {
      CreateKeepsSupply(rs, j, r, a);
      PopAdvances(rs, j, r, Examined(r, a));
      hide At, TakesStep;
      var (next, a') := NextPop(Examined(r, a));
      var r' := r.(held := next);
      ScanTakesStep(ms, rs, i, j + 1, r', a');
      LookAt(ms[i], r, a);
      DeltaCompares(r.held.value.qpc, ms[i]);
      StaleStep(ms, rs, i, j, Scan(ms[i], r', a'), Scan(ms[i], r, a));
    }
    hide TakesStep;
  }

  lemma EmptyTakesStep(ms: seq<nat>, rs: seq<TimedFrame>, i: nat, j: nat, r: Render, a: Answers)
    requires i < |ms| && At(rs, j, r, a) && r.held.None? && a.pops == []
    ensures TakesStep(Scan(ms[i], r, a), ms, rs, i, j)
  {
    assert rs[j..] == [];
    ScanNothing(ms[i], r, a);
    hide Scan;
  }

  lemma StaleStep(ms: seq<nat>, rs: seq<TimedFrame>, i: nat, j: nat, rest: Selected, s: Selected)
    requires i < |ms| && j < |rs| && rs[j].qpc + ALIGNMENT_TOLERANCE_100NS < ms[i]
    requires TakesStep(rest, ms, rs, i, j + 1)
    requires exists k :: s == rest.(stale := [rs[j]] + rest.stale, rebuilds := k)
    ensures TakesStep(s, ms, rs, i, j)
  {
    assert Assign(ms, Ticks(rs), i, j) == Assign(ms, Ticks(rs), i, j + 1);
  }

  lemma SelectTakesStep(ms: seq<nat>, rs: seq<TimedFrame>, i: nat, j: nat, r: Render, a: Answers)
    requires i < |ms| && At(rs, j, r, a)
    ensures TakesStep(Select(ms[i], r, a), ms, rs, i, j)
  {
    if r.held.Some? {
      ScanTakesStep(ms, rs, i, j, r, a);
    } else {
      NextPopFrames(a);
      var (next, a') := NextPop(a);
      ScanTakesStep(ms, rs, i, j, Render(next, next.None?), a');
    }
  }

  function PairedCount(chosen: seq<Selected>): nat {
    if chosen == [] then 0 else |Listed(chosen[0].paired)| + PairedCount(chosen[1..])
  }

  /** Selection k pairs render frame plan[k], or none. */
  ghost predicate Follows(chosen: seq<Selected>, plan: seq<Option<nat>>, rs: seq<TimedFrame>) {
    && |chosen| == |plan| && PairedCount(chosen) == Hits(plan)
    && forall k :: 0 <= k < |plan| ==> chosen[k].paired == FrameAt(rs, plan[k])
  }

  function FrameAt(rs: seq<TimedFrame>, index: Option<nat>): Option<TimedFrame> {
    if index.Some? && index.value < |rs| then Some(rs[index.value]) else None
  }

  lemma FollowsCons(s: Selected, rest: seq<Selected>, x: Option<nat>, plan: seq<Option<nat>>, rs: seq<TimedFrame>)
    requires Follows(rest, plan, rs) && s.paired == FrameAt(rs, x) && s.paired.Some? == x.Some?
    ensures Follows([s] + rest, [x] + plan, rs)
  {
    assert ([s] + rest)[1..] == rest && ([x] + plan)[1..] == plan;
  }

  /** With every render frame available, iterating the selection computes the greedy assignment. */
  lemma {:induction false} SelectAllIsGreedy(ms: seq<nat>, rs: seq<TimedFrame>, i: nat, j: nat, r: Render, a: Answers)
    requires i <= |ms| && At(rs, j, r, a)
    ensures Follows(SelectAll(ms, i, r, a), Assign(ms, Ticks(rs), i, j), rs)
    decreases |ms| - i
  {
    if i < |ms| {
      SelectTakesStep(ms, rs, i, j, r, a);
      var s := Select(ms[i], r, a);
      var next := j + Consumed(s);
      SelectAllIsGreedy(ms, rs, i + 1, next, s.render, s.answers);
      FollowsCons(s, SelectAll(ms, i + 1, s.render, s.answers),
                  if s.paired.Some? then Some(next - 1) else None, Assign(ms, Ticks(rs), i + 1, next), rs);
    }
  }

  /**
   * Pairing is optimal: with nondecreasing stamps and render frames available when asked for, no
   * one-to-one matching within tolerance, not even one that reorders frames, pairs more of them.
   */
  lemma PairingIsMaximum(m: set<(nat, nat)>, ms: seq<nat>, r: Render, a: Answers)
    requires Supplied(a) && Nondecreasing(ms) && Nondecreasing(Ticks(Remaining(r, a)))
    requires Matching(m, ms, Ticks(Remaining(r, a)), 0, 0)
    ensures |m| <= PairedCount(SelectAll(ms, 0, r, a))
  {
    var rs := Remaining(r, a);
    assert rs[0..] == rs;
    SelectAllIsGreedy(ms, rs, 0, 0, r, a);
    GreedyIsMaximum(m, ms, Ticks(rs), 0, 0);
  }
}
