/** The sequence and session state of `WindowsVbCableOutput` in crates/mini-aec-windows-output/src/lib.rs. */
module VbCableOutput {
  import opened AudioTypes

  datatype ErrorKind = SequenceViolation | InvalidState | DeviceInvalidated | RenderFailure | RejectedWrite

  datatype SessionState = Closed | Open

  datatype Counters = Counters(
    opens: nat, closes: nat, accepted: nat, converted: nat, underruns: nat,
    rejected: nat, failures: nat, invalidations: nat)

  datatype Diagnostics = Diagnostics(
    state: SessionState, session: Option<nat>, lastAccepted: Option<nat>,
    padding: nat, highWater: nat, rendered: nat, counters: Counters)

  const FRESH_DIAGNOSTICS := Diagnostics(Closed, None, None, 0, 0, 0, Counters(0, 0, 0, 0, 0, 0, 0, 0))

  /** What the render stream of an open session is known by. */
  datatype Stream = Stream(outputFrames: nat, requiresConversion: bool)

  datatype Output = Output(stream: Option<Stream>, diagnostics: Diagnostics, nextSequence: nat)

  /** What the render client does with one frame. */
  datatype Rendered = Progress(padding: nat, underrun: bool) | RenderError(kind: ErrorKind)

  datatype Call =
    | OpenSession(session: nat, device: Option<Stream>)
    | WriteFrame(sequence: nat, rendered: Rendered)
    | CloseSession(stopped: bool)

  /** An opening stream that fails is answered with a render failure here, whatever its cause. */
  function Opened(o: Output, session: nat, device: Option<Stream>): (Output, Option<ErrorKind>) {
    if o.stream.Some? then (o, Some(InvalidState))
    else if device.None? then (o, Some(RenderFailure))
    else
      var counters := FRESH_DIAGNOSTICS.counters.(opens := 1);
      (Output(device, FRESH_DIAGNOSTICS.(state := Open, session := Some(session), counters := counters), 0), None)
  }

  function Written(o: Output, sequence: nat, rendered: Rendered): (Output, Option<ErrorKind>) {
    var d, c := o.diagnostics, o.diagnostics.counters;
    if sequence != o.nextSequence then
      (o.(diagnostics := d.(counters := c.(rejected := c.rejected + 1))), Some(SequenceViolation))
    else if o.stream.None? then (o, Some(InvalidState))
    else if rendered.RenderError? then
      (o.(diagnostics := d.(counters := c.(
            failures := c.failures + 1,
            invalidations := c.invalidations + if rendered.kind == DeviceInvalidated then 1 else 0))),
       Some(rendered.kind))
    else
      (o.(nextSequence := o.nextSequence + 1,
          diagnostics := d.(
            lastAccepted := Some(sequence), padding := rendered.padding,
            highWater := Max(d.highWater, rendered.padding),
            rendered := d.rendered + o.stream.value.outputFrames,
            counters := c.(accepted := c.accepted + 1,
                           converted := c.converted + if o.stream.value.requiresConversion then 1 else 0,
                           underruns := c.underruns + if rendered.underrun && c.accepted > 0 then 1 else 0))),
       None)
  }

  /** A stream that cannot be stopped is gone all the same, with the session still marked open. */
  function ClosedDown(o: Output, stopped: bool): (Output, Option<ErrorKind>) {
    if o.stream.Some? && !stopped then (o.(stream := None), Some(RenderFailure)) else
    var d, c := o.diagnostics, o.diagnostics.counters;
    (Output(None, d.(state := Closed, session := None, padding := 0,
                     counters := c.(closes := c.closes + if o.stream.Some? then 1 else 0)), 0),
     None)
  }

  function Answer(o: Output, call: Call): (Output, Option<ErrorKind>) {
    match call
    case OpenSession(session, device) => Opened(o, session, device)
    case WriteFrame(sequence, rendered) => Written(o, sequence, rendered)
    case CloseSession(stopped) => ClosedDown(o, stopped)
  }

  /** An output with the frame numbers accepted since its last successful open, and what rendering said of each. */
  datatype Logged = Logged(output: Output, accepted: seq<nat>, progress: seq<Rendered>)

  predicate Starved(r: Rendered) { r.Progress? && r.underrun }

  function Run(calls: seq<Call>): Logged {
    if calls == [] then Logged(Output(None, FRESH_DIAGNOSTICS, 0), [], []) else
    var before, call := Run(calls[..|calls| - 1]), calls[|calls| - 1];
    var (after, error) := Answer(before.output, call);
    if error.Some? then before.(output := after)
    else match call
      case OpenSession(_, _) => Logged(after, [], [])
      case WriteFrame(n, rendered) => Logged(after, before.accepted + [n], before.progress + [rendered])
      case CloseSession(_) => before.(output := after)
  }

  ghost predicate HasPadding(progress: seq<Rendered>, padding: nat) {
    exists k :: 0 <= k < |progress| && progress[k].Progress? && progress[k].padding == padding
  }

  lemma HasPaddingSnoc(progress: seq<Rendered>, more: Rendered, padding: nat)
    requires HasPadding(progress, padding) || (more.Progress? && more.padding == padding)
    ensures HasPadding(progress + [more], padding)
  {
    if more.Progress? && more.padding == padding {
      assert (progress + [more])[|progress|] == more;
    } else {
      var k :| 0 <= k < |progress| && progress[k].Progress? && progress[k].padding == padding;
      assert (progress + [more])[k] == progress[k];
    }
  }

  /** Underruns after the first frame, which finds the device empty in any case. */
  function LaterUnderruns(progress: seq<Rendered>): nat {
    Count(Starved, if progress == [] then [] else progress[1..])
  }

  lemma LaterUnderrunsSnoc(progress: seq<Rendered>, more: Rendered)
    ensures LaterUnderruns(progress + [more])
         == LaterUnderruns(progress) + if progress != [] && Starved(more) then 1 else 0
  {
    if progress != [] {
      assert (progress + [more])[1..] == progress[1..] + [more];
    }
  }

  /** While a session is open its counters describe exactly the frames 0, 1, 2, ... it accepted. */
  ghost predicate SessionExact(l: Logged) {
    var d, n := l.output.diagnostics, |l.accepted|;
    && (forall k :: 0 <= k < n ==> l.accepted[k] == k)
    && d.counters.accepted == n
    && |l.progress| == n && (forall k :: 0 <= k < n ==> l.progress[k].Progress? && l.progress[k].padding <= d.highWater)
    && (d.highWater == 0 || HasPadding(l.progress, d.highWater))
    && d.counters.underruns == LaterUnderruns(l.progress)
    && (d.state == Closed ==> d.padding == 0)
    && (l.output.stream.Some? ==> d.padding == if n == 0 then 0 else l.progress[n - 1].padding)
    && d.lastAccepted == (if n == 0 then None else Some(n - 1))
    && (l.output.stream.Some? ==>
          && l.output.nextSequence == n && d.state == Open && d.counters.opens == 1
          && d.rendered == n * l.output.stream.value.outputFrames
          && d.counters.converted == (if l.output.stream.value.requiresConversion then n else 0))
  }

  lemma RenderedStep(n: nat, frames: nat)
    ensures n * frames + frames == (n + 1) * frames
  {
  }

  lemma WriteIsExact(before: Logged, call: Call)
    requires SessionExact(before) && call.WriteFrame?
    ensures Written(before.output, call.sequence, call.rendered).1.None? ==>
      SessionExact(Logged(Written(before.output, call.sequence, call.rendered).0,
                          before.accepted + [call.sequence], before.progress + [call.rendered]))
  {
    var (after, error) := Written(before.output, call.sequence, call.rendered);
    if error.None? {
      RenderedStep(|before.accepted|, before.output.stream.value.outputFrames);
      LaterUnderrunsSnoc(before.progress, call.rendered);
      if after.diagnostics.highWater != 0 {
        HasPaddingSnoc(before.progress, call.rendered, after.diagnostics.highWater);
      }
    }
    hide HasPadding, LaterUnderruns;
  }

  /** Over any list of calls, in any order and with any failures. */
  lemma {:induction false} SessionsAreExact(calls: seq<Call>)
    ensures SessionExact(Run(calls))
  {
    if calls != [] {
      var before, call := Run(calls[..|calls| - 1]), calls[|calls| - 1];
      SessionsAreExact(calls[..|calls| - 1]);
      hide SessionExact, Written, Opened, ClosedDown;
      match call
      case WriteFrame(_, _) =>
        WriteIsExact(before, call);
        if Written(before.output, call.sequence, call.rendered).1.Some? {
          RefusalIsExact(before, call);
        }
      case OpenSession(_, _) => OpenIsExact(before, call);
      case CloseSession(_) => CloseIsExact(before, call);
    }
    hide Written, Opened, ClosedDown;
  }

  lemma RefusalIsExact(before: Logged, call: Call)
    requires SessionExact(before) && call.WriteFrame?
    ensures Written(before.output, call.sequence, call.rendered).1.Some? ==>
      SessionExact(before.(output := Written(before.output, call.sequence, call.rendered).0))
  {
    hide HasPadding, LaterUnderruns;
  }

  lemma OpenIsExact(before: Logged, call: Call)
    requires SessionExact(before) && call.OpenSession?
    ensures var (after, error) := Opened(before.output, call.session, call.device);
            SessionExact(if error.Some? then before.(output := after) else Logged(after, [], []))
  {
    hide HasPadding;
  }

  lemma CloseIsExact(before: Logged, call: Call)
    requires SessionExact(before) && call.CloseSession?
    ensures SessionExact(before.(output := ClosedDown(before.output, call.stopped).0))
  {
    hide HasPadding, LaterUnderruns;
  }

  /**
   * A caller that numbers its frames by how many were accepted since the session was opened, as both
   * engine workers do, is never answered with a sequence violation while the session is open.
   */
  lemma {:induction false} CountingCallerIsInSequence(calls: seq<Call>, rendered: Rendered)
    requires Run(calls).output.stream.Some?
    ensures var (after, error) := Answer(Run(calls).output, WriteFrame(|Run(calls).accepted|, rendered));
            error == (if rendered.RenderError? then Some(rendered.kind) else None)
  {
    SessionsAreExact(calls);
  }

  // ---- What the calls alone decide ----

  /** Is a stream open, and which frame number is due. */
  datatype Session = Session(open: bool, due: nat)

  /** The session after a list of calls: a failed stop loses the stream and keeps the number due. */
  function Follow(calls: seq<Call>): Session {
    if calls == [] then Session(false, 0) else
    var s := Follow(calls[..|calls| - 1]);
    match calls[|calls| - 1]
    case OpenSession(_, device) => if !s.open && device.Some? then Session(true, 0) else s
    case WriteFrame(n, rendered) => if s.open && n == s.due && rendered.Progress? then Session(true, s.due + 1) else s
    case CloseSession(stopped) => if s.open && !stopped then Session(false, s.due) else Session(false, 0)
  }

  /** What a call is answered: the number is checked before the session, and the session before the device. */
  function Reply(s: Session, call: Call): Option<ErrorKind> {
    match call
    case OpenSession(_, device) =>
      if s.open then Some(InvalidState) else if device.None? then Some(RenderFailure) else None
    case WriteFrame(n, rendered) =>
      if n != s.due then Some(SequenceViolation)
      else if !s.open then Some(InvalidState)
      else if rendered.RenderError? then Some(rendered.kind)
      else None
    case CloseSession(stopped) => if s.open && !stopped then Some(RenderFailure) else None
  }

  /** Every call of every history is answered as the calls before it decide. */
  lemma {:induction false} CallsAreAnswered(calls: seq<Call>, call: Call)
    ensures var o := Run(calls).output;
            o.stream.Some? == Follow(calls).open && o.nextSequence == Follow(calls).due
            && Answer(o, call).1 == Reply(Follow(calls), call)
  {
    if calls != [] {
      CallsAreAnswered(calls[..|calls| - 1], calls[|calls| - 1]);
    }
  }

  /** A call, and the session it found. */
  datatype Found = Found(session: Session, call: Call)

  /** The calls since the last successful open, which begins them anew. */
  function Since(calls: seq<Call>): seq<Found> {
    if calls == [] then [] else
    var init, call := calls[..|calls| - 1], calls[|calls| - 1];
    if call.OpenSession? && Reply(Follow(init), call).None? then [] else Since(init) + [Found(Follow(init), call)]
  }

  predicate WasRefused(f: Found) { f.call.WriteFrame? && f.call.sequence != f.session.due }

  predicate DeviceFailed(f: Found) {
    f.call.WriteFrame? && f.call.sequence == f.session.due && f.session.open && f.call.rendered.RenderError?
  }

  predicate DeviceLost(f: Found) { DeviceFailed(f) && f.call.rendered.kind == DeviceInvalidated }

  predicate Closes(f: Found) { f.call.CloseSession? && f.session.open && f.call.stopped }

  /** Shuts the session down, whether or not a stream was still there. */
  predicate Shuts(f: Found) { f.call.CloseSession? && (!f.session.open || f.call.stopped) }

  /** The number of the session opened last, if one ever was. */
  function LastOpened(calls: seq<Call>): Option<nat> {
    if calls == [] then None else
    var init, call := calls[..|calls| - 1], calls[|calls| - 1];
    if call.OpenSession? && Reply(Follow(init), call).None? then Some(call.session) else LastOpened(init)
  }

  ghost predicate Told(d: Diagnostics, calls: seq<Call>) {
    var since, last := Since(calls), LastOpened(calls);
    && d.counters.rejected == Count(WasRefused, since)
    && d.counters.failures == Count(DeviceFailed, since)
    && d.counters.invalidations == Count(DeviceLost, since)
    && d.counters.closes == Count(Closes, since)
    && d.counters.opens == (if last.Some? then 1 else 0)
    && (d.state == Open <==> last.Some? && Count(Shuts, since) == 0)
    && d.session == (if last.Some? && Count(Shuts, since) == 0 then last else None)
  }

  lemma CountSnoc(p: Found -> bool, since: seq<Found>, f: Found)
    ensures Count(p, since + [f]) == Count(p, since) + if p(f) then 1 else 0
  {
    assert (since + [f])[..|since|] == since;
  }

  /** What one call that opens nothing does to the diagnostics, by what it found. */
  ghost predicate Tells(d: Diagnostics, d': Diagnostics, f: Found) {
    && d'.counters.rejected == d.counters.rejected + (if WasRefused(f) then 1 else 0)
    && d'.counters.failures == d.counters.failures + (if DeviceFailed(f) then 1 else 0)
    && d'.counters.invalidations == d.counters.invalidations + (if DeviceLost(f) then 1 else 0)
    && d'.counters.closes == d.counters.closes + (if Closes(f) then 1 else 0)
    && d'.counters.opens == d.counters.opens
    && d'.state == (if Shuts(f) then Closed else d.state)
    && d'.session == (if Shuts(f) then None else d.session)
  }

  lemma AnswerTells(o: Output, call: Call)
    requires call.OpenSession? ==> Answer(o, call).1.Some?
    ensures Tells(o.diagnostics, Answer(o, call).0.diagnostics, Found(Session(o.stream.Some?, o.nextSequence), call))
  {
  }

  lemma ToldStep(d: Diagnostics, calls: seq<Call>, call: Call, d': Diagnostics)
    requires Told(d, calls) && (call.OpenSession? ==> Reply(Follow(calls), call).Some?)
    requires Tells(d, d', Found(Follow(calls), call))
    ensures Told(d', calls + [call])
  {
    var f := Found(Follow(calls), call);
    assert (calls + [call])[..|calls|] == calls;
    CountSnoc(WasRefused, Since(calls), f);
    CountSnoc(DeviceFailed, Since(calls), f);
    CountSnoc(DeviceLost, Since(calls), f);
    CountSnoc(Closes, Since(calls), f);
    CountSnoc(Shuts, Since(calls), f);
    assert Since(calls + [call]) == Since(calls) + [f] && LastOpened(calls + [call]) == LastOpened(calls);
    hide Count, Since, LastOpened, Follow, Reply, WasRefused, DeviceFailed, DeviceLost, Closes, Shuts;
  }

  lemma OpenTold(calls: seq<Call>, call: Call, o: Output)
    requires call.OpenSession? && Reply(Follow(calls), call).None? && Opened(o, call.session, call.device).1.None?
    ensures Told(Opened(o, call.session, call.device).0.diagnostics, calls + [call])
  {
    assert (calls + [call])[..|calls|] == calls;
    assert Since(calls + [call]) == [] && LastOpened(calls + [call]) == Some(call.session);
    hide Follow, Reply, Since, LastOpened;
  }

  lemma RunAnswers(calls: seq<Call>, call: Call)
    ensures Run(calls + [call]).output == Answer(Run(calls).output, call).0
  {
    assert (calls + [call])[..|calls|] == calls;
    hide Answer;
  }

  /** The diagnostics of every history: state, session, and every failure and close since the last open. */
  lemma {:induction false} DiagnosticsAreExact(calls: seq<Call>)
    ensures Told(Run(calls).output.diagnostics, calls)
  {
    if calls != [] {
      hide Told, Tells, Follow, Reply, Opened, Run, Written, ClosedDown;
      var init, call := calls[..|calls| - 1], calls[|calls| - 1];
      var o := Run(init).output;
      DiagnosticsAreExact(init);
      CallsAreAnswered(init, call);
      RunAnswers(init, call);
      assert init + [call] == calls;
      if call.OpenSession? && Reply(Follow(init), call).None? {
        OpenTold(init, call, o);
      } else {
        AnswerTells(o, call);
        ToldStep(o.diagnostics, init, call, Run(calls).output.diagnostics);
      }
    }
    hide Since, LastOpened, Follow, Count, Answer;
  }

  /** Any other number is refused and changes nothing but the count of refusals. */
  lemma {:induction false} OtherNumbersAreRefused(calls: seq<Call>, sequence: nat, rendered: Rendered)
    requires Run(calls).output.stream.Some? && sequence != |Run(calls).accepted|
    ensures var o := Run(calls).output;
            var (after, error) := Answer(o, WriteFrame(sequence, rendered));
            var counters := o.diagnostics.counters;
            && error == Some(SequenceViolation)
            && after == o.(diagnostics := o.diagnostics.(counters := counters.(rejected := counters.rejected + 1)))
  {
    SessionsAreExact(calls);
  }

  class WindowsVbCableOutput {
    var stream: Option<Stream>
    var diagnostics: Diagnostics
    var nextSequence: nat

    ghost function Value(): Output
      reads this
    {
      Output(stream, diagnostics, nextSequence)
    }

    constructor ()
      ensures Value() == Run([]).output
    {
      stream, diagnostics, nextSequence := None, FRESH_DIAGNOSTICS, 0;
    }

    method BeginSession(session: nat, device: Option<Stream>) returns (error: Option<ErrorKind>)
      modifies this
      ensures (Value(), error) == Opened(old(Value()), session, device)
    {
      if stream.Some? {
        return Some(InvalidState);
      }
      if device.None? {
        return Some(RenderFailure);
      }
      diagnostics := FRESH_DIAGNOSTICS.(state := Open, session := Some(session));
      diagnostics := diagnostics.(counters := diagnostics.counters.(opens := 1));
      nextSequence := 0;
      stream := device;
      error := None;
    }

    method Write(sequence: nat, rendered: Rendered) returns (error: Option<ErrorKind>)
      modifies this
      ensures (Value(), error) == Written(old(Value()), sequence, rendered)
    {
      var counters := diagnostics.counters;
      if sequence != nextSequence {
        diagnostics := diagnostics.(counters := counters.(rejected := counters.rejected + 1));
        return Some(SequenceViolation);
      }
      if stream.None? {
        return Some(InvalidState);
      }
      if rendered.RenderError? {
        counters := counters.(failures := counters.failures + 1);
        if rendered.kind == DeviceInvalidated {
          counters := counters.(invalidations := counters.invalidations + 1);
        }
        diagnostics := diagnostics.(counters := counters);
        return Some(rendered.kind);
      }
      if stream.value.requiresConversion {
        counters := counters.(converted := counters.converted + 1);
      }
      if rendered.underrun && counters.accepted > 0 {
        counters := counters.(underruns := counters.underruns + 1);
      }
      nextSequence := nextSequence + 1;
      diagnostics := diagnostics.(lastAccepted := Some(sequence), padding := rendered.padding);
      diagnostics := diagnostics.(highWater := Max(diagnostics.highWater, rendered.padding));
      diagnostics := diagnostics.(rendered := diagnostics.rendered + stream.value.outputFrames);
      diagnostics := diagnostics.(counters := counters.(accepted := counters.accepted + 1));
      error := None;
    }

    method EndSession(stopped: bool) returns (error: Option<ErrorKind>)
      modifies this
      ensures (Value(), error) == ClosedDown(old(Value()), stopped)
    {
      if stream.Some? {
        stream := None;
        if !stopped {
          return Some(RenderFailure);
        }
        diagnostics := diagnostics.(counters := diagnostics.counters.(closes := diagnostics.counters.closes + 1));
      }
      nextSequence := 0;
      diagnostics := diagnostics.(state := Closed, session := None, padding := 0);
      error := None;
    }
  }
}
