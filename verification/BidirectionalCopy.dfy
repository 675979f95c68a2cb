/** util.BidirectionalCopy: network to writer and reader to network, with a half
    close, a two-slot error channel, and one goroutine that joins them. */
module BidirectionalCopy {
  import opened Common
  import opened IoCopy

  datatype InboundPc = InCopying | InSending | InCancelling | InLeaving | InExited

  datatype OutboundPc = OutCopying | OutHalfClosing | OutSending | OutCancelling | OutLeaving | OutExited

  datatype MainPc = AwaitCancel | ClosingConn | Joining | ClosingChannel | Draining | Returned

  /** `errCh` holds what was sent on the error channel, oldest first. */
  datatype State = State(
    inbound: Pump, inPc: InboundPc,
    outbound: Pump, outPc: OutboundPc,
    errCh: seq<Option<IoError>>, chClosed: bool,
    cancelled: bool, external: bool, conn: Conn, tcp: bool, halfClosed: bool,
    main: MainPc, result: Option<IoError>)

  datatype Step = External | Answer | In(pump: Option<PumpStep>) | Out(pump: Option<PumpStep>) | Main

  const CHANNEL_CAPACITY := 2

  /** What the network and the reader have to say, how the network connection is closed, and
      whether it is a TCP connection, which alone can be closed for writing only. */
  datatype Ends = Ends(fromNetwork: seq<Byte>, fromReader: seq<Byte>, prompt: bool, tcp: bool)

  function Init(x: Ends): State {
    State(Start(x.fromNetwork), InCopying, Start(x.fromReader), OutCopying,
          [], false, false, false, Conn(x.prompt, false, false), x.tcp, false, AwaitCancel, None)
  }

  function EndsOf(s: State): Ends { Ends(s.inbound.src, s.outbound.src, s.conn.prompt, s.tcp) }

  // ── isHarmless ──────────────────────────────────────────────────────

  /** errors.Is: the target occurs somewhere along the chain of causes. */
  predicate ErrorIs(e: IoError, target: IoError) {
    e == target || ((e.OpError? || e.Wrapped?) && ErrorIs(e.cause, target))
  }

  /** errors.As for *net.OpError: the first one along the chain. */
  function AsOpError(e: IoError): Option<IoError> {
    if e.OpError? then Some(e) else if e.Wrapped? then AsOpError(e.cause) else None
  }

  predicate IsHarmless(err: Option<IoError>) {
    if err.None? then true
    else if ErrorIs(err.value, Eof) || ErrorIs(err.value, NetClosed) || ErrorIs(err.value, ClosedPipe) then true
    else
      var op := AsOpError(err.value);
      op.Some? && op.value.OpError? && ErrorIs(op.value.cause, NetClosed)
  }

  function RootCause(e: IoError): IoError {
    if e.OpError? || e.Wrapped? then RootCause(e.cause) else e
  }

  lemma {:induction false} ErrorIsRoot(e: IoError, target: IoError)
    requires !target.OpError? && !target.Wrapped?
    ensures ErrorIs(e, target) <==> RootCause(e) == target
  {
    if e.OpError? || e.Wrapped? {
      ErrorIsRoot(e.cause, target);
    }
  }

  lemma {:induction false} AsOpErrorKeepsRoot(e: IoError)
    ensures AsOpError(e).Some? ==> AsOpError(e).value.OpError? && RootCause(AsOpError(e).value) == RootCause(e)
  {
    if e.Wrapped? {
      AsOpErrorKeepsRoot(e.cause);
    }
  }

  /** Harmless means exactly: no error, or one whose root cause is an ordinary end of
      the conversation.  The separate net.OpError test never changes the answer. */
  lemma HarmlessIsByRootCause(e: IoError)
    ensures IsHarmless(None)
    ensures IsHarmless(Some(e)) <==> RootCause(e) in {Eof, NetClosed, ClosedPipe}
  {
    ErrorIsRoot(e, Eof);
    ErrorIsRoot(e, NetClosed);
    ErrorIsRoot(e, ClosedPipe);
    AsOpErrorKeepsRoot(e);
    if AsOpError(e).Some? {
      ErrorIsRoot(AsOpError(e).value.cause, NetClosed);
    }
  }

  /** The loop over the closed error channel: the first error worth reporting. */
  method DrainErrors(errCh: seq<Option<IoError>>) returns (err: Option<IoError>)
    ensures err.None? <==> forall i :: 0 <= i < |errCh| ==> IsHarmless(errCh[i])
    ensures err.Some? ==> exists i :: 0 <= i < |errCh| && errCh[i] == err && !IsHarmless(err)
                                      && forall j :: 0 <= j < i ==> IsHarmless(errCh[j])
    ensures err == FirstHarmful(errCh)
  {
    for i := 0 to |errCh|
      invariant forall j :: 0 <= j < i ==> IsHarmless(errCh[j])
      invariant FirstHarmful(errCh) == FirstHarmful(errCh[i..])
    {
      assert errCh[i..][1..] == errCh[i + 1..];
      if errCh[i].Some? && !IsHarmless(errCh[i]) {
        return errCh[i];
      }
    }
    return None;
  }

  function FirstHarmful(errCh: seq<Option<IoError>>): Option<IoError> {
    if errCh == [] then None
    else if !IsHarmless(errCh[0]) then errCh[0]
    else FirstHarmful(errCh[1..])
  }

  // ── The interleaved machine ─────────────────────────────────────────

  /** Only the network end can be closed under a copier: inbound reads it, outbound writes it. */
  predicate Enabled(s: State, st: Step) {
    match st
    case External => true
    case Answer => s.conn.shut
    case In(p) =>
      (match s.inPc
       case InCopying =>
         if s.inbound.status.Running? then p.Some? && CanStep(s.inbound, p.value, s.conn.Freed(), false) else p.None?
       case InSending => p.None? && |s.errCh| < CHANNEL_CAPACITY && !s.chClosed
       case InExited => false
       case _ => p.None?)
    case Out(p) =>
      (match s.outPc
       case OutCopying =>
         if s.outbound.status.Running? then p.Some? && CanStep(s.outbound, p.value, false, s.conn.Freed()) else p.None?
       case OutSending => p.None? && |s.errCh| < CHANNEL_CAPACITY && !s.chClosed && s.outbound.status.Stopped?
       case OutExited => false
       case _ => p.None?)
    case Main =>
      match s.main
      case AwaitCancel => s.cancelled
      case Joining => s.inPc == InExited && s.outPc == OutExited
      case Returned => false
      case _ => true
  }

  function ErrorOf(p: Pump): Option<IoError> {
    if p.status.Stopped? then CopyError(p.status.how) else None
  }

  function Apply(s: State, st: Step): State
    requires Enabled(s, st)
  {
    match st
    case External => s.(cancelled := true, external := true)
    case Answer => s.(conn := s.conn.(answered := true))
    case In(p) =>
      (match s.inPc
       case InCopying =>
         if p.Some? then s.(inbound := Advance(s.inbound, p.value, s.conn.Freed(), false)) else s.(inPc := InSending)
       case InSending => s.(errCh := s.errCh + [ErrorOf(s.inbound)], inPc := InCancelling)
       case InCancelling => s.(cancelled := true, inPc := InLeaving)
       case InLeaving => s.(inPc := InExited)
       case InExited => s)
    case Out(p) =>
      (match s.outPc
       case OutCopying =>
         if p.Some? then s.(outbound := Advance(s.outbound, p.value, false, s.conn.Freed()))
         else s.(outPc := OutHalfClosing)
       case OutHalfClosing => s.(halfClosed := s.tcp, outPc := OutSending)
       case OutSending =>
         s.(errCh := s.errCh + [ErrorOf(s.outbound)],
            outPc := if ErrorOf(s.outbound).Some? then OutCancelling else OutLeaving)
       case OutCancelling => s.(cancelled := true, outPc := OutLeaving)
       case OutLeaving => s.(outPc := OutExited)
       case OutExited => s)
    case Main =>
      match s.main
      case AwaitCancel => s.(main := ClosingConn)
      case ClosingConn => s.(conn := s.conn.(shut := true), main := Joining)
      case Joining => s.(main := ClosingChannel)
      case ClosingChannel => s.(chClosed := true, main := Draining)
      case Draining => s.(result := FirstHarmful(s.errCh), main := Returned)
      case Returned => s
  }

  predicate Run(s: State, steps: seq<Step>)
    decreases |steps|
  {
    steps == [] || (Enabled(s, steps[0]) && Run(Apply(s, steps[0]), steps[1..]))
  }

  function Exec(s: State, steps: seq<Step>): State
    requires Run(s, steps)
    decreases |steps|
  {
    if steps == [] then s else Exec(Apply(s, steps[0]), steps[1..])
  }

  predicate InSent(s: State) { s.inPc in {InCancelling, InLeaving, InExited} }

  predicate OutSent(s: State) { s.outPc in {OutCancelling, OutLeaving, OutExited} }

  /** Exactly what has been sent is in the channel: each copier's error once. */
  predicate ChannelInv(s: State) {
    && (!InSent(s) && !OutSent(s) ==> s.errCh == [])
    && (InSent(s) && !OutSent(s) ==> s.errCh == [ErrorOf(s.inbound)])
    && (!InSent(s) && OutSent(s) ==> s.errCh == [ErrorOf(s.outbound)])
    && (InSent(s) && OutSent(s) ==>
          || s.errCh == [ErrorOf(s.inbound), ErrorOf(s.outbound)]
          || s.errCh == [ErrorOf(s.outbound), ErrorOf(s.inbound)])
  }

  predicate Inv(s: State) {
    && Sound(s.inbound) && Sound(s.outbound)
    && (s.inPc != InCopying ==> s.inbound.status.Stopped?)
    && (s.outPc != OutCopying ==> s.outbound.status.Stopped?)
    && ChannelInv(s)
    && (s.conn.shut <==> s.main !in {AwaitCancel, ClosingConn})
    && (s.main != AwaitCancel ==> s.cancelled)
    && (s.chClosed <==> s.main in {Draining, Returned})
    && (s.main in {ClosingChannel, Draining, Returned} ==> s.inPc == InExited && s.outPc == OutExited)
    && (s.main == Returned ==> s.result == FirstHarmful(s.errCh))
    && (s.outPc == OutCancelling ==> ErrorOf(s.outbound).Some?)
    && (s.halfClosed <==> s.tcp && s.outPc != OutCopying && s.outPc != OutHalfClosing)
    // The only ways to be cancelled, and hence to have the network end closed.
    && (s.cancelled ==>
          || s.external
          || s.inPc in {InLeaving, InExited}
          || (s.outPc in {OutLeaving, OutExited} && ErrorOf(s.outbound).Some?))
    && (s.inPc in {InLeaving, InExited} ==> s.cancelled)
    && (s.external ==> s.cancelled)
    && (s.outPc in {OutLeaving, OutExited} && ErrorOf(s.outbound).Some? ==> s.cancelled)
    // The inbound copy is only ever cut short by outside help or an outbound error.
    && (s.inbound.status == Stopped(Interrupted) ==>
          s.external || (s.outbound.status.Stopped? && ErrorOf(s.outbound).Some?))
  }

  lemma InKeepsInv(s: State, p: Option<PumpStep>)
    requires Inv(s) && Enabled(s, In(p))
    ensures Inv(Apply(s, In(p))) && EndsOf(Apply(s, In(p))) == EndsOf(s)
  {
    if s.inPc == InCopying && p.Some? {
      AdvanceKeepsSound(s.inbound, p.value, s.conn.Freed(), false);
    }
  }

  lemma OutKeepsInv(s: State, p: Option<PumpStep>)
    requires Inv(s) && Enabled(s, Out(p))
    ensures Inv(Apply(s, Out(p))) && EndsOf(Apply(s, Out(p))) == EndsOf(s)
  {
    if s.outPc == OutCopying && p.Some? {
      AdvanceKeepsSound(s.outbound, p.value, false, s.conn.Freed());
    }
  }

  lemma StepKeepsInv(s: State, st: Step)
    requires Inv(s) && Enabled(s, st)
    ensures Inv(Apply(s, st))
    ensures EndsOf(Apply(s, st)) == EndsOf(s)
    ensures Apply(s, st).external ==> s.external || st == External
  {
    match st {
      case In(p) => InKeepsInv(s, p);
      case Out(p) => OutKeepsInv(s, p);
      case _ =>
    }
  }

  lemma {:induction false} RunKeepsInv(s: State, steps: seq<Step>)
    requires Inv(s) && Run(s, steps)
    ensures Inv(Exec(s, steps))
    ensures EndsOf(Exec(s, steps)) == EndsOf(s)
    ensures Exec(s, steps).external ==> s.external || External in steps
    decreases |steps|
  {
    if steps != [] {
      StepKeepsInv(s, steps[0]);
      RunKeepsInv(Apply(s, steps[0]), steps[1..]);
    }
  }

  /** In every reachable state, what was written is a prefix of what was sent, both ways. */
  lemma WrittenIsPrefix(x: Ends, steps: seq<Step>)
    requires Run(Init(x), steps)
    ensures Exec(Init(x), steps).inbound.dst <= x.fromNetwork
    ensures Exec(Init(x), steps).outbound.dst <= x.fromReader
  {
    RunKeepsInv(Init(x), steps);
  }

  /** What makes the call stop, in every reachable state: it has been told to exactly when the
      context was cancelled, the network side has ended, or the reader side has ended other than
      cleanly.  Until then it waits; the end of the reader alone is no reason. */
  lemma StopsExactlyWhen(x: Ends, steps: seq<Step>)
    requires Run(Init(x), steps)
    ensures var s := Exec(Init(x), steps);
      && (s.cancelled <==>
            || s.external
            || s.inPc in {InLeaving, InExited}
            || (s.outPc in {OutLeaving, OutExited} && s.outbound.status != Stopped(Clean)))
      && (s.outbound.status.Running? ==> s.outPc == OutCopying)
      && (s.main == AwaitCancel ==> (Enabled(s, Main) <==> s.cancelled))
  {
    RunKeepsInv(Init(x), steps);
  }

  lemma {:induction false} RunExtend(s: State, steps: seq<Step>, st: Step)
    requires Run(s, steps) && Enabled(Exec(s, steps), st)
    ensures Run(s, steps + [st]) && Exec(s, steps + [st]) == Apply(Exec(s, steps), st)
    decreases |steps|
  {
    if steps == [] {
      assert steps + [st] == [st];
      assert [st][1..] == [];
      assert Run(Apply(s, st), []);
    } else {
      assert (steps + [st])[1..] == steps[1..] + [st];
      RunExtend(Apply(s, steps[0]), steps[1..], st);
    }
  }

  /** Extends a run by one step while naming the state it leads to. */
  lemma Then(from: State, steps: seq<Step>, s: State, st: Step) returns (more: seq<Step>, t: State)
    requires Run(from, steps) && Exec(from, steps) == s && Enabled(s, st)
    ensures more == steps + [st] && Run(from, more) && t == Apply(s, st) && Exec(from, more) == t
  {
    RunExtend(from, steps, st);
    more, t := steps + [st], Apply(s, st);
  }

  /** A run in which the reader is copied to its end before anything else happens. */
  lemma ReaderCanEnd(x: Ends) returns (steps: seq<Step>)
    ensures Run(Init(x), steps)
    ensures Exec(Init(x), steps)
            == Init(x).(outbound := Pump(x.fromReader, |x.fromReader|, [], x.fromReader, Stopped(Clean)))
  {
    var init := Init(x);
    steps := [];
    var s := init;
    if x.fromReader != [] {
      steps, s := Then(init, steps, s, Out(Some(Read(|x.fromReader|))));
      steps, s := Then(init, steps, s, Out(Some(Write)));
    }
    assert s == init.(outbound := Pump(x.fromReader, |x.fromReader|, [], x.fromReader, Running));
    steps, s := Then(init, steps, s, Out(Some(EndOfFile)));
  }

  /** Whatever the two sides have to say, there is a run in which the reader has been copied to
      its end and its goroutine is gone while the call goes on waiting for the network. */
  lemma ReaderEndDoesNotStop(x: Ends) returns (steps: seq<Step>)
    ensures Run(Init(x), steps)
    ensures var s := Exec(Init(x), steps);
      && s.outPc == OutExited && s.outbound.status == Stopped(Clean) && s.outbound.dst == x.fromReader
      && s.main == AwaitCancel && !s.cancelled && !Enabled(s, Main)
      && s.inbound == Start(x.fromNetwork)
  {
    var init := Init(x);
    steps := ReaderCanEnd(x);
    var s := Exec(init, steps);
    steps, s := Then(init, steps, s, Out(None));
    steps, s := Then(init, steps, s, Out(None));
    steps, s := Then(init, steps, s, Out(None));
    steps, s := Then(init, steps, s, Out(None));
  }

  // ── When the call returns by itself ─────────────────────────────────

  /** A step that needs neither the network peer, nor the reader, nor the writer to act. */
  predicate Alone(st: Step) {
    match st
    case External => true
    case Main => true
    case In(p) => p.None? || p.value.Interrupt?
    case Out(p) => p.None? || p.value.Interrupt?
    case Answer => false
  }

  predicate AllAlone(steps: seq<Step>) { forall i :: 0 <= i < |steps| ==> Alone(steps[i]) }

  ghost predicate CanReturnAlone(s: State) {
    exists steps :: Run(s, steps) && AllAlone(steps) && Exec(s, steps).main == Returned
  }

  /** The inbound copy has stopped, or waits for bytes on a connection whose close will end that;
      a write to the writer that does not return holds it. */
  predicate InReleasable(s: State) {
    s.inPc == InCopying && s.inbound.status.Running? ==> s.inbound.buf == [] && s.conn.Yields()
  }

  /** The outbound copy has stopped, or waits to write to such a connection; a read from the reader
      that does not return holds it. */
  predicate OutReleasable(s: State) {
    s.outPc == OutCopying && s.outbound.status.Running? ==> s.outbound.buf != [] && s.conn.Yields()
  }

  lemma AloneKeepsHeld(s: State, st: Step)
    requires Enabled(s, st) && Alone(st) && !(InReleasable(s) && OutReleasable(s))
    ensures !(InReleasable(Apply(s, st)) && OutReleasable(Apply(s, st)))
  {
  }

  lemma {:induction false} HeldNeverReturns(s: State, steps: seq<Step>)
    requires Inv(s) && !(InReleasable(s) && OutReleasable(s)) && Run(s, steps) && AllAlone(steps)
    ensures Exec(s, steps).main != Returned
    decreases |steps|
  {
    if steps != [] {
      StepKeepsInv(s, steps[0]);
      AloneKeepsHeld(s, steps[0]);
      HeldNeverReturns(Apply(s, steps[0]), steps[1..]);
    }
  }

  function InLeft(s: State): nat {
    match s.inPc
    case InCopying => if s.inbound.status.Running? then 5 else 4
    case InSending => 3
    case InCancelling => 2
    case InLeaving => 1
    case InExited => 0
  }

  function OutLeft(s: State): nat {
    match s.outPc
    case OutCopying => if s.outbound.status.Running? then 6 else 5
    case OutHalfClosing => 4
    case OutSending => 3
    case OutCancelling => 2
    case OutLeaving => 1
    case OutExited => 0
  }

  function MainLeft(m: MainPc): nat {
    match m
    case AwaitCancel => 5
    case ClosingConn => 4
    case Joining => 3
    case ClosingChannel => 2
    case Draining => 1
    case Returned => 0
  }

  /** The next step by itself: cancel, close the connection, see both copiers off, drain. */
  function NextAlone(s: State): Step {
    if !s.cancelled then External
    else if s.main != Joining then Main
    else if s.inPc != InExited then In(Release(s.inPc == InCopying && s.inbound.status.Running?))
    else if s.outPc != OutExited then Out(Release(s.outPc == OutCopying && s.outbound.status.Running?))
    else Main
  }

  function Release(copying: bool): Option<PumpStep> { if copying then Some(Interrupt(0)) else None }

  lemma NextAloneLeads(s: State)
    requires Inv(s) && InReleasable(s) && OutReleasable(s) && s.main != Returned
    ensures Enabled(s, NextAlone(s)) && Alone(NextAlone(s))
    ensures var t := Apply(s, NextAlone(s));
      && InReleasable(t) && OutReleasable(t)
      && InLeft(t) + OutLeft(t) + MainLeft(t.main) + (if t.cancelled then 0 else 1)
         < InLeft(s) + OutLeft(s) + MainLeft(s.main) + (if s.cancelled then 0 else 1)
  {
  }

  lemma {:induction false} ReleasableReturns(s: State) returns (steps: seq<Step>)
    requires Inv(s) && InReleasable(s) && OutReleasable(s)
    ensures Run(s, steps) && AllAlone(steps) && Exec(s, steps).main == Returned
    decreases InLeft(s) + OutLeft(s) + MainLeft(s.main) + if s.cancelled then 0 else 1
  {
    if s.main == Returned {
      steps := [];
    } else {
      NextAloneLeads(s);
      var st := NextAlone(s);
      StepKeepsInv(s, st);
      var rest := ReleasableReturns(Apply(s, st));
      steps := [st] + rest;
      assert steps[1..] == rest;
      assert forall i :: 1 <= i < |steps| ==> steps[i] == rest[i - 1];
    }
  }

  /** In every reachable state, the call can be brought to return with nobody else acting, by
      cancelling if that has not happened, exactly when neither copy is held: the inbound one by
      its writer, the outbound one by its reader, or either by a connection whose peer has yet to
      answer its close. */
  lemma ReturnsAloneIff(x: Ends, steps: seq<Step>)
    requires Run(Init(x), steps)
    ensures var s := Exec(Init(x), steps); CanReturnAlone(s) <==> InReleasable(s) && OutReleasable(s)
  {
    RunKeepsInv(Init(x), steps);
    var s := Exec(Init(x), steps);
    if InReleasable(s) && OutReleasable(s) {
      var more := ReleasableReturns(s);
    } else {
      forall more | Run(s, more) && AllAlone(more)
        ensures Exec(s, more).main != Returned
      {
        HeldNeverReturns(s, more);
      }
    }
  }

  /** A run in which the network is copied to its clean end before anything else happens. */
  lemma NetworkCanEnd(x: Ends) returns (steps: seq<Step>)
    ensures Run(Init(x), steps)
    ensures Exec(Init(x), steps) == Init(x).(
              inbound := Pump(x.fromNetwork, |x.fromNetwork|, [], x.fromNetwork, Stopped(Clean)), inPc := InSending)
  {
    var init := Init(x);
    steps := [];
    var s := init;
    if x.fromNetwork != [] {
      steps, s := Then(init, steps, s, In(Some(Read(|x.fromNetwork|))));
      steps, s := Then(init, steps, s, In(Some(Write)));
    }
    assert s == init.(inbound := Pump(x.fromNetwork, |x.fromNetwork|, [], x.fromNetwork, Running));
    steps, s := Then(init, steps, s, In(Some(EndOfFile)));
    steps, s := Then(init, steps, s, In(None));
  }

  /** The other end that does not stop the call: whatever the two sides have to say, there is a run
      in which the network has been copied to its clean end and the connection is closed, while the
      call waits for a silent reader and cannot return until that acts. */
  lemma NetworkEndDoesNotReturn(x: Ends) returns (steps: seq<Step>)
    ensures Run(Init(x), steps)
    ensures var s := Exec(Init(x), steps);
      && s.inPc == InExited && s.inbound.status == Stopped(Clean) && s.inbound.dst == x.fromNetwork
      && s.cancelled && !s.external && s.conn.shut && s.main == Joining && !CanReturnAlone(s)
  {
    var init := Init(x);
    steps := NetworkCanEnd(x);
    var s := Exec(init, steps);
    steps, s := Then(init, steps, s, In(None));
    steps, s := Then(init, steps, s, In(None));
    steps, s := Then(init, steps, s, In(None));
    steps, s := Then(init, steps, s, Main);
    steps, s := Then(init, steps, s, Main);
    ReturnsAloneIff(x, steps);
  }

  /** If nobody outside cancels and the reader ends without an error, everything the
      peer sent before its end of file has reached the writer when the call returns,
      unless the inbound copy failed by itself: it is never cut short. */
  lemma PeerIsDrained(x: Ends, steps: seq<Step>)
    requires Run(Init(x), steps)
    requires External !in steps
    requires var s := Exec(Init(x), steps);
      s.main == Returned && s.outbound.status == Stopped(Clean)
    ensures var s := Exec(Init(x), steps);
      && s.outbound.dst == x.fromReader
      && s.inbound.status.Stopped?
      && (s.inbound.dst == x.fromNetwork || s.inbound.status.how.Failed?)
  {
    RunKeepsInv(Init(x), steps);
  }

  /** The remote is told that no more will be sent exactly when the connection can tell it and the
      reader's copy is over, with all its bytes behind it: never while the copy runs, and never
      left out before the goroutine reports how the copy ended. */
  lemma HalfClosedExactlyWhen(x: Ends, steps: seq<Step>)
    requires Run(Init(x), steps)
    ensures var s := Exec(Init(x), steps);
      && (s.halfClosed ==> x.tcp && s.outbound.status.Stopped?)
      && (x.tcp && s.outPc in {OutSending, OutCancelling, OutLeaving, OutExited} ==> s.halfClosed)
      && (s.halfClosed && s.outbound.status == Stopped(Clean) ==> s.outbound.dst == x.fromReader)
  {
    RunKeepsInv(Init(x), steps);
  }

  /** A goroutine that is ready to send its error never blocks and never meets a
      closed channel; the channel is closed only after both errors are in it. */
  lemma SendersNeverBlock(x: Ends, steps: seq<Step>)
    requires Run(Init(x), steps)
    ensures var s := Exec(Init(x), steps);
      && (s.inPc == InSending ==> Enabled(s, In(None)))
      && (s.outPc == OutSending ==> Enabled(s, Out(None)))
      && (s.chClosed ==> |s.errCh| == 2 && s.inPc == InExited && s.outPc == OutExited)
  {
    RunKeepsInv(Init(x), steps);
  }

  lemma FirstHarmfulOfTwo(a: Option<IoError>, b: Option<IoError>)
    ensures FirstHarmful([a, b]) == if !IsHarmless(a) then a else if !IsHarmless(b) then b else None
  {
    assert [a, b][1..] == [b];
    assert [b][1..] == [];
    assert FirstHarmful([b]) == if !IsHarmless(b) then b else None;
  }

  /** The copy failed with something other than an ordinary end of the conversation. */
  predicate FailedBadly(p: Pump) {
    p.status.Stopped? && p.status.how.Failed? && RootCause(p.status.how.error) !in {Eof, NetClosed, ClosedPipe}
  }

  lemma HarmfulIsFailedBadly(p: Pump)
    requires p.status.Stopped?
    ensures !IsHarmless(ErrorOf(p)) <==> FailedBadly(p)
    ensures FailedBadly(p) ==> ErrorOf(p) == Some(p.status.how.error)
  {
    match p.status.how {
      case Clean =>
      case Interrupted => HarmlessIsByRootCause(OpError(NetClosed));
      case Failed(e) => HarmlessIsByRootCause(e);
    }
  }

  /** The call reports an error exactly when one of the two copies failed with one whose root cause
      is not an ordinary end of the conversation, and then it reports one of those. */
  lemma ReportsHarmfulErrors(x: Ends, steps: seq<Step>)
    requires Run(Init(x), steps)
    requires Exec(Init(x), steps).main == Returned
    ensures var s := Exec(Init(x), steps);
      && (s.result.Some? <==> FailedBadly(s.inbound) || FailedBadly(s.outbound))
      && (s.result.Some? ==>
            || (FailedBadly(s.inbound) && s.result.value == s.inbound.status.how.error)
            || (FailedBadly(s.outbound) && s.result.value == s.outbound.status.how.error))
  {
    RunKeepsInv(Init(x), steps);
    var s := Exec(Init(x), steps);
    FirstHarmfulOfTwo(ErrorOf(s.inbound), ErrorOf(s.outbound));
    FirstHarmfulOfTwo(ErrorOf(s.outbound), ErrorOf(s.inbound));
    HarmfulIsFailedBadly(s.inbound);
    HarmfulIsFailedBadly(s.outbound);
  }

  predicate FailsWith(st: Step, e: IoError) {
    (st.In? || st.Out?) && st.pump.Some? && st.pump.value.Fail? && st.pump.value.error == e
  }

  predicate HasFailedWith(s: State, e: IoError) {
    s.inbound.status == Stopped(Failed(e)) || s.outbound.status == Stopped(Failed(e))
  }

  lemma StepRemembersFailure(s: State, st: Step, e: IoError)
    requires Enabled(s, st) && (HasFailedWith(s, e) || FailsWith(st, e))
    ensures HasFailedWith(Apply(s, st), e)
  {
  }

  lemma {:induction false} RunRemembersFailure(s: State, steps: seq<Step>, e: IoError)
    requires Run(s, steps)
    requires HasFailedWith(s, e) || exists i :: 0 <= i < |steps| && FailsWith(steps[i], e)
    ensures HasFailedWith(Exec(s, steps), e)
    decreases |steps|
  {
    if steps != [] {
      if HasFailedWith(s, e) || FailsWith(steps[0], e) {
        StepRemembersFailure(s, steps[0], e);
      } else {
        var i :| 0 <= i < |steps| && FailsWith(steps[i], e);
        assert FailsWith(steps[1..][i - 1], e);
      }
      RunRemembersFailure(Apply(s, steps[0]), steps[1..], e);
    }
  }

  /** No failure is lost: if at any point of a run a read or write of either copy fails with an
      error whose root cause is not an ordinary end, the call returns an error. */
  lemma FailureIsReported(x: Ends, steps: seq<Step>, i: nat, e: IoError)
    requires Run(Init(x), steps) && Exec(Init(x), steps).main == Returned
    requires i < |steps| && FailsWith(steps[i], e) && RootCause(e) !in {Eof, NetClosed, ClosedPipe}
    ensures Exec(Init(x), steps).result.Some?
  {
    RunRemembersFailure(Init(x), steps, e);
    ReportsHarmfulErrors(x, steps);
  }
}
