/** bridgeConns: two copiers, a cancel and a join, interleaved in every possible way. */
module Bridge {
  import opened Common
  import opened IoCopy

  /** A copier goroutine copies, assigns its named result, cancels, and is done. */
  datatype CopierPc = Copying | Assigning | Cancelling | Exited

  datatype Copier = Copier(pump: Pump, pc: CopierPc, ret: nat)

  datatype MainPc = AwaitCancel | ClosingA | ClosingB | Joining | Returned

  /** `external` records that the caller's context, not a copier, cancelled. */
  datatype State = State(
    ab: Copier, ba: Copier,
    cancelled: bool, external: bool,
    a: Conn, b: Conn,
    main: MainPc)

  datatype Step =
    | External
    | AB(pump: Option<PumpStep>)
    | BA(pump: Option<PumpStep>)
    | Main
    | AnswerA
    | AnswerB

  /** What the two peers send, and how the two connections are closed. */
  datatype Ends = Ends(fromA: seq<Byte>, fromB: seq<Byte>, aPrompt: bool, bPrompt: bool)

  function Init(x: Ends): State {
    State(Copier(Start(x.fromA), Copying, 0), Copier(Start(x.fromB), Copying, 0),
          false, false, Conn(x.aPrompt, false, false), Conn(x.bPrompt, false, false), AwaitCancel)
  }

  function EndsOf(s: State): Ends { Ends(s.ab.pump.src, s.ba.pump.src, s.a.prompt, s.b.prompt) }

  predicate CopierEnabled(c: Copier, st: Option<PumpStep>, srcShut: bool, dstShut: bool) {
    match c.pc
    case Copying =>
      if c.pump.status.Running? then st.Some? && CanStep(c.pump, st.value, srcShut, dstShut) else st.None?
    case Assigning => st.None?
    case Cancelling => st.None?
    case Exited => false
  }

  function CopierStep(c: Copier, st: Option<PumpStep>, srcShut: bool, dstShut: bool): Copier
    requires CopierEnabled(c, st, srcShut, dstShut)
  {
    match c.pc
    case Copying =>
      if st.Some? then c.(pump := Advance(c.pump, st.value, srcShut, dstShut)) else c.(pc := Assigning)
    case Assigning => c.(ret := |c.pump.dst|, pc := Cancelling)
    case Cancelling => c.(pc := Exited)
    case Exited => c
  }

  predicate Enabled(s: State, st: Step) {
    match st
    case External => true
    case AnswerA => s.a.shut
    case AnswerB => s.b.shut
    case AB(p) => CopierEnabled(s.ab, p, s.a.Freed(), s.b.Freed())
    case BA(p) => CopierEnabled(s.ba, p, s.b.Freed(), s.a.Freed())
    case Main =>
      match s.main
      case AwaitCancel => s.cancelled
      case Joining => s.ab.pc == Exited && s.ba.pc == Exited
      case Returned => false
      case _ => true
  }

  function Apply(s: State, st: Step): State
    requires Enabled(s, st)
  {
    match st
    case External => s.(cancelled := true, external := true)
    case AnswerA => s.(a := s.a.(answered := true))
    case AnswerB => s.(b := s.b.(answered := true))
    case AB(p) =>
      s.(ab := CopierStep(s.ab, p, s.a.Freed(), s.b.Freed()), cancelled := s.cancelled || s.ab.pc == Cancelling)
    case BA(p) =>
      s.(ba := CopierStep(s.ba, p, s.b.Freed(), s.a.Freed()), cancelled := s.cancelled || s.ba.pc == Cancelling)
    case Main =>
      match s.main
      case AwaitCancel => s.(main := ClosingA)
      case ClosingA => s.(a := s.a.(shut := true), main := ClosingB)
      case ClosingB => s.(b := s.b.(shut := true), main := Joining)
      case Joining => s.(main := Returned)
      case Returned => s
  }

  predicate Run(s: State, steps: seq<Step>)
    decreases |steps|
  {
    steps == [] || (Enabled(s, steps[0]) && Run(Apply(s, steps[0]), steps[1..]))
  }

  function Exec(s: State, steps: seq<Step>): State
    requires Run(s, steps)
    decreases |steps|
  {
    if steps == [] then s else Exec(Apply(s, steps[0]), steps[1..])
  }

  predicate CopierInv(c: Copier) {
    && Sound(c.pump)
    && (c.pc != Copying ==> c.pump.status.Stopped?)
    && (c.pc == Cancelling || c.pc == Exited ==> c.ret == |c.pump.dst|)
  }

  predicate Undisturbed(c: Copier) {
    c.pump.status.Running? || c.pump.status.how != Interrupted
  }

  predicate Inv(s: State) {
    && CopierInv(s.ab) && CopierInv(s.ba)
    && (s.a.shut <==> s.main in {ClosingB, Joining, Returned})
    && (s.b.shut <==> s.main in {Joining, Returned})
    && (s.main != AwaitCancel ==> s.cancelled)
    && (s.external ==> s.cancelled)
    // Without outside help the first copier to stop was not interrupted, and
    // nothing is interrupted before somebody cancels.
    && (!s.cancelled ==> Undisturbed(s.ab) && Undisturbed(s.ba))
    && (s.cancelled <==> s.external || s.ab.pc == Exited || s.ba.pc == Exited)
    && (s.cancelled && !s.external ==>
          || (s.ab.pump.status.Stopped? && Undisturbed(s.ab))
          || (s.ba.pump.status.Stopped? && Undisturbed(s.ba)))
    && (s.main == Returned ==> s.ab.pc == Exited && s.ba.pc == Exited)
  }

  lemma CopierKeeps(c: Copier, st: Option<PumpStep>, srcShut: bool, dstShut: bool)
    requires CopierInv(c) && CopierEnabled(c, st, srcShut, dstShut)
    ensures CopierInv(CopierStep(c, st, srcShut, dstShut))
    ensures CopierStep(c, st, srcShut, dstShut).pump.src == c.pump.src
    ensures Undisturbed(c) && !srcShut && !dstShut ==> Undisturbed(CopierStep(c, st, srcShut, dstShut))
    ensures c.pump.status.Stopped? ==> CopierStep(c, st, srcShut, dstShut).pump == c.pump
  {
    if c.pc == Copying && st.Some? {
      AdvanceKeepsSound(c.pump, st.value, srcShut, dstShut);
    }
  }

  lemma StepKeepsInv(s: State, st: Step)
    requires Inv(s) && Enabled(s, st)
    ensures Inv(Apply(s, st))
    ensures EndsOf(Apply(s, st)) == EndsOf(s)
  {
    match st {
      case AB(p) => CopierKeeps(s.ab, p, s.a.Freed(), s.b.Freed());
      case BA(p) => CopierKeeps(s.ba, p, s.b.Freed(), s.a.Freed());
      case _ =>
    }
  }

  lemma {:induction false} RunKeepsInv(s: State, steps: seq<Step>)
    requires Inv(s) && Run(s, steps)
    ensures Inv(Exec(s, steps))
    ensures EndsOf(Exec(s, steps)) == EndsOf(s)
    decreases |steps|
  {
    if steps != [] {
      StepKeepsInv(s, steps[0]);
      RunKeepsInv(Apply(s, steps[0]), steps[1..]);
    }
  }

  /** `fin` is the final state of some complete call of bridgeConns. */
  ghost predicate Finished(fin: State) {
    && fin.main == Returned
    && exists steps :: Run(Init(EndsOf(fin)), steps) && Exec(Init(EndsOf(fin)), steps) == fin
  }

  /** In every reachable state each side has received a prefix of what the other sent. */
  lemma DeliveredIsPrefix(x: Ends, steps: seq<Step>)
    requires Run(Init(x), steps)
    ensures Exec(Init(x), steps).ab.pump.dst <= x.fromA
    ensures Exec(Init(x), steps).ba.pump.dst <= x.fromB
  {
    RunKeepsInv(Init(x), steps);
  }

  /** What a caller may rely on when bridgeConns has returned: the results are the delivered
      lengths, both connections are closed, and unless the call was cancelled from outside at
      least one direction either carried its whole stream or failed on its own. */
  predicate Settled(fin: State) {
    && fin.ab.ret == |fin.ab.pump.dst| && fin.ba.ret == |fin.ba.pump.dst|
    && fin.ab.pump.dst <= fin.ab.pump.src && fin.ba.pump.dst <= fin.ba.pump.src
    && fin.a.shut && fin.b.shut
    && fin.ab.pump.status.Stopped? && fin.ba.pump.status.Stopped?
    && (|| fin.external || fin.ab.pump.dst == fin.ab.pump.src || fin.ba.pump.dst == fin.ba.pump.src
        || fin.ab.pump.status.how.Failed? || fin.ba.pump.status.how.Failed?)
  }

  lemma ReturnsDeliveredLengths(fin: State)
    requires Finished(fin)
    ensures Settled(fin)
  {
    var steps :| Run(Init(EndsOf(fin)), steps) && Exec(Init(EndsOf(fin)), steps) == fin;
    RunKeepsInv(Init(EndsOf(fin)), steps);
  }

  /** What ends the copying, in every reachable state: the call has been told to stop exactly when
      its caller cancelled or one of the two copiers is gone, and waits until then. */
  lemma StopsExactlyWhen(x: Ends, steps: seq<Step>)
    requires Run(Init(x), steps)
    ensures var s := Exec(Init(x), steps);
      && (s.cancelled <==> s.external || s.ab.pc == Exited || s.ba.pc == Exited)
      && (s.main == AwaitCancel ==> (Enabled(s, Main) <==> s.cancelled))
  {
    RunKeepsInv(Init(x), steps);
  }

  // ── When the call returns without its peers ─────────────────────────

  /** A step that needs nothing from either peer: no byte, no end of stream, no room to write, no
      failure and no answer to a close. */
  predicate Alone(st: Step) {
    match st
    case External => true
    case Main => true
    case AB(p) => p.None? || p.value.Interrupt?
    case BA(p) => p.None? || p.value.Interrupt?
    case _ => false
  }

  predicate AllAlone(steps: seq<Step>) { forall i :: 0 <= i < |steps| ==> Alone(steps[i]) }

  /** From here the call can be brought to its return whatever the peers fail to do. */
  ghost predicate CanReturnAlone(s: State) {
    exists steps :: Run(s, steps) && AllAlone(steps) && Exec(s, steps).main == Returned
  }

  /** A copier has stopped, or waits on a connection whose close will end that: the one it reads,
      or, holding bytes, the one it writes. */
  predicate Releasable(c: Copier, src: Conn, dst: Conn) {
    c.pc == Copying && c.pump.status.Running? ==> (if c.pump.buf == [] then src else dst).Yields()
  }

  predicate BothReleasable(s: State) { Releasable(s.ab, s.a, s.b) && Releasable(s.ba, s.b, s.a) }

  lemma AloneKeepsHeld(s: State, st: Step)
    requires Enabled(s, st) && Alone(st) && !BothReleasable(s)
    ensures !BothReleasable(Apply(s, st))
  {
  }

  lemma {:induction false} HeldNeverReturns(s: State, steps: seq<Step>)
    requires Inv(s) && !BothReleasable(s) && Run(s, steps) && AllAlone(steps)
    ensures Exec(s, steps).main != Returned
    decreases |steps|
  {
    if steps != [] {
      StepKeepsInv(s, steps[0]);
      AloneKeepsHeld(s, steps[0]);
      HeldNeverReturns(Apply(s, steps[0]), steps[1..]);
    }
  }

  /** The next step by itself: cancel, close both connections, then see both copiers off. */
  function NextAlone(s: State): Step {
    if !s.cancelled then External
    else if s.main != Joining then Main
    else if s.ab.pc != Exited then AB(Release(s.ab))
    else if s.ba.pc != Exited then BA(Release(s.ba))
    else Main
  }

  function Release(c: Copier): Option<PumpStep> {
    if c.pc == Copying && c.pump.status.Running? then Some(Interrupt(0)) else None
  }

  lemma {:induction false} ReleasableReturns(s: State) returns (steps: seq<Step>)
    requires Inv(s) && BothReleasable(s)
    ensures Run(s, steps) && AllAlone(steps) && Exec(s, steps).main == Returned
    decreases Left(s) + if s.cancelled then 0 else 1
  {
    if s.main == Returned {
      steps := [];
    } else {
      var st := NextAlone(s);
      var t := Apply(s, st);
      StepKeepsInv(s, st);
      StepsCountDown(s, st);
      StepsCountDown(t, External);
      var rest := ReleasableReturns(t);
      steps := [st] + rest;
      assert steps[1..] == rest;
      assert forall i :: 1 <= i < |steps| ==> steps[i] == rest[i - 1];
    }
  }

  /** In every reachable state, the call can be brought to return without its peers, by cancelling
      if that has not happened, exactly when each copier has stopped or waits on a connection
      whose close is enough: a prompt one, or one whose peer has answered. */
  lemma ReturnsAloneIff(x: Ends, steps: seq<Step>)
    requires Run(Init(x), steps)
    ensures CanReturnAlone(Exec(Init(x), steps)) <==> BothReleasable(Exec(Init(x), steps))
  {
    RunKeepsInv(Init(x), steps);
    var s := Exec(Init(x), steps);
    if BothReleasable(s) {
      var more := ReleasableReturns(s);
    } else {
      forall more | Run(s, more) && AllAlone(more)
        ensures Exec(s, more).main != Returned
      {
        HeldNeverReturns(s, more);
      }
    }
  }

  ghost predicate CancellationSuffices(x: Ends) {
    forall steps :: Run(Init(x), steps) && Exec(Init(x), steps).cancelled ==> CanReturnAlone(Exec(Init(x), steps))
  }

  /** Cancelling the context is enough to end the call, at whatever point it comes, exactly
      between two connections that both end pending calls when they are closed. */
  lemma CancellationSufficesIffPrompt(x: Ends)
    ensures CancellationSuffices(x) <==> x.aPrompt && x.bPrompt
  {
    if x.aPrompt && x.bPrompt {
      forall steps | Run(Init(x), steps) && Exec(Init(x), steps).cancelled
        ensures CanReturnAlone(Exec(Init(x), steps))
      {
        RunKeepsInv(Init(x), steps);
        ReturnsAloneIff(x, steps);
      }
    } else {
      var steps, s := Then(Init(x), [], Init(x), External);
      ReturnsAloneIff(x, steps);
      assert Exec(Init(x), steps).cancelled && !BothReleasable(s);
    }
  }

  /** At each moment the same shows in the next step: some own step is enabled until the return. */
  predicate CanMoveAlone(s: State) {
    || Enabled(s, Main)
    || Enabled(s, AB(None)) || Enabled(s, AB(Some(Interrupt(0))))
    || Enabled(s, BA(None)) || Enabled(s, BA(Some(Interrupt(0))))
  }

  /** Between two connections whose Close ends pending calls a cancelled call is never stuck. */
  lemma PromptIsNeverStuck(x: Ends, steps: seq<Step>)
    requires Run(Init(x), steps) && x.aPrompt && x.bPrompt
    requires var s := Exec(Init(x), steps); s.cancelled && s.main != Returned
    ensures CanMoveAlone(Exec(Init(x), steps))
  {
    RunKeepsInv(Init(x), steps);
  }

  lemma {:induction false} RunExtend(s: State, steps: seq<Step>, st: Step)
    requires Run(s, steps) && Enabled(Exec(s, steps), st)
    ensures Run(s, steps + [st]) && Exec(s, steps + [st]) == Apply(Exec(s, steps), st)
    decreases |steps|
  {
    if steps == [] {
      assert steps + [st] == [st];
      assert [st][1..] == [];
      assert Run(Apply(s, st), []);
    } else {
      assert (steps + [st])[1..] == steps[1..] + [st];
      RunExtend(Apply(s, steps[0]), steps[1..], st);
    }
  }

  /** Extends a run by one step while naming the state it leads to. */
  lemma Then(from: State, steps: seq<Step>, s: State, st: Step) returns (more: seq<Step>, t: State)
    requires Run(from, steps) && Exec(from, steps) == s && Enabled(s, st)
    ensures more == steps + [st] && Run(from, more) && t == Apply(s, st) && Exec(from, more) == t
  {
    RunExtend(from, steps, st);
    more, t := steps + [st], Apply(s, st);
  }

  /** A run in which side b is copied to its end before anything else happens. */
  lemma OneSideCanEnd(x: Ends) returns (steps: seq<Step>)
    ensures Run(Init(x), steps)
    ensures Exec(Init(x), steps) == Init(x).(ba := Copier(
              Pump(x.fromB, |x.fromB|, [], x.fromB, Stopped(Clean)), Assigning, 0))
  {
    var init := Init(x);
    steps := [];
    var s := init;
    if x.fromB != [] {
      steps, s := Then(init, steps, s, BA(Some(Read(|x.fromB|))));
      steps, s := Then(init, steps, s, BA(Some(Write)));
    }
    assert s == init.(ba := Copier(Pump(x.fromB, |x.fromB|, [], x.fromB, Running), Copying, 0));
    steps, s := Then(init, steps, s, BA(Some(EndOfFile)));
    steps, s := Then(init, steps, s, BA(None));
  }

  /** With a connection like an SSH channel on side a it can be: the service on side b has said
      all it had to, both connections are closed, and the copier that reads from side a waits for
      a peer that neither sends nor answers. */
  lemma ChannelCanBeStuck(x: Ends) returns (steps: seq<Step>)
    requires !x.aPrompt
    ensures Run(Init(x), steps)
    ensures var s := Exec(Init(x), steps);
      && s.cancelled && !s.external && s.a.shut && s.b.shut
      && s.ba.pump.dst == x.fromB && s.main != Returned && !CanMoveAlone(s) && !CanReturnAlone(s)
  {
    var init := Init(x);
    steps := OneSideCanEnd(x);
    var s := Exec(init, steps);
    steps, s := Then(init, steps, s, BA(None));
    steps, s := Then(init, steps, s, BA(None));
    steps, s := Then(init, steps, s, Main);
    steps, s := Then(init, steps, s, Main);
    steps, s := Then(init, steps, s, Main);
    ReturnsAloneIff(x, steps);
  }

  // ── Every call takes finitely many steps ────────────────────────────

  function CopierLeft(c: Copier): int {
    match c.pc
    case Copying =>
      if c.pump.status.Stopped? then 3
      else 2 * (|c.pump.src| - c.pump.taken) + (if c.pump.buf == [] then 4 else 5)
    case Assigning => 2
    case Cancelling => 1
    case Exited => 0
  }

  function MainLeft(m: MainPc): int {
    match m
    case AwaitCancel => 4
    case ClosingA => 3
    case ClosingB => 2
    case Joining => 1
    case Returned => 0
  }

  /** An upper bound on the steps the call has left, cancellation and answers from outside aside. */
  function Left(s: State): int { CopierLeft(s.ab) + CopierLeft(s.ba) + MainLeft(s.main) }

  predicate Own(st: Step) { st.AB? || st.BA? || st.Main? }

  function OwnSteps(steps: seq<Step>): nat {
    if steps == [] then 0 else (if Own(steps[0]) then 1 else 0) + OwnSteps(steps[1..])
  }

  lemma StepsCountDown(s: State, st: Step)
    requires Inv(s) && Enabled(s, st)
    ensures 0 <= Left(Apply(s, st)) <= Left(s) - (if Own(st) then 1 else 0)
  {
  }

  lemma {:induction false} OwnStepsAreBounded(s: State, steps: seq<Step>)
    requires Inv(s) && Run(s, steps)
    ensures 0 <= Left(Exec(s, steps)) <= Left(s) - OwnSteps(steps)
    decreases |steps|
  {
    if steps != [] {
      StepKeepsInv(s, steps[0]);
      StepsCountDown(s, steps[0]);
      OwnStepsAreBounded(Apply(s, steps[0]), steps[1..]);
    }
  }

  /** No run goes on for ever: a call takes at most two steps for each byte it may carry and
      twelve more, under any schedule and any cancellation. */
  lemma CallIsFinite(x: Ends, steps: seq<Step>)
    requires Run(Init(x), steps)
    ensures OwnSteps(steps) <= 12 + 2 * |x.fromA| + 2 * |x.fromB|
  {
    OwnStepsAreBounded(Init(x), steps);
  }
}
