/** When Run returns after cancellation without the remote side: the exact condition on a state in
    which the context watcher has fired. */
module TunnelRelease {
  import opened Common
  import opened TunnelMachine
  import opened TunnelInvariant
  import opened TunnelSafety
  import Bridge

  /** A step that needs nothing from the SSH server or from the two ends of a bridge: no reply to a
      request, no handshake, no connection, no end of a bridge.  Accept returns by itself only from
      a closed listener, a TCP dial fails by itself only under a cancelled context. */
  predicate Local(s: State, st: Step) {
    match st
    case Main(_) => !s.main.MDial? && !s.main.MValidate? && !s.main.MListen?
    case Accept(ok) =>
      && !s.acc.RHandshake? && !s.acc.RListen?
      && (s.acc.AAccept? ==> !ok && s.acc.l !in s.sh.openListeners)
      && (s.acc.RDial? ==> s.sh.ctxDone)
    case Keepalive(i, _) => i < |s.kas| && !s.kas[i].KSend?
    case Handle(i, _, _) => i < |s.conns| && !s.conns[i].pc.HBridge?
    case _ => true
  }

  ghost predicate AllLocal(s: State, steps: seq<Step>)
    requires Run(s, steps)
    decreases |steps|
  {
    steps == [] || (Local(s, steps[0]) && AllLocal(Apply(s, steps[0]), steps[1..]))
  }

  ghost predicate CanReturnLocally(s: State) {
    exists steps :: Run(s, steps) && AllLocal(s, steps) && Exec(s, steps).main.MReturned?
  }

  // ── What holds Run ──────────────────────────────────────────────────

  predicate HeadsForAccept(a: AcceptPc) {
    || a.AIdle? || a.ARead? || a.AAccept? || a.AMetric? || a.AAdd? || a.AGo? || a.RAddKeepalive? || a.RGoKeepalive?
  }

  /** The accept loop will wait on an open listener. */
  predicate ListenerAhead(s: State) {
    s.acc.RInstall? || (HeadsForAccept(s.acc) && s.sh.openListeners != {})
  }

  predicate AtTeardown(a: AcceptPc) { a.RMetric? || a.RTeardown? }

  /** No keepalive loop is about to close the listener after a failed request. */
  predicate NoneFailed(kas: seq<KeepalivePc>) { forall i :: 0 <= i < |kas| ==> !kas[i].KFail? }

  predicate AcceptHeld(s: State) {
    s.acc.RHandshake? || s.acc.RListen? || (ListenerAhead(s) && NoneFailed(s.kas))
  }

  /** In a request, or about to make one over a client that nobody will take away. */
  predicate Asking(s: State, p: KeepalivePc) {
    p.KSend? || (p.KRead? && s.sh.client.Some? && !AtTeardown(s.acc))
  }

  predicate KeepaliveHeld(s: State) { exists i :: 0 <= i < |s.kas| && Asking(s, s.kas[i]) }

  predicate BridgeHeld(s: State) { exists i :: 0 <= i < |s.conns| && s.conns[i].pc.HBridge? }

  predicate Held(s: State) { AcceptHeld(s) || KeepaliveHeld(s) || BridgeHeld(s) }

  /** What holds of every state after the watcher has fired. */
  predicate Fired(s: State) { Inv(s) && s.watch.WDone? && s.sh.ctxDone }

  // ── Held states stay held ───────────────────────────────────────────

  /** Run is still launching goroutines, or waits for one. */
  predicate Pending(s: State) {
    s.sh.ctxDone && ((InStart(s.main) && !BeforeSpawn(s.main)) || (s.main.MWait? && s.sh.wg > 0))
  }

  lemma HeldIsPending(s: State)
    requires Fired(s) && Held(s)
    ensures Pending(s)
  {
    LiveNonNegative(s);
  }

  lemma AcceptStaysHeld(s: State, st: Step)
    requires ListenerInv(s) && PhaseInv(s) && s.watch.WDone? && Pending(s)
    requires AcceptHeld(s) && Enabled(s, st) && Local(s, st)
    ensures AcceptHeld(Apply(s, st))
  {
  }

  lemma KeepaliveStaysHeld(s: State, i: nat, st: Step)
    requires Pending(s) && i < |s.kas| && Asking(s, s.kas[i]) && Enabled(s, st) && Local(s, st)
    ensures i < |Apply(s, st).kas| && Asking(Apply(s, st), Apply(s, st).kas[i])
  {
  }

  lemma BridgeStaysHeld(s: State, i: nat, st: Step)
    requires ConnInv(s) && Pending(s) && i < |s.conns| && s.conns[i].pc.HBridge? && Enabled(s, st) && Local(s, st)
    ensures i < |Apply(s, st).conns| && Apply(s, st).conns[i].pc.HBridge?
  {
  }

  lemma StepStaysHeld(s: State, st: Step)
    requires Fired(s) && Held(s) && Enabled(s, st) && Local(s, st)
    ensures Held(Apply(s, st))
  {
    HeldIsPending(s);
    if AcceptHeld(s) {
      AcceptStaysHeld(s, st);
    } else if i :| 0 <= i < |s.kas| && Asking(s, s.kas[i]) {
      KeepaliveStaysHeld(s, i, st);
    } else {
      var j :| 0 <= j < |s.conns| && s.conns[j].pc.HBridge?;
      BridgeStaysHeld(s, j, st);
    }
  }

  lemma StepKeepsDone(s: State, st: Step)
    requires PhaseInv(s) && s.watch.WDone? && s.sh.ctxDone && Enabled(s, st)
    ensures Apply(s, st).watch.WDone? && Apply(s, st).sh.ctxDone
  {
    assert !s.main.MWatch?;
  }

  lemma StepKeepsFired(s: State, st: Step)
    requires Fired(s) && Enabled(s, st)
    ensures Fired(Apply(s, st))
  {
    StepKeepsInv(s, st);
    StepKeepsDone(s, st);
  }

  lemma {:induction false} HeldNeverReturns(s: State, steps: seq<Step>)
    requires Fired(s) && Held(s) && Run(s, steps) && AllLocal(s, steps)
    ensures !Exec(s, steps).main.MReturned?
    decreases |steps|
  {
    HeldIsPending(s);
    if steps != [] {
      StepKeepsFired(s, steps[0]);
      StepStaysHeld(s, steps[0]);
      HeldNeverReturns(Apply(s, steps[0]), steps[1..]);
    }
  }

  // ── States that are not held come to their end ──────────────────────

  function MainWeight(p: MainPc): nat {
    match p
    case MWatch => 50
    case MAddKeepalive => 49
    case MGoKeepalive => 48
    case MAddAccept => 44
    case MGoAccept => 43
    case MWait => 7
    case MClose => 6
    case MCloseCancel => 5
    case MCloseListener => 4
    case MGrace => 3
    case MCloseClient => 2
    case MReturned(_) => 0
    case _ => 60
  }

  function AcceptWeight(a: AcceptPc): nat {
    match a
    case AIdle => 0
    case RInstall(_, _) => 20
    case RAddKeepalive => 19
    case RGoKeepalive => 18
    case AMetric => 15
    case AAdd => 14
    case AGo => 13
    case ARead => 12
    case AAccept(_) => 11
    case AError => 10
    case RMetric => 9
    case RTeardown => 8
    case RDial(_) => 7
    case RUndo(_, _) => 7
    case RSleep(_) => 6
    case RCheck(_) => 5
    case RHandshake(_) => 30
    case RListen(_, _) => 30
    case ACancel => 3
    case ALeave => 2
    case AExited => 0
  }

  function KeepaliveWeight(p: KeepalivePc): int {
    match p
    case KLeave => 1
    case KExited => 0
    case _ => 3
  }

  function ConnWeight(c: Conn): int {
    match c.pc
    case HNew => 9
    case HDial => 8
    case HBridge => 7
    case HBytesIn => 6
    case HBytesOut => 5
    case HCloseLocal => 4
    case HMetric => 3
    case HCloseRemote => 2
    case HLeave => 1
    case HExited => 0
  }

  function Weight(s: State): int {
    MainWeight(s.main) + AcceptWeight(s.acc) + Sum(KeepaliveWeight, s.kas) + Sum(ConnWeight, s.conns)
  }

  lemma WeightIsNatural(s: State)
    ensures Weight(s) >= 0
  {
    SumNonNegative(KeepaliveWeight, s.kas);
    SumNonNegative(ConnWeight, s.conns);
  }

  /** Stands where a step names the end of a bridge and there is none. */
  const NO_BRIDGE := Bridge.Init(Bridge.Ends([], [], true, true))

  // Run itself.

  lemma MainLighter(s: State)
    requires MainEnabled(s) && !BeforeSpawn(s.main)
    ensures Weight(MainStep(s, true)) < Weight(s)
  {
    if s.main.MGoKeepalive? {
      SumAppend(KeepaliveWeight, s.kas, KWait);
    } else {
      assert MainStep(s, true).kas == s.kas;
    }
  }

  lemma MainStaysFree(s: State)
    requires !Held(s) && MainEnabled(s) && !BeforeSpawn(s.main)
    requires InStart(s.main) || s.acc.AExited?
    requires PhaseInv(s)
    ensures !Held(MainStep(s, true))
  {
    var t := MainStep(s, true);
    assert t.conns == s.conns;
    forall i | 0 <= i < |t.kas| ensures !Asking(t, t.kas[i]) {
      if i < |s.kas| { assert !Asking(s, s.kas[i]); }
    }
    StillFailed(s, t);
  }

  /** A failed keepalive loop, if there was one, is there still. */
  lemma StillFailed(s: State, t: State)
    requires |s.kas| <= |t.kas| && forall i :: 0 <= i < |s.kas| && s.kas[i].KFail? ==> t.kas[i].KFail?
    ensures NoneFailed(t.kas) ==> NoneFailed(s.kas)
  {
    if !NoneFailed(s.kas) {
      var i :| 0 <= i < |s.kas| && s.kas[i].KFail?;
      assert t.kas[i].KFail?;
    }
  }

  lemma MainLeads(s: State) returns (st: Step)
    requires Fired(s) && !Held(s) && MainEnabled(s) && !BeforeSpawn(s.main)
    requires InStart(s.main) || s.sh.wg == 0
    ensures Enabled(s, st) && Local(s, st) && !Held(Apply(s, st)) && Weight(Apply(s, st)) < Weight(s)
  {
    LiveNonNegative(s);
    MainLighter(s);
    MainStaysFree(s);
    st := Main(true);
  }

  // A keepalive loop moves by itself: out of a read that finds no client, out of its wait under a
  // cancelled context, past closing the listener, or out of the program.

  lemma KeepaliveLighter(s: State, i: nat)
    requires KeepaliveEnabled(s, i, false) && !s.kas[i].KSend? && (s.kas[i].KRead? ==> s.sh.client == None)
    ensures Weight(KeepaliveStep(s, i, false)) < Weight(s)
  {
    SumUpdate(KeepaliveWeight, s.kas, i, KeepaliveStep(s, i, false).kas[i]);
  }

  lemma KeepaliveStaysFree(s: State, i: nat)
    requires !Held(s) && ListenerInv(s) && KeepaliveEnabled(s, i, false)
    requires s.kas[i].KRead? ==> s.sh.client == None
    requires s.kas[i].KFail? ==> !InStart(s.main) && !s.acc.RInstall?
    ensures !Held(KeepaliveStep(s, i, false))
  {
    var t := KeepaliveStep(s, i, false);
    assert !Asking(s, s.kas[i]) && t.conns == s.conns && t.acc == s.acc;
    forall j | 0 <= j < |t.kas| ensures !Asking(t, t.kas[j]) {
      assert !Asking(s, s.kas[j]);
    }
    if s.kas[i].KFail? {
      assert t.sh.openListeners == {};
    } else {
      StillFailed(s, t);
    }
  }

  lemma KeepaliveLeads(s: State, i: nat) returns (st: Step)
    requires Fired(s) && !Held(s) && i < |s.kas| && !s.kas[i].KExited?
    requires s.kas[i].KRead? ==> s.sh.client == None
    requires s.kas[i].KFail? ==> !InStart(s.main) && !s.acc.RInstall?
    ensures Enabled(s, st) && Local(s, st) && !Held(Apply(s, st)) && Weight(Apply(s, st)) < Weight(s)
  {
    assert !Asking(s, s.kas[i]);
    KeepaliveLighter(s, i);
    KeepaliveStaysFree(s, i);
    st := Keepalive(i, false);
  }

  // A handler whose dial fails, or whose bridge has ended, runs through its deferred calls.

  lemma HandlerLeads(s: State, i: nat) returns (st: Step)
    requires !Held(s) && i < |s.conns| && !s.conns[i].pc.HNew? && !s.conns[i].pc.HExited?
    ensures Enabled(s, st) && Local(s, st) && !Held(Apply(s, st)) && Weight(Apply(s, st)) < Weight(s)
  {
    st := Handle(i, false, NO_BRIDGE);
    var t := HandleStep(s, i, false, NO_BRIDGE);
    assert t.conns == s.conns[i := t.conns[i]];
    SumUpdate(ConnWeight, s.conns, i, t.conns[i]);
    SameKeepalives(s, t);
    assert !BridgeHeld(t);
  }

  lemma SameKeepalives(s: State, t: State)
    requires t.kas == s.kas && t.acc == s.acc && t.sh.client == s.sh.client && t.sh.openListeners == s.sh.openListeners
    ensures KeepaliveHeld(t) ==> KeepaliveHeld(s)
    ensures AcceptHeld(t) ==> AcceptHeld(s)
  {
    if i :| 0 <= i < |t.kas| && Asking(t, t.kas[i]) {
      assert Asking(s, s.kas[i]);
    }
  }

  // The accept loop, once nobody is about to read the client it takes away or installs.

  lemma AcceptLighter(s: State)
    requires AcceptEnabled(s) && !s.acc.RHandshake? && !s.acc.RListen? && s.sh.ctxDone
    requires s.acc.AGo? ==> s.conns != [] && s.conns[|s.conns| - 1].pc.HNew?
    ensures Weight(AcceptStep(s, !s.acc.AAccept?)) < Weight(s)
  {
    var t := AcceptStep(s, !s.acc.AAccept?);
    if s.acc.RGoKeepalive? {
      SumAppend(KeepaliveWeight, s.kas, KWait);
    } else if s.acc.AGo? {
      var i := |s.conns| - 1;
      SumUpdate(ConnWeight, s.conns, i, s.conns[i].(pc := HDial));
    } else {
      assert t.kas == s.kas && t.conns == s.conns;
    }
  }

  lemma AcceptStaysFree(s: State)
    requires !Held(s) && AcceptEnabled(s) && s.sh.ctxDone
    requires ListenerInv(s) && ConnInv(s)
    requires AtTeardown(s.acc) || forall i :: 0 <= i < |s.kas| ==> !s.kas[i].KRead?
    requires HeadsForAccept(s.acc) ==> s.sh.openListeners == {}
    ensures !Held(AcceptStep(s, !s.acc.AAccept?))
  {
    var t := AcceptStep(s, !s.acc.AAccept?);
    forall i | 0 <= i < |t.kas| ensures !Asking(t, t.kas[i]) {
      if i < |s.kas| { assert !Asking(s, s.kas[i]); }
    }
    StillFailed(s, t);
  }

  lemma AcceptLeads(s: State) returns (st: Step)
    requires Fired(s) && !Held(s) && AcceptEnabled(s)
    requires AtTeardown(s.acc) || forall i :: 0 <= i < |s.kas| ==> !s.kas[i].KRead?
    requires HeadsForAccept(s.acc) ==> s.sh.openListeners == {}
    ensures Enabled(s, st) && Local(s, st) && !Held(Apply(s, st)) && Weight(Apply(s, st)) < Weight(s)
  {
    AcceptLighter(s);
    AcceptStaysFree(s);
    st := Accept(!s.acc.AAccept?);
  }

  // The next step towards the end.

  lemma FreeMoves(s: State) returns (st: Step)
    requires Fired(s) && !Held(s) && !s.main.MReturned?
    ensures Enabled(s, st) && Local(s, st) && !Held(Apply(s, st)) && Weight(Apply(s, st)) < Weight(s)
  {
    assert !BeforeSpawn(s.main);
    if InStart(s.main) {
      st := MainLeads(s);
    } else if AtTeardown(s.acc) {
      st := AcceptLeads(s);
    } else if i: nat :| i < |s.kas| && s.kas[i].KRead? {
      assert !Asking(s, s.kas[i]);
      st := KeepaliveLeads(s, i);
    } else if HeadsForAccept(s.acc) && s.sh.openListeners != {} {
      var i: nat :| i < |s.kas| && s.kas[i].KFail?;
      st := KeepaliveLeads(s, i);
    } else if AcceptEnabled(s) {
      st := AcceptLeads(s);
    } else {
      st := LastMoves(s);
    }
  }

  /** Without an accept loop, the rest leave in any order and Run goes on. */
  lemma LastMoves(s: State) returns (st: Step)
    requires Fired(s) && !Held(s) && !s.main.MReturned? && !InStart(s.main) && !AcceptEnabled(s)
    requires forall i :: 0 <= i < |s.kas| ==> !s.kas[i].KRead?
    ensures Enabled(s, st) && Local(s, st) && !Held(Apply(s, st)) && Weight(Apply(s, st)) < Weight(s)
  {
    if i: nat :| i < |s.kas| && !s.kas[i].KExited? {
      st := KeepaliveLeads(s, i);
    } else if i: nat :| i < |s.conns| && !s.conns[i].pc.HNew? && !s.conns[i].pc.HExited? {
      st := HandlerLeads(s, i);
    } else {
      NobodyLeft(s);
      st := MainLeads(s);
    }
  }

  lemma NobodyLeft(s: State)
    requires Inv(s) && !InStart(s.main) && !s.main.MReturned? && !AcceptEnabled(s)
    requires forall i :: 0 <= i < |s.kas| ==> s.kas[i].KExited?
    requires forall i :: 0 <= i < |s.conns| ==> s.conns[i].pc.HNew? || s.conns[i].pc.HExited?
    ensures s.sh.wg == 0
  {
    KeepalivesGone(s.kas);
    SumZero(LiveHandler, s.conns);
  }

  lemma {:induction false} FreeReturns(s: State) returns (steps: seq<Step>)
    requires Fired(s) && !Held(s)
    ensures Run(s, steps) && AllLocal(s, steps) && Exec(s, steps).main.MReturned?
    decreases Weight(s)
  {
    if s.main.MReturned? {
      steps := [];
    } else {
      var st := FreeMoves(s);
      StepKeepsFired(s, st);
      WeightIsNatural(Apply(s, st));
      var rest := FreeReturns(Apply(s, st));
      steps := [st] + rest;
      assert steps[1..] == rest;
    }
  }

  /** After the context has been cancelled and the watcher has fired, in every reachable state: Run
      can be brought to its return without the remote side if and only if nothing is held by it,
      that is: the accept loop is neither in an SSH handshake or listen request nor heading for an
      open listener that no failed keepalive is about to close; no keepalive loop is in a request
      or about to make one over a client that is not being taken away; and no bridge is at work. */
  lemma ReturnsLocallyIff(cfg: Config, steps: seq<Step>)
    requires Run(Init(cfg), steps) && After(cfg, steps).watch.WDone?
    ensures CanReturnLocally(After(cfg, steps)) <==> !Held(After(cfg, steps))
  {
    ReachableInv(cfg, steps);
    var s := After(cfg, steps);
    if Held(s) {
      forall more | Run(s, more) && AllLocal(s, more)
        ensures !Exec(s, more).main.MReturned?
      {
        HeldNeverReturns(s, more);
      }
    } else {
      var more := FreeReturns(s);
    }
  }
}
