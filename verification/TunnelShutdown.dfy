/** Two promises of the reverse tunnel that hold only in part, with the exact condition:
    that cancelling the context unblocks a waiting Accept, and that a failed keepalive
    leaves reconnection to the accept loop. */
module TunnelShutdown {
  import opened Common
  import opened Metrics
  import opened TunnelMachine
  import opened TunnelInvariant
  import opened TunnelSafety

  // ── Cancellation and Accept ─────────────────────────────────────────

  /** The accept loop waits on a listener nobody has closed. */
  predicate Blocked(s: State) { s.acc.AAccept? && s.acc.l in s.sh.openListeners }

  /** Past reconnect's last look at the context, with the new listener not yet installed. */
  predicate InWindow(a: AcceptPc) { a.RHandshake? || a.RListen? || a.RInstall? }

  ghost predicate CanBlock(s: State) {
    exists steps :: Run(s, steps) && Blocked(Exec(s, steps))
  }

  predicate Settled(s: State) {
    s.sh.ctxDone && s.watch.WDone? && !InWindow(s.acc) && s.sh.openListeners == {}
  }

  lemma MainKeepsSettled(s: State, ok: bool)
    requires PhaseInv(s) && Settled(s) && MainEnabled(s)
    ensures Settled(MainStep(s, ok))
  {
    assert !BeforeSpawn(s.main) && !s.main.MWatch?;
  }

  lemma StepKeepsSettled(s: State, st: Step)
    requires PhaseInv(s) && Settled(s) && Enabled(s, st)
    ensures Settled(Apply(s, st))
  {
    match st {
      case Main(ok) => MainKeepsSettled(s, ok);
      case _ =>
    }
  }

  lemma {:induction false} SettledNeverBlocks(s: State, steps: seq<Step>)
    requires Inv(s) && Settled(s) && Run(s, steps)
    ensures !Blocked(Exec(s, steps))
    decreases |steps|
  {
    if steps != [] {
      StepKeepsInv(s, steps[0]);
      StepKeepsSettled(s, steps[0]);
      SettledNeverBlocks(Apply(s, steps[0]), steps[1..]);
    }
  }

  /** Between the window and the next Accept, with the new listener installed and open. */
  predicate Heading(s: State) {
    || s.acc.RHandshake? || s.acc.RListen?
    || (s.acc.RInstall? && s.acc.l in s.sh.openListeners)
    || ((s.acc.RAddKeepalive? || s.acc.RGoKeepalive? || s.acc.ARead?)
        && s.sh.listener.Some? && s.sh.listener.value in s.sh.openListeners)
    || Blocked(s)
  }

  function Distance(a: AcceptPc): nat {
    match a
    case RHandshake(_) => 6
    case RListen(_, _) => 5
    case RInstall(_, _) => 4
    case RAddKeepalive => 3
    case RGoKeepalive => 2
    case ARead => 1
    case _ => 0
  }

  /** From there the accept loop alone can get to a blocked Accept. */
  lemma {:induction false} HeadingReachesBlocked(s: State) returns (steps: seq<Step>)
    requires Heading(s)
    ensures Run(s, steps) && Blocked(Exec(s, steps))
    ensures var t := Exec(s, steps);
      t.main == s.main && t.watch == s.watch && (t.sh.ctxDone <==> s.sh.ctxDone)
      && (!s.cfg.keepAlive && !s.acc.RAddKeepalive? && !s.acc.RGoKeepalive? ==> t.kas == s.kas)
    decreases Distance(s.acc)
  {
    if Blocked(s) {
      steps := [];
    } else {
      var t := Apply(s, Accept(true));
      var rest := HeadingReachesBlocked(t);
      steps := [Accept(true)] + rest;
      assert steps[1..] == rest;
    }
  }

  lemma CanBlockIffInWindow(s: State)
    requires Inv(s) && s.watch.WDone? && s.sh.openListeners <= LocalListener(s)
    ensures CanBlock(s) <==> InWindow(s.acc)
  {
    if InWindow(s.acc) {
      var steps := HeadingReachesBlocked(s);
    } else {
      forall steps | Run(s, steps)
        ensures !Blocked(Exec(s, steps))
      {
        SettledNeverBlocks(s, steps);
      }
    }
  }

  /** When the watcher reacts to cancellation, Accept is released, and it stays released in
      every continuation if and only if reconnect is not at that moment between the TCP
      connection of its dial, the last thing to heed the context, and the installation of its
      new listener.  The watcher does not fire again. */
  lemma CancelReleasesAccept(s: State)
    requires Inv(s) && Enabled(s, Watch)
    ensures !Blocked(Apply(s, Watch))
    ensures CanBlock(Apply(s, Watch)) <==> InWindow(s.acc)
  {
    StepKeepsInv(s, Watch);
    var t := Apply(s, Watch);
    assert LocalListener(t) == LocalListener(s);
    assert t.sh.openListeners == s.sh.openListeners - AsSet(s.sh.listener);
    CanBlockIffInWindow(t);
  }

  /** Once blocked like that with every keepalive loop gone, a run stays blocked and Run never
      returns for as long as the remote side lets Accept wait, cancelled or not. */
  lemma BlockedStepStaysBlocked(s: State, st: Step)
    requires Inv(s) && Blocked(s) && s.watch.WDone? && Enabled(s, st) && !st.Accept?
    requires forall i :: 0 <= i < |s.kas| ==> s.kas[i].KExited?
    ensures var t := Apply(s, st); Blocked(t) && t.kas == s.kas && t.watch == s.watch
  {
    LiveNonNegative(s);
    assert !st.Watch? && !st.Keepalive? && !st.Main?;
  }

  lemma {:induction false} BlockedStaysBlocked(s: State, steps: seq<Step>)
    requires Inv(s) && Blocked(s) && s.watch.WDone? && Run(s, steps)
    requires forall i :: 0 <= i < |s.kas| ==> s.kas[i].KExited?
    requires forall i :: 0 <= i < |steps| ==> !steps[i].Accept?
    ensures Blocked(Exec(s, steps)) && !Exec(s, steps).main.MReturned?
    decreases |steps|
  {
    LiveNonNegative(s);
    if steps != [] {
      StepKeepsInv(s, steps[0]);
      BlockedStepStaysBlocked(s, steps[0]);
      BlockedStaysBlocked(Apply(s, steps[0]), steps[1..]);
    }
  }

  /** Extends a run by one step while naming the state it leads to. */
  lemma Then(cfg: Config, steps: seq<Step>, s: State, st: Step) returns (more: seq<Step>, t: State)
    requires Run(Init(cfg), steps) && After(cfg, steps) == s && Enabled(s, st)
    ensures more == steps + [st] && Run(Init(cfg), more) && t == Apply(s, st) && After(cfg, more) == t
  {
    RunExtend(Init(cfg), steps, st);
    more, t := steps + [st], Apply(s, st);
  }

  function ToStart(p: MainPc): nat {
    match p
    case MDial => 7
    case MSetClient(_) => 6
    case MListen(_) => 5
    case MSetListener(_) => 4
    case MWatch => 3
    case MAddAccept => 2
    case MGoAccept => 1
    case _ => 0
  }

  /** From any point of an undisturbed Start without keepalive and gateway check. */
  lemma {:induction false} StartCanSucceed(s: State) returns (steps: seq<Step>)
    requires ToStart(s.main) > 0 && !s.cfg.keepAlive && !s.cfg.checkGateway
    requires ToStart(s.main) < 3 ==> s.watch.WWait?
    ensures Run(s, steps)
    ensures var t := Exec(s, steps);
      && t.main.MWait? && t.acc.ARead? && t.watch.WWait? && t.kas == s.kas && t.cfg == s.cfg
      && t.sh.ctxDone == s.sh.ctxDone && (ToStart(s.main) >= 4 || s.sh.listener.Some? ==> t.sh.listener.Some?)
    decreases ToStart(s.main)
  {
    var t := Apply(s, Main(true));
    var rest: seq<Step> := [];
    if !t.main.MWait? {
      rest := StartCanSucceed(t);
    }
    steps := [Main(true)] + rest;
    assert steps[1..] == rest;
  }

  function ToHandshake(a: AcceptPc): nat {
    match a
    case ARead => 7
    case AAccept(_) => 6
    case AError => 5
    case RMetric => 4
    case RTeardown => 3
    case RCheck(_) => 2
    case RDial(_) => 1
    case _ => 0
  }

  /** An undisturbed accept loop whose Accept fails gets to an SSH handshake again. */
  lemma {:induction false} ConnectionCanBeLost(s: State) returns (steps: seq<Step>)
    requires ToHandshake(s.acc) > 0 && s.cfg.autoReconnect && !s.sh.ctxDone
    requires s.acc.ARead? ==> s.sh.listener.Some?
    requires s.cfg.attempts >= 1 && (s.acc.RCheck? ==> s.acc.k <= s.cfg.attempts)
    ensures Run(s, steps)
    ensures var t := Exec(s, steps);
      t.acc.RHandshake? && t.main == s.main && t.watch == s.watch && t.kas == s.kas && t.cfg == s.cfg
    decreases ToHandshake(s.acc)
  {
    var t := Apply(s, Accept(s.acc.RDial?));
    var rest: seq<Step> := [];
    if !t.acc.RHandshake? {
      rest := ConnectionCanBeLost(t);
    }
    steps := [Accept(s.acc.RDial?)] + rest;
    assert steps[1..] == rest;
  }

  /** A complete run into that situation: the first connection is lost, the context is
      cancelled during the SSH handshake of the reconnection, and that still succeeds. */
  lemma CancelCanHang() returns (cfg: Config, steps: seq<Step>)
    ensures Run(Init(cfg), steps)
    ensures var s := After(cfg, steps);
      && s.sh.ctxDone && s.watch.WDone? && Blocked(s) && s.kas == [] && s.main.MWait?
  {
    cfg := Config(false, true, false, MAX_ATTEMPTS, MAX_BACKOFF);
    steps := StartCanSucceed(Init(cfg));
    var more := ConnectionCanBeLost(After(cfg, steps));
    RunConcat(Init(cfg), steps, more);
    steps := steps + more;
    var s := After(cfg, steps);
    steps, s := Then(cfg, steps, s, Cancel);
    steps, s := Then(cfg, steps, s, Watch);
    var rest := HeadingReachesBlocked(s);
    RunConcat(Init(cfg), steps, rest);
    steps := steps + rest;
  }

  /** Accept is not all that Run waits for: while a bridge has not returned, Run has not, and the SSH
      client it would close after waiting stays as it is, whatever the other goroutines do and
      however often the context is cancelled. */
  lemma {:induction false} BridgeKeepsRunWaiting(s: State, i: nat, steps: seq<Step>)
    requires Inv(s) && i < |s.conns| && s.conns[i].pc.HBridge? && Run(s, steps)
    requires forall j :: 0 <= j < |steps| ==> !(steps[j].Handle? && steps[j].i == i)
    ensures var t := Exec(s, steps);
      i < |t.conns| && t.conns[i] == s.conns[i] && t.main == s.main && s.main.MWait? && t.sh.wg > 0
    decreases |steps|
  {
    BridgeIsCounted(s, i);
    if steps != [] {
      StepKeepsInv(s, steps[0]);
      StepKeepsBridge(s, i, steps[0]);
      BridgeKeepsRunWaiting(Apply(s, steps[0]), i, steps[1..]);
    }
  }

  lemma BridgeIsCounted(s: State, i: nat)
    requires Inv(s) && i < |s.conns| && s.conns[i].pc.HBridge?
    ensures s.main.MWait? && s.sh.wg > 0
  {
    LiveNonNegative(s);
  }

  lemma StepKeepsBridge(s: State, i: nat, st: Step)
    requires ConnInv(s) && s.main.MWait? && s.sh.wg > 0
    requires i < |s.conns| && s.conns[i].pc.HBridge? && Enabled(s, st) && !(st.Handle? && st.i == i)
    ensures var t := Apply(s, st); i < |t.conns| && t.conns[i] == s.conns[i] && t.main == s.main
  {
  }

  // ── A failed keepalive and reconnection ─────────────────────────────

  ghost predicate CanReconnect(s: State) {
    exists steps :: Run(s, steps) && Exec(s, steps).acc.RMetric?
  }

  /** Where a failed keepalive leaves the accept loop with a way to reconnect: it waits in Accept
      or holds an error from it, or a reconnect is under way that can still succeed. */
  predicate CanGoOn(s: State) {
    || s.acc.RMetric?
    || (s.cfg.autoReconnect && !s.sh.ctxDone
        && (|| s.acc.AAccept? || s.acc.AError? || (s.acc.RTeardown? && s.cfg.attempts >= 1) || InAttempt(s)))
  }

  /** Inside a reconnect with an attempt left that has not failed. */
  predicate InAttempt(s: State) {
    || ((s.acc.RCheck? || s.acc.RDial?) && s.acc.k <= s.cfg.attempts)
    || s.acc.RHandshake? || s.acc.RListen? || s.acc.RInstall?
    || ((s.acc.RUndo? || s.acc.RSleep?) && s.acc.k < s.cfg.attempts)
  }

  /** On the way to the next reconnect, each step of the accept loop leading further. */
  predicate OnTheWay(s: State) {
    || CanGoOn(s)
    || (s.cfg.autoReconnect && !s.sh.ctxDone && s.sh.listener.Some?
        && (s.acc.RAddKeepalive? || s.acc.RGoKeepalive? || s.acc.ARead?))
  }

  function ToReconnect(a: AcceptPc): nat {
    match a
    case RUndo(_, _) => 13
    case RSleep(_) => 12
    case RTeardown => 12
    case RCheck(_) => 11
    case RDial(_) => 10
    case RHandshake(_) => 9
    case RListen(_, _) => 8
    case RInstall(_, _) => 7
    case RAddKeepalive => 6
    case RGoKeepalive => 5
    case ARead => 4
    case AAccept(_) => 3
    case AError => 2
    case _ => 0
  }

  lemma {:induction false} WayLeadsToReconnect(s: State) returns (steps: seq<Step>)
    requires OnTheWay(s)
    ensures Run(s, steps) && Exec(s, steps).acc.RMetric?
    decreases ToReconnect(s.acc)
  {
    if s.acc.RMetric? {
      steps := [];
    } else {
      var st := Accept(!s.acc.AAccept?);
      var rest := WayLeadsToReconnect(Apply(s, st));
      steps := [st] + rest;
      assert steps[1..] == rest;
    }
  }

  /** No way back: reconnection is off or the context done, or the listener field is nil and the
      accept loop will read it, or has run out of attempts, before anything else. */
  predicate Orphaned(s: State) {
    && !s.acc.RMetric?
    && (|| s.sh.ctxDone || !s.cfg.autoReconnect
        || (s.sh.listener == None && !BeforeSpawn(s.main) && (ReadsNext(s.acc) || OutOfAttempts(s))))
  }

  predicate ReadsNext(a: AcceptPc) {
    || a.AIdle? || a.ARead? || a.AMetric? || a.AAdd? || a.AGo? || a.RAddKeepalive? || a.RGoKeepalive?
    || a.ACancel? || a.ALeave? || a.AExited?
  }

  predicate OutOfAttempts(s: State) {
    || (s.acc.RTeardown? && s.cfg.attempts == 0)
    || (s.acc.RCheck? && s.acc.k > s.cfg.attempts)
    || ((s.acc.RUndo? || s.acc.RSleep?) && s.acc.k >= s.cfg.attempts)
  }

  lemma MainKeepsOrphaned(s: State, ok: bool)
    requires Orphaned(s) && MainEnabled(s)
    ensures Orphaned(MainStep(s, ok))
  {
  }

  lemma AcceptKeepsOrphaned(s: State, ok: bool)
    requires Orphaned(s) && AcceptEnabled(s)
    ensures Orphaned(AcceptStep(s, ok))
  {
  }

  lemma OthersKeepOrphaned(s: State, t: State)
    requires Orphaned(s) && t.acc == s.acc && t.main == s.main && t.cfg == s.cfg
    requires (s.sh.ctxDone ==> t.sh.ctxDone) && (s.sh.listener == None ==> t.sh.listener == None)
    ensures Orphaned(t)
  {
  }

  lemma StepKeepsOrphaned(s: State, st: Step)
    requires Orphaned(s) && Enabled(s, st)
    ensures Orphaned(Apply(s, st))
  {
    match st {
      case Main(ok) => MainKeepsOrphaned(s, ok);
      case Accept(ok) => AcceptKeepsOrphaned(s, ok);
      case _ => OthersKeepOrphaned(s, Apply(s, st));
    }
  }

  lemma {:induction false} OrphanedNeverReconnects(s: State, steps: seq<Step>)
    requires Orphaned(s) && Run(s, steps)
    ensures !Exec(s, steps).acc.RMetric?
    decreases |steps|
  {
    if steps != [] {
      StepKeepsOrphaned(s, steps[0]);
      OrphanedNeverReconnects(Apply(s, steps[0]), steps[1..]);
    }
  }

  /** A keepalive loop whose request failed closes the listener and sets the field to nil for the
      accept loop to reconnect.  From any reachable state, whoever else is doing what, a later
      reconnect is possible afterwards if and only if the accept loop could go on: it was inside
      Accept or held its error, or in a reconnect not yet past its install.  Otherwise, between
      two connections, before its first Accept or just after a reconnect, it reads nil and the
      tunnel ends. */
  lemma KeepaliveFailureHandsOver(s: State, i: nat, ok: bool)
    requires Inv(s) && i < |s.kas| && s.kas[i].KFail?
    ensures Enabled(s, Keepalive(i, ok))
    ensures CanReconnect(Apply(s, Keepalive(i, ok))) <==> CanGoOn(s)
  {
    var t := Apply(s, Keepalive(i, ok));
    if CanGoOn(s) {
      var steps := WayLeadsToReconnect(t);
    } else {
      AfterFailureOrphaned(s, i, ok);
      forall steps | Run(t, steps)
        ensures !Exec(t, steps).acc.RMetric?
      {
        OrphanedNeverReconnects(t, steps);
      }
    }
  }

  lemma AfterFailureOrphaned(s: State, i: nat, ok: bool)
    requires Inv(s) && i < |s.kas| && s.kas[i].KFail? && !CanGoOn(s)
    ensures Orphaned(KeepaliveStep(s, i, ok))
  {
    assert !BeforeSpawn(s.main);
  }

  // ── A run in which a failed keepalive ends the tunnel ───────────────

  /** Connecting, with nothing yet launched. */
  lemma ConnectCanSucceed(cfg: Config) returns (steps: seq<Step>, s: State)
    requires cfg.keepAlive && !cfg.checkGateway
    ensures Run(Init(cfg), steps) && After(cfg, steps) == s && Cancel !in steps
    ensures s == Init(cfg).(sh := NOTHING.(client := Some(0), listener := Some(0), dialled := 1,
              openClients := {0}, owner := [0], openListeners := {0}), main := MWatch)
  {
    steps := [];
    s := Init(cfg);
    steps, s := Then(cfg, steps, s, Main(true));
    steps, s := Then(cfg, steps, s, Main(true));
    steps, s := Then(cfg, steps, s, Main(true));
    steps, s := Then(cfg, steps, s, Main(true));
  }

  lemma KeepaliveStarts(cfg: Config) returns (steps: seq<Step>, s: State)
    requires cfg.keepAlive && !cfg.checkGateway
    ensures Run(Init(cfg), steps) && After(cfg, steps) == s && Cancel !in steps
    ensures s.main.MAddAccept? && s.acc.AIdle? && s.kas == [KWait] && s.conns == [] && s.m == ZERO
    ensures s.sh.wg == 1 && s.sh.client.Some? && s.sh.listener.Some? && !s.sh.ctxDone && !s.sh.closed
  {
    steps, s := ConnectCanSucceed(cfg);
    steps, s := Then(cfg, steps, s, Main(true));
    steps, s := Then(cfg, steps, s, Main(true));
    steps, s := Then(cfg, steps, s, Main(true));
  }

  lemma StartWithKeepalive(cfg: Config) returns (steps: seq<Step>, s: State)
    requires cfg.keepAlive && !cfg.checkGateway
    ensures Run(Init(cfg), steps) && After(cfg, steps) == s && Cancel !in steps
    ensures s.main.MWait? && s.acc.ARead? && s.kas == [KWait] && s.conns == [] && s.m == ZERO
    ensures s.sh.wg == 2 && s.sh.client.Some? && s.sh.listener.Some? && !s.sh.ctxDone && !s.sh.closed
  {
    steps, s := KeepaliveStarts(cfg);
    steps, s := Then(cfg, steps, s, Main(true));
    steps, s := Then(cfg, steps, s, Main(true));
  }

  /** The first keepalive fails before the accept loop has read the listener. */
  lemma KeepaliveFailsFirst(cfg: Config) returns (steps: seq<Step>, s: State)
    requires cfg.keepAlive && !cfg.checkGateway
    ensures Run(Init(cfg), steps) && After(cfg, steps) == s && Cancel !in steps
    ensures s.main.MWait? && s.acc.ARead? && s.kas == [KExited] && s.conns == []
    ensures s.sh.wg == 1 && s.sh.listener == None && !s.sh.ctxDone && !s.sh.closed && s.m == ZERO
  {
    steps, s := StartWithKeepalive(cfg);
    steps, s := Then(cfg, steps, s, Keepalive(0, true));
    steps, s := Then(cfg, steps, s, Keepalive(0, true));
    steps, s := Then(cfg, steps, s, Keepalive(0, false));
    steps, s := Then(cfg, steps, s, Keepalive(0, true));
    steps, s := Then(cfg, steps, s, Keepalive(0, true));
  }

  /** The accept loop then reads nil and leaves. */
  lemma AcceptLoopGivesUp(cfg: Config) returns (steps: seq<Step>, s: State)
    requires cfg.keepAlive && !cfg.checkGateway
    ensures Run(Init(cfg), steps) && After(cfg, steps) == s && Cancel !in steps
    ensures s.main.MWait? && s.sh.wg == 0 && !s.sh.closed && s.conns == [] && s.m == ZERO
  {
    steps, s := KeepaliveFailsFirst(cfg);
    steps, s := Then(cfg, steps, s, Accept(true));
    steps, s := Then(cfg, steps, s, Accept(true));
    steps, s := Then(cfg, steps, s, Accept(true));
  }

  /** Close takes its steps by itself. */
  function ToReturn(p: MainPc): nat {
    match p
    case MClose => 5
    case MCloseCancel => 4
    case MCloseListener => 3
    case MGrace => 2
    case MCloseClient => 1
    case _ => 0
  }

  lemma {:induction false} CloseReturns(cfg: Config, before: seq<Step>, s: State) returns (steps: seq<Step>)
    requires Run(Init(cfg), before) && After(cfg, before) == s && Cancel !in before
    requires ToReturn(s.main) > 0 || s.main == MReturned(true)
    ensures Run(Init(cfg), steps) && Cancel !in steps
    ensures var t := After(cfg, steps); t.main == MReturned(true) && t.m == s.m && t.conns == s.conns
    decreases ToReturn(s.main)
  {
    steps := before;
    if !s.main.MReturned? {
      var more, t := Then(cfg, before, s, Main(true));
      steps := CloseReturns(cfg, more, t);
    }
  }

  /** A complete run, never cancelled from outside and with reconnection wanted, in which one
      failed keepalive ends the tunnel: Run returns and no reconnect was ever tried. */
  lemma KeepaliveCanEndTunnel() returns (cfg: Config, steps: seq<Step>)
    ensures Run(Init(cfg), steps) && cfg.autoReconnect && Cancel !in steps
    ensures var s := After(cfg, steps); s.main == MReturned(true) && s.m.reconnects == 0 && s.conns == []
  {
    cfg := Config(true, true, false, MAX_ATTEMPTS, MAX_BACKOFF);
    var s: State;
    steps, s := AcceptLoopGivesUp(cfg);
    steps, s := Then(cfg, steps, s, Main(true));
    steps := CloseReturns(cfg, steps, s);
  }
}
