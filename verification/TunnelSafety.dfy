/** What holds of every run of the reverse tunnel, under every interleaving. */
module TunnelSafety {
  import opened Common
  import opened Metrics
  import opened TunnelMachine
  import opened TunnelInvariant
  import Bridge

  /** The state a run of the whole system ends in. */
  ghost function After(cfg: Config, steps: seq<Step>): State
    requires Run(Init(cfg), steps)
  {
    Exec(Init(cfg), steps)
  }

  lemma ReachableInv(cfg: Config, steps: seq<Step>)
    requires Run(Init(cfg), steps)
    ensures Inv(After(cfg, steps))
  {
    InitInv(cfg);
    RunKeepsInv(Init(cfg), steps);
  }

  lemma {:induction false} RunKeepsConfig(s: State, steps: seq<Step>)
    requires Run(s, steps)
    ensures Exec(s, steps).cfg == s.cfg
    decreases |steps|
  {
    if steps != [] {
      RunKeepsConfig(Apply(s, steps[0]), steps[1..]);
    }
  }

  // ── End of a run ────────────────────────────────────────────────────

  function DeliveredIn(c: Conn): int { if c.bridge.Some? then |c.bridge.value.ab.pump.dst| else 0 }

  function DeliveredOut(c: Conn): int { if c.bridge.Some? then |c.bridge.value.ba.pump.dst| else 0 }

  ghost predicate NoGoroutines(s: State) {
    && (s.acc.AIdle? || s.acc.AExited?)
    && (forall i :: 0 <= i < |s.kas| ==> s.kas[i].KExited?)
    && (forall i :: 0 <= i < |s.conns| ==> s.conns[i].pc.HExited?)
    && s.sh.ctxDone
  }

  ghost predicate NothingOpen(s: State) {
    && s.sh.openClients == {}
    && s.sh.openListeners == {}
    && (forall i :: 0 <= i < |s.conns| ==> !s.conns[i].remoteOpen && s.conns[i].local != LocalOpen)
  }

  /** When Run returns, with or without an error, every client ever dialled, every listener
      ever opened, every accepted and every local connection has been closed, every
      goroutine counted by the WaitGroup has returned, and the context is cancelled so that
      the watcher is released too.  After a successful Start both shared fields are nil. */
  lemma NothingLeaks(cfg: Config, steps: seq<Step>)
    requires Run(Init(cfg), steps)
    requires After(cfg, steps).main.MReturned?
    ensures var s := After(cfg, steps);
      && NothingOpen(s) && NoGoroutines(s) && s.sh.wg == 0
      && (s.main.ok ==> s.sh.client == None && s.sh.listener == None)
  {
    ReachableInv(cfg, steps);
    var s := After(cfg, steps);
    LiveNonNegative(s);
    forall i | 0 <= i < |s.conns|
      ensures s.conns[i].pc.HExited? && !s.conns[i].remoteOpen && s.conns[i].local != LocalOpen
    {
      assert ConnOk(s.conns[i]);
    }
  }

  lemma {:induction false} SumSame(f: Conn -> int, g: Conn -> int, cs: seq<Conn>)
    requires forall i :: 0 <= i < |cs| ==> f(cs[i]) == g(cs[i])
    ensures Sum(f, cs) == Sum(g, cs)
  {
    if cs != [] {
      SumSame(f, g, cs[..|cs| - 1]);
    }
  }

  lemma {:induction false} SumZero(f: Conn -> int, cs: seq<Conn>)
    requires forall i :: 0 <= i < |cs| ==> f(cs[i]) == 0
    ensures Sum(f, cs) == 0
  {
    if cs != [] {
      SumZero(f, cs[..|cs| - 1]);
    }
  }

  predicate AllReturned(s: State) {
    && s.acc.AExited?
    && (forall i :: 0 <= i < |s.kas| ==> s.kas[i].KExited?)
    && (forall i :: 0 <= i < |s.conns| ==> s.conns[i].pc.HExited?)
  }

  lemma AllReturnedIsZero(s: State)
    requires Inv(s) && s.main.MWait?
    ensures s.sh.wg == 0 <==> AllReturned(s)
  {
    LiveNonNegative(s);
    if AllReturned(s) {
      KeepalivesGone(s.kas);
      SumZero(LiveHandler, s.conns);
    }
  }

  lemma {:induction false} KeepalivesGone(kas: seq<KeepalivePc>)
    requires forall i :: 0 <= i < |kas| ==> kas[i].KExited?
    ensures Sum(LiveKeepalive, kas) == 0
  {
    if kas != [] {
      KeepalivesGone(kas[..|kas| - 1]);
    }
  }

  /** What Wait waits for: in every run it can return exactly when the accept loop, every
      keepalive loop and every handler have returned; then the context is cancelled, every
      connection is closed, and it stays so in every continuation. */
  lemma WaitReturnsWhenAllReturned(cfg: Config, steps: seq<Step>, later: seq<Step>)
    requires Run(Init(cfg), steps) && After(cfg, steps).main.MWait?
    ensures Enabled(After(cfg, steps), Main(true)) <==> AllReturned(After(cfg, steps))
    ensures AllReturned(After(cfg, steps)) && Run(After(cfg, steps), later) ==>
      var t := Exec(After(cfg, steps), later);
      && AllReturned(t) && t.sh.ctxDone && t.conns == After(cfg, steps).conns
      && forall i :: 0 <= i < |t.conns| ==> !t.conns[i].remoteOpen && t.conns[i].local != LocalOpen
  {
    ReachableInv(cfg, steps);
    var s := After(cfg, steps);
    AllReturnedIsZero(s);
    if AllReturned(s) && Run(s, later) {
      ZeroIsStable(s, later);
      RunKeepsInv(s, later);
      var t := Exec(s, later);
      ReturnedStays(s, later);
      forall i | 0 <= i < |t.conns| ensures !t.conns[i].remoteOpen && t.conns[i].local != LocalOpen {
        assert ConnOk(t.conns[i]);
      }
    }
  }

  /** An accept loop that has returned is not started again after Start. */
  lemma {:induction false} ReturnedStays(s: State, steps: seq<Step>)
    requires s.acc.AExited? && !InStart(s.main) && Run(s, steps)
    ensures Exec(s, steps).acc.AExited?
    decreases |steps|
  {
    if steps != [] {
      ReturnedStays(Apply(s, steps[0]), steps[1..]);
    }
  }

  /** Once the WaitGroup is zero after Start, no connection counts as active, each accepted
      one has been counted once, and the byte counters are the lengths actually delivered by
      the bridges, summed over all connections. */
  lemma CountersAreExact(cfg: Config, steps: seq<Step>)
    requires Run(Init(cfg), steps)
    requires var s := After(cfg, steps); !InStart(s.main) && s.sh.wg == 0
    ensures var s := After(cfg, steps);
      && s.m.active == 0 && s.m.total == |s.conns|
      && s.m.bytesIn == Sum(DeliveredIn, s.conns)
      && s.m.bytesOut == Sum(DeliveredOut, s.conns)
  {
    ReachableInv(cfg, steps);
    var s := After(cfg, steps);
    LiveNonNegative(s);
    forall i | 0 <= i < |s.conns|
      ensures ActiveHandler(s.conns[i]) == 0
      ensures InCounted(s.conns[i]) == DeliveredIn(s.conns[i])
      ensures OutCounted(s.conns[i]) == DeliveredOut(s.conns[i])
    {
      assert ConnOk(s.conns[i]) && s.conns[i].pc.HExited?;
    }
    SumZero(ActiveHandler, s.conns);
    SumSame(InCounted, DeliveredIn, s.conns);
    SumSame(OutCounted, DeliveredOut, s.conns);
  }

  // ── The WaitGroup ───────────────────────────────────────────────────

  /** The counter is always exactly the number of goroutines running or about to run,
      and so never negative. */
  lemma WaitGroupIsExact(cfg: Config, steps: seq<Step>)
    requires Run(Init(cfg), steps)
    ensures After(cfg, steps).sh.wg == Live(After(cfg, steps)) >= 0
  {
    ReachableInv(cfg, steps);
    LiveNonNegative(After(cfg, steps));
  }

  /** Once Start has returned, whoever adds to the counter holds a count itself. */
  lemma AddersHoldACount(s: State, st: Step)
    requires Inv(s) && Enabled(s, st) && !InStart(s.main)
    ensures Apply(s, st).sh.wg > s.sh.wg ==> st.Accept? && AcceptCount(s.acc) >= 1 && s.sh.wg >= 1
  {
    LiveNonNegative(s);
    match st {
      case Main(ok) => assert CloseStep(s).sh.wg == s.sh.wg;
      case Keepalive(i, ok) => assert KeepaliveStep(s, i, ok).sh.wg <= s.sh.wg;
      case Handle(i, ok, fin) => assert HandleStep(s, i, ok, fin).sh.wg <= s.sh.wg;
      case _ =>
    }
  }

  /** After Start, zero is final: no later step of any actor makes the counter move again. */
  lemma {:induction false} ZeroIsStable(s: State, steps: seq<Step>)
    requires Inv(s) && !InStart(s.main) && s.sh.wg == 0
    requires Run(s, steps)
    ensures Exec(s, steps).sh.wg == 0 && Exec(s, steps).conns == s.conns && Exec(s, steps).kas == s.kas
    decreases |steps|
  {
    if steps != [] {
      var st := steps[0];
      LiveNonNegative(s);
      StepKeepsInv(s, st);
      var t := Apply(s, st);
      assert !st.Accept? && !st.Keepalive? && !st.Handle?;
      assert t.sh.wg == 0 && t.conns == s.conns && t.kas == s.kas && !InStart(t.main);
      ZeroIsStable(t, steps[1..]);
    }
  }

  // ── Clients and listeners ───────────────────────────────────────────

  /** In every reachable state at most one dialled client is not yet closed; a listener in
      the shared field is the newest one opened, and belongs to the client in the shared
      field, which was installed with it. */
  lemma OneClientAtATime(cfg: Config, steps: seq<Step>)
    requires Run(Init(cfg), steps)
    ensures var s := After(cfg, steps);
      && |s.sh.openClients| <= 1 && |s.sh.openListeners| <= 1
      && (s.sh.listener.Some? ==>
            && s.sh.listener.value == |s.sh.owner| - 1
            && s.sh.client == Some(s.sh.owner[s.sh.listener.value]))
  {
    ReachableInv(cfg, steps);
    var s := After(cfg, steps);
    AtMostOne(s.sh.openClients, LocalClient(s), AsSet(s.sh.client));
    AtMostOne(s.sh.openListeners, LocalListener(s), AsSet(s.sh.listener));
  }

  lemma AtMostOne(open: set<nat>, a: set<nat>, b: set<nat>)
    requires open <= a + b
    requires a == {} || b == {}
    requires a == {} || exists x :: a == {x}
    requires b == {} || exists x :: b == {x}
    ensures |open| <= 1
  {
    if a + b == {} {
      assert open == {};
    } else {
      var x :| x in a + b;
      assert a + b == {x};
      assert open == {} || open == {x};
    }
  }

  lemma {:induction false} BudgetIsProduct(attempts: nat, reconnects: nat)
    ensures ClientBudget(attempts, reconnects) == 1 + attempts * reconnects
  {
    if reconnects > 0 {
      BudgetIsProduct(attempts, reconnects - 1);
      assert attempts * reconnects == attempts * (reconnects - 1) + attempts;
    }
  }

  /** A run never acquires more than it may: one client per attempt and one listener per reconnect. */
  lemma DialsAreBounded(cfg: Config, steps: seq<Step>)
    requires Run(Init(cfg), steps)
    ensures var s := After(cfg, steps);
      && s.sh.dialled <= 1 + cfg.attempts * s.m.reconnects
      && |s.sh.owner| <= 1 + s.m.reconnects
      && (cfg.attempts == MAX_ATTEMPTS ==> s.sh.dialled <= 1 + 10 * s.m.reconnects)
  {
    ReachableInv(cfg, steps);
    RunKeepsConfig(Init(cfg), steps);
    BudgetIsProduct(cfg.attempts, After(cfg, steps).m.reconnects);
  }

  /** While reconnect is between teardown and install, nobody else touches the fields: both stay nil. */
  lemma FieldsAreNilWhileReconnecting(cfg: Config, steps: seq<Step>)
    requires Run(Init(cfg), steps)
    requires Reconnecting(After(cfg, steps).acc)
    ensures After(cfg, steps).sh.client == None && After(cfg, steps).sh.listener == None
  {
    ReachableInv(cfg, steps);
  }
}
