/** The inductive invariant of the reverse tunnel, kept by every step of every actor. */
module TunnelInvariant {
  import opened Common
  import opened Metrics
  import opened TunnelMachine
  import Bridge

  // ── WaitGroup accounting ────────────────────────────────────────────

  function LiveKeepalive(p: KeepalivePc): int { if p.KExited? then 0 else 1 }

  function LiveHandler(c: Conn): int { if c.pc.HNew? || c.pc.HExited? then 0 else 1 }

  /** The accept loop's own count, plus one for a goroutine it has added but not started. */
  function AcceptCount(a: AcceptPc): int {
    match a
    case AIdle => 0
    case AExited => 0
    case AGo => 2
    case RGoKeepalive => 2
    case _ => 1
  }

  function StartCount(p: MainPc): int { if p.MGoKeepalive? || p.MGoAccept? then 1 else 0 }

  function Live(s: State): int {
    StartCount(s.main) + AcceptCount(s.acc) + Sum(LiveKeepalive, s.kas) + Sum(LiveHandler, s.conns)
  }

  predicate WgInv(s: State) { s.sh.wg == Live(s) }

  // ── Connections and counters ────────────────────────────────────────

  function ActiveHandler(c: Conn): int {
    if c.pc.HDial? || c.pc.HBridge? || c.pc.HBytesIn? || c.pc.HBytesOut? || c.pc.HCloseLocal? || c.pc.HMetric? then 1 else 0
  }

  function InCounted(c: Conn): int {
    if c.pc.HNew? || c.pc.HDial? || c.pc.HBridge? || c.pc.HBytesIn? then 0 else Carried(c.bridge).0
  }

  function OutCounted(c: Conn): int {
    if c.pc.HNew? || c.pc.HDial? || c.pc.HBridge? || c.pc.HBytesIn? || c.pc.HBytesOut? then 0 else Carried(c.bridge).1
  }

  predicate ConnectionCounts(s: State) {
    && s.m.total == |s.conns| - (if s.acc.AMetric? then 1 else 0)
    && s.m.active == Sum(ActiveHandler, s.conns) + (if s.acc.AAdd? || s.acc.AGo? then 1 else 0)
  }

  predicate ByteCounts(s: State) {
    && s.m.bytesIn == Sum(InCounted, s.conns)
    && s.m.bytesOut == Sum(OutCounted, s.conns)
  }

  predicate ConnOk(c: Conn) {
    && (c.pc.HNew? || c.pc.HDial? ==> c.local == NotDialled)
    && (c.pc.HNew? || c.pc.HDial? || c.pc.HBridge? ==> c.bridge.None?)
    && (c.pc.HBytesIn? || c.pc.HBytesOut? || c.pc.HCloseLocal? ==> c.bridge.Some?)
    && (c.pc.HMetric? || c.pc.HCloseRemote? || c.pc.HLeave? || c.pc.HExited? ==> c.local != LocalOpen)
    && (c.pc.HLeave? || c.pc.HExited? ==> !c.remoteOpen)
    && (c.bridge.Some? ==> Bridge.Settled(c.bridge.value))
  }

  predicate Spawning(a: AcceptPc) { a.AMetric? || a.AAdd? || a.AGo? }

  predicate ConnInv(s: State) {
    && (forall i :: 0 <= i < |s.conns| ==> ConnOk(s.conns[i]))
    && (forall i :: 0 <= i < |s.conns| ==>
          (s.conns[i].pc.HNew? <==> Spawning(s.acc) && i == |s.conns| - 1))
    && (Spawning(s.acc) ==> s.conns != [])
  }

  // ── Who owns which client and listener ──────────────────────────────

  /** The client an actor has dialled but not stored in the shared field. */
  function LocalClient(s: State): set<nat> {
    match s.acc
    case RListen(_, c) => {c}
    case RUndo(_, c) => {c}
    case RInstall(c, _) => {c}
    case _ => if s.main.MSetClient? then {s.main.c} else {}
  }

  function LocalListener(s: State): set<nat> {
    if s.acc.RInstall? then {s.acc.l} else if s.main.MSetListener? then {s.main.l} else {}
  }

  function AsSet(o: Option<nat>): set<nat> { if o.Some? then {o.value} else {} }

  predicate Reconnecting(a: AcceptPc) {
    a.RCheck? || a.RDial? || a.RHandshake? || a.RListen? || a.RUndo? || a.RSleep? || a.RInstall?
  }

  predicate ClientInv(s: State) {
    && s.sh.openClients <= LocalClient(s) + AsSet(s.sh.client)
    && (LocalClient(s) != {} || Reconnecting(s.acc) ==> s.sh.client == None)
    && (forall c :: c in s.sh.openClients ==> c < s.sh.dialled)
    && (s.sh.client.Some? ==> s.sh.client.value < s.sh.dialled)
    && (s.acc.RListen? || s.acc.RUndo? || s.acc.RInstall? ==> s.acc.c < s.sh.dialled)
    && (s.main.MSetClient? ==> s.main.c < s.sh.dialled)
    && (s.main.MValidate? || s.main.MListen? || s.main.MUndo? ==> s.sh.client == Some(s.main.c))
  }

  /** A listener in the shared field is the newest one, and runs on the client in the shared field. */
  predicate ListenerInv(s: State) {
    && s.sh.openListeners <= LocalListener(s) + AsSet(s.sh.listener)
    && (LocalListener(s) != {} || Reconnecting(s.acc) ==> s.sh.listener == None)
    && (forall l :: l in s.sh.openListeners ==> l < |s.sh.owner|)
    && (s.sh.listener.Some? ==>
          && s.sh.listener.value == |s.sh.owner| - 1
          && s.sh.client == Some(s.sh.owner[s.sh.listener.value]))
    && LocalListener(s) <= s.sh.openListeners
    && (s.acc.AAccept? ==> s.acc.l == |s.sh.owner| - 1)
    && (s.acc.RInstall? ==> s.acc.l == |s.sh.owner| - 1 && s.sh.owner[s.acc.l] == s.acc.c)
    && (s.main.MSetListener? ==>
          s.main.l == |s.sh.owner| - 1 && s.sh.client == Some(s.sh.owner[s.main.l]))
  }

  // ── Phases of Run ───────────────────────────────────────────────────

  predicate BeforeSpawn(p: MainPc) {
    InStart(p) && !(p.MWatch? || p.MAddKeepalive? || p.MGoKeepalive? || p.MAddAccept? || p.MGoAccept?)
  }

  predicate Closing(p: MainPc) {
    p.MClose? || p.MCloseCancel? || p.MCloseListener? || p.MGrace? || p.MCloseClient? || (p.MReturned? && p.ok)
  }

  predicate PhaseInv(s: State) {
    && (InStart(s.main) || (s.main.MReturned? && !s.main.ok) ==> s.acc.AIdle? && s.conns == [])
    && (BeforeSpawn(s.main) || (s.main.MReturned? && !s.main.ok) ==> s.kas == [] && s.watch.WNone? && s.sh.listener == None)
    && (s.main.MWatch? ==> s.kas == [] && s.watch.WNone?)
    && (s.main.MWait? || Closing(s.main) ==> !s.acc.AIdle?)
    && (s.watch.WNone? ==> BeforeSpawn(s.main) || s.main.MWatch? || (s.main.MReturned? && !s.main.ok))
    && (s.sh.closed <==> Closing(s.main) && !s.main.MClose?)
    && (s.acc.ALeave? || s.acc.AExited? ==> s.sh.ctxDone)
    && (s.watch.WDone? ==> s.sh.ctxDone)
    && (Closing(s.main) ==> s.sh.wg == 0 && s.acc.AExited?)
    && (s.main.MGrace? || s.main.MCloseClient? || (s.main.MReturned? && s.main.ok) ==> s.sh.listener == None)
    && (s.main.MReturned? && s.main.ok ==> s.sh.client == None)
    && (s.main.MDial? || s.main.MSetClient? ==> s.sh.client == None)
    && (s.main.MDial? ==> s.sh.dialled == 0)
    && (s.main.MFailCancel? || (s.main.MReturned? && !s.main.ok) ==> s.sh.openClients == {})
    && (s.main.MReturned? && !s.main.ok ==> s.sh.ctxDone)
  }

  // ── How much a run may acquire ──────────────────────────────────────

  /** The first client, and up to `attempts` for each reconnect. */
  function ClientBudget(attempts: nat, reconnects: int): int {
    if reconnects <= 0 then 1 else ClientBudget(attempts, reconnects - 1) + attempts
  }

  predicate BudgetInv(s: State) {
    var h := s.sh;
    var attempts := s.cfg.attempts;
    var earlier := ClientBudget(attempts, s.m.reconnects - 1);
    && s.m.reconnects >= 0
    && h.dialled <= ClientBudget(attempts, s.m.reconnects)
    && |h.owner| <= 1 + s.m.reconnects
    && (match s.acc
        case RTeardown => h.dialled <= earlier
        case RCheck(k) => 1 <= k <= attempts + 1 && h.dialled <= earlier + k - 1
        case RDial(k) => 1 <= k <= attempts && h.dialled <= earlier + k - 1
        case RHandshake(k) => 1 <= k <= attempts && h.dialled <= earlier + k - 1
        case RListen(k, _) => 1 <= k <= attempts && h.dialled <= earlier + k
        case RUndo(k, _) => 1 <= k <= attempts && h.dialled <= earlier + k
        case RSleep(k) => 1 <= k <= attempts && h.dialled <= earlier + k
        case _ => true)
    && (s.acc.RTeardown? || Reconnecting(s.acc) ==> s.m.reconnects >= 1)
    && (s.acc.RTeardown? || (Reconnecting(s.acc) && !s.acc.RInstall?) ==> |h.owner| <= s.m.reconnects)
    && (InStart(s.main) ==> s.m.reconnects == 0)
    && (s.main.MDial? ==> h.dialled == 0)
    && (InStart(s.main) && BeforeSpawn(s.main) && !s.main.MSetListener? ==> h.owner == [])
  }

  predicate Inv(s: State) {
    && WgInv(s) && ConnectionCounts(s) && ByteCounts(s) && ConnInv(s)
    && ClientInv(s) && ListenerInv(s) && PhaseInv(s) && BudgetInv(s)
  }

  lemma InitInv(cfg: Config)
    ensures Inv(Init(cfg))
  {
  }

  /** Weights of live goroutines are never negative, and a zero sum is zero everywhere. */
  lemma LiveNonNegative(s: State)
    ensures Sum(LiveKeepalive, s.kas) >= 0 && Sum(LiveHandler, s.conns) >= 0
    ensures Live(s) >= 0
    ensures Live(s) == 0 ==>
      && (s.acc.AIdle? || s.acc.AExited?)
      && (forall i :: 0 <= i < |s.kas| ==> s.kas[i].KExited?)
      && (forall i :: 0 <= i < |s.conns| ==> s.conns[i].pc.HNew? || s.conns[i].pc.HExited?)
  {
    SumNonNegative(LiveKeepalive, s.kas);
    SumNonNegative(LiveHandler, s.conns);
    if Live(s) == 0 {
      forall i | 0 <= i < |s.kas| ensures s.kas[i].KExited? {
        assert LiveKeepalive(s.kas[i]) == 0;
      }
      forall i | 0 <= i < |s.conns| ensures s.conns[i].pc.HNew? || s.conns[i].pc.HExited? {
        assert LiveHandler(s.conns[i]) == 0;
      }
    }
  }

  /** Replacing one connection moves each total by the difference of its weights. */
  lemma ConnSums(cs: seq<Conn>, i: nat, c: Conn)
    requires i < |cs|
    ensures Sum(LiveHandler, cs[i := c]) == Sum(LiveHandler, cs) - LiveHandler(cs[i]) + LiveHandler(c)
    ensures Sum(ActiveHandler, cs[i := c]) == Sum(ActiveHandler, cs) - ActiveHandler(cs[i]) + ActiveHandler(c)
    ensures Sum(InCounted, cs[i := c]) == Sum(InCounted, cs) - InCounted(cs[i]) + InCounted(c)
    ensures Sum(OutCounted, cs[i := c]) == Sum(OutCounted, cs) - OutCounted(cs[i]) + OutCounted(c)
  {
    SumUpdate(LiveHandler, cs, i, c);
    SumUpdate(ActiveHandler, cs, i, c);
    SumUpdate(InCounted, cs, i, c);
    SumUpdate(OutCounted, cs, i, c);
  }

  lemma NewConnSums(cs: seq<Conn>, c: Conn)
    requires c.pc.HNew?
    ensures Sum(LiveHandler, cs + [c]) == Sum(LiveHandler, cs)
    ensures Sum(ActiveHandler, cs + [c]) == Sum(ActiveHandler, cs)
    ensures Sum(InCounted, cs + [c]) == Sum(InCounted, cs)
    ensures Sum(OutCounted, cs + [c]) == Sum(OutCounted, cs)
  {
    SumAppend(LiveHandler, cs, c);
    SumAppend(ActiveHandler, cs, c);
    SumAppend(InCounted, cs, c);
    SumAppend(OutCounted, cs, c);
  }

  /** A step that spawns a keepalive loop or none, and moves the counter with the goroutines
      about to run, keeps it exact. */
  lemma WgMoves(s: State, t: State, spawned: bool)
    requires WgInv(s) && t.conns == s.conns && t.kas == if spawned then s.kas + [KWait] else s.kas
    requires t.sh.wg - StartCount(t.main) - AcceptCount(t.acc)
             == s.sh.wg - StartCount(s.main) - AcceptCount(s.acc) + if spawned then 1 else 0
    ensures WgInv(t)
  {
    if spawned {
      SumAppend(LiveKeepalive, s.kas, KWait);
    }
  }

  // ── Run ─────────────────────────────────────────────────────────────

  lemma MainKeepsWg(s: State, ok: bool)
    requires WgInv(s) && PhaseInv(s) && MainEnabled(s)
    ensures WgInv(MainStep(s, ok))
  {
    WgMoves(s, MainStep(s, ok), s.main.MGoKeepalive?);
  }

  lemma MainKeepsConns(s: State, ok: bool)
    requires ConnectionCounts(s) && ByteCounts(s) && ConnInv(s) && PhaseInv(s) && MainEnabled(s)
    ensures var t := MainStep(s, ok); ConnectionCounts(t) && ByteCounts(t) && ConnInv(t)
  {
    assert MainStep(s, ok).conns == s.conns && MainStep(s, ok).m == s.m;
  }

  lemma MainKeepsClients(s: State, ok: bool)
    requires ClientInv(s) && PhaseInv(s) && MainEnabled(s)
    ensures ClientInv(MainStep(s, ok))
  {
  }

  lemma MainKeepsListeners(s: State, ok: bool)
    requires ClientInv(s) && ListenerInv(s) && PhaseInv(s) && MainEnabled(s)
    ensures ListenerInv(MainStep(s, ok))
  {
  }

  lemma MainKeepsPhases(s: State, ok: bool)
    requires WgInv(s) && ClientInv(s) && PhaseInv(s) && MainEnabled(s)
    ensures PhaseInv(MainStep(s, ok))
  {
    LiveNonNegative(s);
  }

  lemma MainKeepsBudget(s: State, ok: bool)
    requires BudgetInv(s) && PhaseInv(s) && MainEnabled(s)
    ensures BudgetInv(MainStep(s, ok))
  {
  }

  lemma MainKeepsInv(s: State, ok: bool)
    requires Inv(s) && MainEnabled(s)
    ensures Inv(MainStep(s, ok))
  {
    MainKeepsWg(s, ok);
    MainKeepsConns(s, ok);
    MainKeepsClients(s, ok);
    MainKeepsListeners(s, ok);
    MainKeepsPhases(s, ok);
    MainKeepsBudget(s, ok);
  }

  // ── The accept loop outside reconnect ───────────────────────────────

  lemma LoopKeepsWg(s: State, ok: bool)
    requires WgInv(s) && ConnInv(s) && AcceptEnabled(s) && !InReconnect(s.acc)
    ensures WgInv(LoopStep(s, ok))
  {
    if s.acc.AAccept? && ok {
      NewConnSums(s.conns, Conn(true, NotDialled, HNew, None));
    } else if s.acc.AGo? {
      var i := |s.conns| - 1;
      ConnSums(s.conns, i, s.conns[i].(pc := HDial));
    } else {
      assert LoopStep(s, ok).conns == s.conns;
    }
  }

  lemma LoopKeepsCounts(s: State, ok: bool)
    requires ConnectionCounts(s) && ByteCounts(s) && ConnInv(s) && AcceptEnabled(s) && !InReconnect(s.acc)
    ensures ConnectionCounts(LoopStep(s, ok)) && ByteCounts(LoopStep(s, ok))
  {
    if s.acc.AAccept? && ok {
      NewConnSums(s.conns, Conn(true, NotDialled, HNew, None));
    } else if s.acc.AGo? {
      var i := |s.conns| - 1;
      ConnSums(s.conns, i, s.conns[i].(pc := HDial));
    } else {
      assert LoopStep(s, ok).conns == s.conns;
    }
  }

  lemma LoopKeepsConns(s: State, ok: bool)
    requires ConnInv(s) && AcceptEnabled(s) && !InReconnect(s.acc)
    ensures ConnInv(LoopStep(s, ok))
  {
  }

  lemma LoopKeepsOwnership(s: State, ok: bool)
    requires ClientInv(s) && ListenerInv(s) && BudgetInv(s) && AcceptEnabled(s) && !InReconnect(s.acc)
    requires !InStart(s.main)
    ensures var t := LoopStep(s, ok); ClientInv(t) && ListenerInv(t) && BudgetInv(t)
  {
  }

  lemma LoopKeepsPhases(s: State, ok: bool)
    requires PhaseInv(s) && AcceptEnabled(s) && !InReconnect(s.acc)
    ensures PhaseInv(LoopStep(s, ok))
  {
  }

  lemma LoopKeepsInv(s: State, ok: bool)
    requires Inv(s) && AcceptEnabled(s) && !InReconnect(s.acc)
    ensures Inv(LoopStep(s, ok))
  {
    LoopKeepsOwnership(s, ok);
    LoopKeepsPhases(s, ok);
    LoopKeepsWg(s, ok);
    LoopKeepsCounts(s, ok);
    LoopKeepsConns(s, ok);
  }

  // ── Reconnect ───────────────────────────────────────────────────────

  lemma ReconnectKeepsWg(s: State, ok: bool)
    requires WgInv(s) && InReconnect(s.acc)
    ensures WgInv(ReconnectStep(s, ok))
  {
    WgMoves(s, ReconnectStep(s, ok), s.acc.RGoKeepalive?);
  }

  lemma ReconnectKeepsConns(s: State, ok: bool)
    requires ConnectionCounts(s) && ByteCounts(s) && ConnInv(s) && InReconnect(s.acc)
    ensures var t := ReconnectStep(s, ok); ConnectionCounts(t) && ByteCounts(t) && ConnInv(t)
  {
    var t := ReconnectStep(s, ok);
    assert t.conns == s.conns && !Spawning(t.acc);
    assert t.m == s.m.(reconnects := t.m.reconnects);
  }

  lemma ReconnectKeepsOwnership(s: State, ok: bool)
    requires ClientInv(s) && ListenerInv(s) && PhaseInv(s) && InReconnect(s.acc)
    ensures ClientInv(ReconnectStep(s, ok)) && ListenerInv(ReconnectStep(s, ok))
  {
  }

  lemma ReconnectKeepsBudget(s: State, ok: bool)
    requires BudgetInv(s) && PhaseInv(s) && InReconnect(s.acc)
    ensures BudgetInv(ReconnectStep(s, ok))
  {
  }

  lemma ReconnectKeepsInv(s: State, ok: bool)
    requires Inv(s) && InReconnect(s.acc)
    ensures Inv(ReconnectStep(s, ok))
  {
    LiveNonNegative(s);
    ReconnectKeepsWg(s, ok);
    ReconnectKeepsConns(s, ok);
    ReconnectKeepsOwnership(s, ok);
    ReconnectKeepsBudget(s, ok);
  }

  // ── Keepalive loops, handlers, and the rest ─────────────────────────

  lemma KeepaliveKeepsTotals(s: State, i: nat, ok: bool)
    requires WgInv(s) && ConnectionCounts(s) && ByteCounts(s) && ConnInv(s) && KeepaliveEnabled(s, i, ok)
    ensures var t := KeepaliveStep(s, i, ok); WgInv(t) && ConnectionCounts(t) && ByteCounts(t) && ConnInv(t)
  {
    SumUpdate(LiveKeepalive, s.kas, i, KeepaliveStep(s, i, ok).kas[i]);
  }

  lemma KeepaliveKeepsClients(s: State, i: nat, ok: bool)
    requires ClientInv(s) && BudgetInv(s) && KeepaliveEnabled(s, i, ok)
    ensures ClientInv(KeepaliveStep(s, i, ok)) && BudgetInv(KeepaliveStep(s, i, ok))
  {
    var t := KeepaliveStep(s, i, ok);
    assert t.acc == s.acc && t.main == s.main && t.m == s.m;
    assert t.sh.client == s.sh.client && t.sh.openClients == s.sh.openClients && t.sh.dialled == s.sh.dialled;
    assert t.sh.owner == s.sh.owner;
    assert LocalClient(t) == LocalClient(s);
  }

  lemma KeepaliveKeepsListeners(s: State, i: nat, ok: bool)
    requires ListenerInv(s) && KeepaliveEnabled(s, i, ok)
    ensures ListenerInv(KeepaliveStep(s, i, ok))
  {
    var t := KeepaliveStep(s, i, ok);
    assert LocalListener(t) == LocalListener(s);
    assert t.sh.owner == s.sh.owner && t.sh.client == s.sh.client;
    if s.kas[i].KFail? {
      assert t.sh.openListeners == s.sh.openListeners - AsSet(s.sh.listener);
    } else {
      assert t.sh.openListeners == s.sh.openListeners && t.sh.listener == s.sh.listener;
    }
  }

  lemma KeepaliveKeepsPhases(s: State, i: nat, ok: bool)
    requires WgInv(s) && PhaseInv(s) && KeepaliveEnabled(s, i, ok)
    ensures PhaseInv(KeepaliveStep(s, i, ok))
  {
    LiveNonNegative(s);
  }

  lemma KeepaliveKeepsInv(s: State, i: nat, ok: bool)
    requires Inv(s) && KeepaliveEnabled(s, i, ok)
    ensures Inv(KeepaliveStep(s, i, ok))
  {
    KeepaliveKeepsTotals(s, i, ok);
    KeepaliveKeepsClients(s, i, ok);
    KeepaliveKeepsListeners(s, i, ok);
    KeepaliveKeepsPhases(s, i, ok);
  }

  lemma HandleKeepsWg(s: State, i: nat, ok: bool, fin: Bridge.State)
    requires WgInv(s) && HandleEnabled(s, i, fin)
    ensures WgInv(HandleStep(s, i, ok, fin))
  {
    var c := HandleStep(s, i, ok, fin).conns[i];
    assert HandleStep(s, i, ok, fin).conns == s.conns[i := c];
    SumUpdate(LiveHandler, s.conns, i, c);
  }

  lemma HandleKeepsCounts(s: State, i: nat, ok: bool, fin: Bridge.State)
    requires ConnectionCounts(s) && HandleEnabled(s, i, fin)
    ensures ConnectionCounts(HandleStep(s, i, ok, fin))
  {
    var c := HandleStep(s, i, ok, fin).conns[i];
    assert HandleStep(s, i, ok, fin).conns == s.conns[i := c];
    SumUpdate(ActiveHandler, s.conns, i, c);
  }

  lemma HandleKeepsBytes(s: State, i: nat, ok: bool, fin: Bridge.State)
    requires ByteCounts(s) && ConnInv(s) && HandleEnabled(s, i, fin)
    ensures ByteCounts(HandleStep(s, i, ok, fin))
  {
    var c := HandleStep(s, i, ok, fin).conns[i];
    assert HandleStep(s, i, ok, fin).conns == s.conns[i := c];
    SumUpdate(InCounted, s.conns, i, c);
    SumUpdate(OutCounted, s.conns, i, c);
  }

  lemma HandleKeepsConns(s: State, i: nat, ok: bool, fin: Bridge.State)
    requires ConnInv(s) && HandleEnabled(s, i, fin)
    ensures ConnInv(HandleStep(s, i, ok, fin))
  {
    var c := HandleStep(s, i, ok, fin).conns[i];
    assert HandleStep(s, i, ok, fin).conns == s.conns[i := c];
    if s.conns[i].pc.HBridge? {
      Bridge.ReturnsDeliveredLengths(fin);
    }
    assert ConnOk(c);
  }

  /** Handlers touch nothing but connections, counters and the WaitGroup. */
  lemma HandleLeavesRest(s: State, i: nat, ok: bool, fin: Bridge.State)
    requires HandleEnabled(s, i, fin)
    ensures var t := HandleStep(s, i, ok, fin);
      t == s.(conns := t.conns, m := t.m, sh := s.sh.(wg := t.sh.wg)) && t.m.reconnects == s.m.reconnects
  {
  }

  lemma RestIsKept(s: State, t: State)
    requires ClientInv(s) && ListenerInv(s) && PhaseInv(s) && BudgetInv(s) && !Closing(s.main) && s.conns != []
    requires t == s.(conns := t.conns, m := t.m, sh := s.sh.(wg := t.sh.wg)) && t.m.reconnects == s.m.reconnects
    ensures ClientInv(t) && ListenerInv(t) && PhaseInv(t) && BudgetInv(t)
  {
  }

  lemma HandleKeepsRest(s: State, i: nat, ok: bool, fin: Bridge.State)
    requires WgInv(s) && ClientInv(s) && ListenerInv(s) && PhaseInv(s) && BudgetInv(s) && HandleEnabled(s, i, fin)
    ensures var t := HandleStep(s, i, ok, fin); ClientInv(t) && ListenerInv(t) && PhaseInv(t) && BudgetInv(t)
  {
    LiveNonNegative(s);
    HandleLeavesRest(s, i, ok, fin);
    RestIsKept(s, HandleStep(s, i, ok, fin));
  }

  lemma HandleKeepsInv(s: State, i: nat, ok: bool, fin: Bridge.State)
    requires Inv(s) && HandleEnabled(s, i, fin)
    ensures Inv(HandleStep(s, i, ok, fin))
  {
    HandleKeepsRest(s, i, ok, fin);
    HandleKeepsWg(s, i, ok, fin);
    HandleKeepsCounts(s, i, ok, fin);
    HandleKeepsBytes(s, i, ok, fin);
    HandleKeepsConns(s, i, ok, fin);
  }

  lemma CancelKeepsInv(s: State)
    requires Inv(s)
    ensures Inv(s.(sh := Signal(s.sh)))
  {
  }

  lemma WatchKeepsInv(s: State)
    requires Inv(s) && s.watch.WWait? && s.sh.ctxDone
    ensures Inv(s.(sh := ShutListener(s.sh), watch := WDone))
  {
  }

  lemma StepKeepsInv(s: State, st: Step)
    requires Inv(s) && Enabled(s, st)
    ensures Inv(Apply(s, st))
  {
    match st {
      case Main(ok) => MainKeepsInv(s, ok);
      case Accept(ok) => if InReconnect(s.acc) { ReconnectKeepsInv(s, ok); } else { LoopKeepsInv(s, ok); }
      case Keepalive(i, ok) => KeepaliveKeepsInv(s, i, ok);
      case Handle(i, ok, fin) => HandleKeepsInv(s, i, ok, fin);
      case Cancel => CancelKeepsInv(s);
      case Watch => WatchKeepsInv(s);
    }
  }

  lemma {:induction false} RunKeepsInv(s: State, steps: seq<Step>)
    requires Inv(s) && Run(s, steps)
    ensures Inv(Exec(s, steps))
    decreases |steps|
  {
    if steps != [] {
      StepKeepsInv(s, steps[0]);
      RunKeepsInv(Apply(s, steps[0]), steps[1..]);
    }
  }
}
