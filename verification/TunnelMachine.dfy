/** The reverse tunnel as an interleaved step system: Start/Wait/Close driven by Run,
    one accept loop, any number of keepalive loops and connection handlers, and the
    context watcher.  One step is one critical section, one blocking call returning,
    or one WaitGroup, counter or context operation.  SSH and TCP outcomes are chosen by
    the environment; every client, listener and connection has an identity. */
module TunnelMachine {
  import opened Common
  import opened Metrics
  import Bridge

  /** The limits reconnect is written with. */
  const MAX_ATTEMPTS: nat := 10
  const MAX_BACKOFF: nat := 60 * SECOND

  /** The settings a tunnel runs with.  `attempts` and `maxBackoff` stand for reconnect's two
      constants; nothing proved here depends on their values. */
  datatype Config = Config(
    keepAlive: bool, autoReconnect: bool, checkGateway: bool, attempts: nat, maxBackoff: nat)

  /** What the goroutines share.  Client `c` was the c-th one dialled, listener `l` the
      l-th one opened, on client `owner[l]`; the open sets hold those not yet closed. */
  datatype Shared = Shared(
    client: Option<nat>,
    listener: Option<nat>,
    closed: bool,
    ctxDone: bool,
    wg: int,
    dialled: nat,
    openClients: set<nat>,
    owner: seq<nat>,
    openListeners: set<nat>)

  // ── Critical sections and calls, as functions on the shared state ───

  function DialClient(h: Shared): Shared {
    h.(dialled := h.dialled + 1, openClients := h.openClients + {h.dialled})
  }

  function OpenListener(h: Shared, c: nat): Shared {
    h.(owner := h.owner + [c], openListeners := h.openListeners + {|h.owner|})
  }

  function CloseClient(h: Shared, c: nat): Shared { h.(openClients := h.openClients - {c}) }

  /** Closes the current listener but leaves the field as it is. */
  function ShutListener(h: Shared): Shared {
    if h.listener.Some? then h.(openListeners := h.openListeners - {h.listener.value}) else h
  }

  function DropListener(h: Shared): Shared { ShutListener(h).(listener := None) }

  function DropClient(h: Shared): Shared {
    if h.client.Some? then CloseClient(h, h.client.value).(client := None) else h
  }

  function Teardown(h: Shared): Shared { DropClient(DropListener(h)) }

  function Install(h: Shared, c: nat, l: nat): Shared { h.(client := Some(c), listener := Some(l)) }

  // ── Program counters ────────────────────────────────────────────────

  /** Run: Start up to its return, then Wait, then Close. */
  datatype MainPc =
    | MDial | MSetClient(c: nat) | MValidate(c: nat) | MListen(c: nat) | MUndo(c: nat) | MFailCancel
    | MSetListener(l: nat) | MWatch | MAddKeepalive | MGoKeepalive | MAddAccept | MGoAccept
    | MWait | MClose | MCloseCancel | MCloseListener | MGrace | MCloseClient
    | MReturned(ok: bool)

  /** acceptLoop, and reconnect inside it: `k` is the attempt number. */
  datatype AcceptPc =
    | AIdle | ARead | AAccept(l: nat) | AError
    | AMetric | AAdd | AGo
    | RMetric | RTeardown | RCheck(k: nat) | RDial(k: nat) | RHandshake(k: nat) | RListen(k: nat, c: nat)
    | RUndo(k: nat, c: nat)
    | RSleep(k: nat) | RInstall(c: nat, l: nat) | RAddKeepalive | RGoKeepalive
    | ACancel | ALeave | AExited

  datatype KeepalivePc = KWait | KRead | KSend(c: nat) | KFail | KLeave | KExited

  datatype HandlerPc =
    | HNew | HDial | HBridge | HBytesIn | HBytesOut | HCloseLocal | HMetric | HCloseRemote | HLeave | HExited

  datatype WatchPc = WNone | WWait | WDone

  datatype LocalConn = NotDialled | LocalOpen | LocalClosed

  /** An accepted remote connection and the handler that serves it. */
  datatype Conn = Conn(remoteOpen: bool, local: LocalConn, pc: HandlerPc, bridge: Option<Bridge.State>)

  datatype State = State(
    cfg: Config,
    sh: Shared,
    m: Counters,
    main: MainPc,
    acc: AcceptPc,
    kas: seq<KeepalivePc>,
    conns: seq<Conn>,
    watch: WatchPc)

  /** `ok` is the outcome of the call the actor is in, where it has one. */
  datatype Step =
    | Cancel
    | Main(ok: bool)
    | Accept(ok: bool)
    | Keepalive(i: nat, ok: bool)
    | Handle(i: nat, ok: bool, fin: Bridge.State)
    | Watch

  const NOTHING := Shared(None, None, false, false, 0, 0, {}, [], {})

  function Init(cfg: Config): State { State(cfg, NOTHING, ZERO, MDial, AIdle, [], [], WNone) }

  function Signal(h: Shared): Shared { h.(ctxDone := true) }

  function Add(h: Shared, n: int): Shared { h.(wg := h.wg + n) }

  // ── Start ───────────────────────────────────────────────────────────

  predicate InStart(p: MainPc) {
    || p.MDial? || p.MSetClient? || p.MValidate? || p.MListen? || p.MUndo? || p.MFailCancel?
    || p.MSetListener? || p.MWatch? || p.MAddKeepalive? || p.MGoKeepalive? || p.MAddAccept? || p.MGoAccept?
  }

  function StartStep(s: State, ok: bool): State
    requires InStart(s.main)
  {
    var h := s.sh;
    match s.main
    case MDial => if ok then s.(sh := DialClient(h), main := MSetClient(h.dialled)) else s.(main := MFailCancel)
    case MSetClient(c) =>
      s.(sh := h.(client := Some(c)), main := if s.cfg.checkGateway then MValidate(c) else MListen(c))
    case MValidate(c) => s.(main := if ok then MListen(c) else MUndo(c))
    case MListen(c) =>
      if ok then s.(sh := OpenListener(h, c), main := MSetListener(|h.owner|)) else s.(main := MUndo(c))
    case MUndo(c) => s.(sh := CloseClient(h, c), main := MFailCancel)
    case MFailCancel => s.(sh := Signal(h), main := MReturned(false))
    case MSetListener(l) => s.(sh := h.(listener := Some(l)), main := MWatch)
    case MWatch => s.(watch := WWait, main := if s.cfg.keepAlive then MAddKeepalive else MAddAccept)
    case MAddKeepalive => s.(sh := Add(h, 1), main := MGoKeepalive)
    case MGoKeepalive => s.(kas := s.kas + [KWait], main := MAddAccept)
    case MAddAccept => s.(sh := Add(h, 1), main := MGoAccept)
    case MGoAccept => s.(acc := ARead, main := MWait)
  }

  // ── Wait and Close ──────────────────────────────────────────────────

  predicate MainEnabled(s: State) { !s.main.MReturned? && (s.main.MWait? ==> s.sh.wg == 0) }

  /** The grace period of Close may run out before the WaitGroup is zero. */
  function CloseStep(s: State): State {
    var h := s.sh;
    match s.main
    case MWait => s.(main := MClose)
    case MClose => if h.closed then s.(main := MReturned(true)) else s.(sh := h.(closed := true), main := MCloseCancel)
    case MCloseCancel => s.(sh := Signal(h), main := MCloseListener)
    case MCloseListener => s.(sh := DropListener(h), main := MGrace)
    case MGrace => s.(main := MCloseClient)
    case MCloseClient => s.(sh := DropClient(h), main := MReturned(true))
    case _ => s
  }

  function MainStep(s: State, ok: bool): State { if InStart(s.main) then StartStep(s, ok) else CloseStep(s) }

  // ── acceptLoop ──────────────────────────────────────────────────────

  predicate AcceptEnabled(s: State) { !s.acc.AIdle? && !s.acc.AExited? }

  function LoopStep(s: State, ok: bool): State {
    var h := s.sh;
    match s.acc
    case ARead => s.(acc := if h.listener.Some? then AAccept(h.listener.value) else ACancel)
    case AAccept(_) =>
      if ok then s.(conns := s.conns + [Conn(true, NotDialled, HNew, None)], acc := AMetric) else s.(acc := AError)
    case AError => s.(acc := if h.ctxDone || !s.cfg.autoReconnect then ACancel else RMetric)
    case AMetric => s.(m := Opened(s.m), acc := AAdd)
    case AAdd => s.(sh := Add(h, 1), acc := AGo)
    case AGo =>
      if s.conns == [] then s
      else
        var i := |s.conns| - 1;
        s.(conns := s.conns[i := s.conns[i].(pc := HDial)], acc := ARead)
    case ACancel => s.(sh := Signal(h), acc := ALeave)
    case ALeave => s.(sh := Add(h, -1), acc := AExited)
    case _ => s
  }

  // ── reconnect ───────────────────────────────────────────────────────

  predicate InReconnect(a: AcceptPc) {
    || a.RMetric? || a.RTeardown? || a.RCheck? || a.RDial? || a.RHandshake? || a.RListen? || a.RUndo? || a.RSleep?
    || a.RInstall? || a.RAddKeepalive? || a.RGoKeepalive?
  }

  /** The TCP half of dialSSH fails once the context is done; the SSH handshake takes no notice of it. */
  function ReconnectStep(s: State, ok: bool): State
    requires InReconnect(s.acc)
  {
    var h := s.sh;
    match s.acc
    case RMetric => s.(m := s.m.(reconnects := s.m.reconnects + 1), acc := RTeardown)
    case RTeardown => s.(sh := Teardown(h), acc := RCheck(1))
    case RCheck(k) => s.(acc := if k > s.cfg.attempts || h.ctxDone then ACancel else RDial(k))
    case RDial(k) => s.(acc := if ok && !h.ctxDone then RHandshake(k) else RSleep(k))
    case RHandshake(k) =>
      if ok then s.(sh := DialClient(h), acc := RListen(k, h.dialled)) else s.(acc := RSleep(k))
    case RListen(k, c) =>
      if ok then s.(sh := OpenListener(h, c), acc := RInstall(c, |h.owner|)) else s.(acc := RUndo(k, c))
    case RUndo(k, c) => s.(sh := CloseClient(h, c), acc := RSleep(k))
    case RSleep(k) => s.(acc := RCheck(k + 1))
    case RInstall(c, l) => s.(sh := Install(h, c, l), acc := if s.cfg.keepAlive then RAddKeepalive else ARead)
    case RAddKeepalive => s.(sh := Add(h, 1), acc := RGoKeepalive)
    case RGoKeepalive => s.(kas := s.kas + [KWait], acc := ARead)
  }

  function AcceptStep(s: State, ok: bool): State {
    if InReconnect(s.acc) then ReconnectStep(s, ok) else LoopStep(s, ok)
  }

  // ── keepaliveLoop ───────────────────────────────────────────────────

  predicate KeepaliveEnabled(s: State, i: nat, ok: bool) {
    i < |s.kas| && !s.kas[i].KExited? && (s.kas[i].KWait? && !ok ==> s.sh.ctxDone)
  }

  function KeepaliveStep(s: State, i: nat, ok: bool): State
    requires KeepaliveEnabled(s, i, ok)
  {
    match s.kas[i]
    case KWait => s.(kas := s.kas[i := if ok then KRead else KLeave])
    case KRead => s.(kas := s.kas[i := if s.sh.client.Some? then KSend(s.sh.client.value) else KLeave])
    case KSend(_) => s.(kas := s.kas[i := if ok then KWait else KFail])
    case KFail => s.(sh := DropListener(s.sh), kas := s.kas[i := KLeave])
    case KLeave => s.(sh := Add(s.sh, -1), kas := s.kas[i := KExited])
    case KExited => s
  }

  // ── handleConnection ────────────────────────────────────────────────

  /** A bridge runs under the tunnel's context, so outside help means that was cancelled. */
  ghost predicate HandleEnabled(s: State, i: nat, fin: Bridge.State) {
    && i < |s.conns|
    && !s.conns[i].pc.HNew? && !s.conns[i].pc.HExited?
    && (s.conns[i].pc.HBridge? ==> Bridge.Finished(fin) && (fin.external ==> s.sh.ctxDone))
  }

  function WithConn(s: State, i: nat, c: Conn): State
    requires i < |s.conns|
  {
    s.(conns := s.conns[i := c])
  }

  function Carried(b: Option<Bridge.State>): (nat, nat) {
    if b.Some? then (b.value.ab.ret, b.value.ba.ret) else (0, 0)
  }

  function HandleStep(s: State, i: nat, ok: bool, fin: Bridge.State): State
    requires i < |s.conns|
  {
    var c := s.conns[i];
    match c.pc
    case HNew => s
    case HDial => WithConn(s, i, if ok then c.(local := LocalOpen, pc := HBridge) else c.(pc := HMetric))
    case HBridge =>
      WithConn(s, i, c.(remoteOpen := false, local := LocalClosed, bridge := Some(fin), pc := HBytesIn))
    case HBytesIn =>
      WithConn(s, i, c.(pc := HBytesOut)).(m := s.m.(bytesIn := s.m.bytesIn + Carried(c.bridge).0))
    case HBytesOut =>
      WithConn(s, i, c.(pc := HCloseLocal)).(m := s.m.(bytesOut := s.m.bytesOut + Carried(c.bridge).1))
    case HCloseLocal => WithConn(s, i, c.(local := LocalClosed, pc := HMetric))
    case HMetric => WithConn(s, i, c.(pc := HCloseRemote)).(m := ClosedOne(s.m))
    case HCloseRemote => WithConn(s, i, c.(remoteOpen := false, pc := HLeave))
    case HLeave => WithConn(s, i, c.(pc := HExited)).(sh := Add(s.sh, -1))
    case HExited => s
  }

  // ── The whole system ────────────────────────────────────────────────

  ghost predicate Enabled(s: State, st: Step) {
    match st
    case Cancel => true
    case Main(_) => MainEnabled(s)
    case Accept(_) => AcceptEnabled(s)
    case Keepalive(i, ok) => KeepaliveEnabled(s, i, ok)
    case Handle(i, _, fin) => HandleEnabled(s, i, fin)
    case Watch => s.watch.WWait? && s.sh.ctxDone
  }

  ghost function Apply(s: State, st: Step): State
    requires Enabled(s, st)
  {
    match st
    case Cancel => s.(sh := Signal(s.sh))
    case Main(ok) => MainStep(s, ok)
    case Accept(ok) => AcceptStep(s, ok)
    case Keepalive(i, ok) => KeepaliveStep(s, i, ok)
    case Handle(i, ok, fin) => HandleStep(s, i, ok, fin)
    case Watch => s.(sh := ShutListener(s.sh), watch := WDone)
  }

  ghost predicate Run(s: State, steps: seq<Step>)
    decreases |steps|
  {
    steps == [] || (Enabled(s, steps[0]) && Run(Apply(s, steps[0]), steps[1..]))
  }

  ghost function Exec(s: State, steps: seq<Step>): State
    requires Run(s, steps)
    decreases |steps|
  {
    if steps == [] then s else Exec(Apply(s, steps[0]), steps[1..])
  }

  /** Runs are extended at the end one step at a time. */
  lemma {:induction false} RunExtend(s: State, steps: seq<Step>, st: Step)
    requires Run(s, steps) && Enabled(Exec(s, steps), st)
    ensures Run(s, steps + [st])
    ensures Exec(s, steps + [st]) == Apply(Exec(s, steps), st)
    decreases |steps|
  {
    if steps == [] {
      assert steps + [st] == [st];
      assert [st][1..] == [];
      assert Run(Apply(s, st), []);
    } else {
      assert (steps + [st])[1..] == steps[1..] + [st];
      RunExtend(Apply(s, steps[0]), steps[1..], st);
    }
  }

  lemma {:induction false} RunConcat(s: State, a: seq<Step>, b: seq<Step>)
    requires Run(s, a) && Run(Exec(s, a), b)
    ensures Run(s, a + b) && Exec(s, a + b) == Exec(Exec(s, a), b)
    decreases |a|
  {
    if a == [] {
      assert a + b == b;
    } else {
      assert (a + b)[1..] == a[1..] + b;
      RunConcat(Apply(s, a[0]), a[1..], b);
    }
  }
}
