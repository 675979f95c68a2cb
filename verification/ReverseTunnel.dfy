/** The methods of ReverseTunnel as sequential code over its fields.  Every method body is
    proved to be a run of the interleaved machine: `trace` is that run since the object was
    made, and `sys` the state it has reached, so what holds of all runs holds here. */
module ReverseTunnel {
  import opened Common
  import opened Metrics
  import opened TunnelMachine
  import opened TunnelInvariant
  import opened TunnelSafety
  import opened Backoff
  import Bridge

  lemma ContinuedFurther(a: seq<Step>, b: seq<Step>, c: seq<Step>)
    requires Continued(a, b) && Continued(b, c)
    ensures Continued(a, c)
  {
  }

  /** When the context is cancelled inside an attempt, if it is. */
  datatype Moment = Never | Connecting | Handshaking | Listening | Installing

  /** What happens at one attempt of reconnect: whether the context is found cancelled before
      it, how the TCP connection, the SSH handshake and the listen come out, when the context is
      cancelled meanwhile, and when, if at all, the sleep after it is cut short. */
  datatype Attempt = Attempt(
    cancelled: bool, tcp: bool, handshake: bool, listen: bool, strike: Moment, wake: Option<nat>)

  /** Only the TCP connection heeds the context. */
  predicate Dials(a: Attempt) { a.tcp && !a.strike.Connecting? && a.handshake }

  predicate Succeeds(a: Attempt) { Dials(a) && a.listen }

  datatype AttemptEnd = GaveUp | Replaced | Slept(duration: nat)

  /** What Accept gives: a connection, or an error and what reconnect then meets. */
  datatype Accepted = Connection | Failure(cancelled: bool, attempts: nat -> Attempt)

  /** What wakes a keepalive loop, and how the request it then sends comes out. */
  datatype Wakeup = ContextDone | Tick(reply: bool)

  datatype KeepaliveEnd = StillWaiting | Left | RequestFailed

  /** How a keepalive loop over a given client takes a sequence of wakeups. */
  function KeepaliveOutcome(client: Option<nat>, script: seq<Wakeup>): KeepaliveEnd {
    if script == [] then StillWaiting
    else if script[0].ContextDone? || client.None? then Left
    else if script[0].reply then KeepaliveOutcome(client, script[1..])
    else RequestFailed
  }

  /** A run has been continued by the accept loop and the outside alone. */
  predicate Continued(before: seq<Step>, after: seq<Step>) {
    && before <= after
    && forall i :: |before| <= i < |after| ==> after[i].Accept? || after[i].Cancel?
  }

  /** The cancellation inside an attempt comes at a moment the attempt gets to. */
  predicate Struck(a: Attempt) {
    match a.strike
    case Never => false
    case Connecting => true
    case Handshaking => a.tcp
    case Listening => a.tcp && a.handshake
    case Installing => a.tcp && a.handshake && a.listen
  }

  /** How long sleepCtx sleeps: not at all under a done context, to the cancellation if that comes
      first, and else its full time. */
  function Sleep(done: bool, d: nat, wake: Option<nat>): nat {
    if done then 0 else if wake.Some? && wake.value < d then wake.value else d
  }

  /** The wait after a failed attempt ends with the context done. */
  predicate Cut(a: Attempt, d: nat) { Struck(a) || (a.wake.Some? && a.wake.value < d) }

  /** The attempts behind reconnect: none was given up, none succeeded, each was followed by its
      wait of the schedule or what cancellation left of it, and only the last of these was cut. */
  predicate Failures(env: nat -> Attempt, slept: seq<nat>, cap: nat) {
    slept == [] ||
    var n := |slept|;
      && Failures(env, slept[..n - 1], cap)
      && FailedAt(env, n, slept[n - 1], cap)
      && (n > 1 ==> !Cut(env(n - 1), ReconnectDelay(n - 1, cap)))
  }

  predicate FailedAt(env: nat -> Attempt, k: nat, slept: nat, cap: nat)
    requires k >= 1
  {
    && !env(k).cancelled && !Succeeds(env(k))
    && slept == Sleep(Struck(env(k)), ReconnectDelay(k, cap), env(k).wake)
  }

  lemma {:induction false} FailureAt(env: nat -> Attempt, slept: seq<nat>, cap: nat, k: nat)
    requires Failures(env, slept, cap) && 1 <= k <= |slept|
    ensures FailedAt(env, k, slept[k - 1], cap)
    ensures k < |slept| ==> !Cut(env(k), ReconnectDelay(k, cap))
  {
    if k < |slept| {
      FailureAt(env, slept[..|slept| - 1], cap, k);
    }
  }

  /** The context is done at the top of the round after those. */
  predicate DoneAfterWaits(env: nat -> Attempt, n: nat, cap: nat, done: bool) {
    if n == 0 then done else Cut(env(n), ReconnectDelay(n, cap))
  }

  /** The attempt that replaces the connection, if any does, from the k-th on. */
  function Recovery(env: nat -> Attempt, attempts: nat, cap: nat, k: nat): (winner: Option<nat>)
    requires k >= 1
    ensures winner.Some? ==> k <= winner.value <= attempts
    decreases attempts + 1 - k
  {
    if k > attempts || env(k).cancelled then None
    else if Succeeds(env(k)) then Some(k)
    else if Cut(env(k), ReconnectDelay(k, cap)) then None
    else Recovery(env, attempts, cap, k + 1)
  }

  /** How many of the first `n` attempts get a client. */
  function DialCount(env: nat -> Attempt, n: nat): nat {
    if n == 0 then 0 else DialCount(env, n - 1) + if Dials(env(n)) then 1 else 0
  }

  lemma {:induction false} DialCountIsBounded(env: nat -> Attempt, n: nat)
    ensures DialCount(env, n) <= n
  {
    if n > 0 {
      DialCountIsBounded(env, n - 1);
    }
  }

  lemma NextFailure(env: nat -> Attempt, slept: seq<nat>, cap: nat, d: nat)
    requires Failures(env, slept, cap) && (slept == [] || !Cut(env(|slept|), ReconnectDelay(|slept|, cap)))
    requires FailedAt(env, |slept| + 1, d, cap)
    ensures Failures(env, slept + [d], cap)
  {
    assert (slept + [d])[..|slept|] == slept;
  }

  /** What is known of a reconnect at the top of a round; `done` is whether the context was done
      before the first, `now` whether it is. */
  predicate Progress(env: nat -> Attempt, attempts: nat, cap: nat, slept: seq<nat>, done: bool, now: bool) {
    var n := |slept|;
    && Failures(env, slept, cap)
    && (now <==> DoneAfterWaits(env, n, cap, done)) && (done ==> n == 0)
    && (!done ==> Recovery(env, attempts, cap, 1) == if now then None else Recovery(env, attempts, cap, n + 1))
  }

  /** What it comes to: the attempt that can replace the connection has done so, or there is none. */
  predicate Settled(env: nat -> Attempt, attempts: nat, cap: nat, slept: seq<nat>, ok: bool, done: bool, now: bool) {
    var n := |slept|;
    && Failures(env, slept, cap) && n <= attempts
    && (ok <==> !done && Recovery(env, attempts, cap, 1).Some?)
    && (ok ==> Recovery(env, attempts, cap, 1) == Some(n + 1))
    && (now <==> if ok then Struck(env(n + 1)) else n < attempts || DoneAfterWaits(env, n, cap, done))
    // It gives up early only under a context found done, and never begins under one.
    && (!ok && n < attempts ==> DoneAfterWaits(env, n, cap, done) || env(n + 1).cancelled)
    && (done ==> n == 0)
  }

  lemma RoundFails(env: nat -> Attempt, attempts: nat, cap: nat, slept: seq<nat>, done: bool, d: nat)
    requires Progress(env, attempts, cap, slept, done, false) && |slept| < attempts
    requires FailedAt(env, |slept| + 1, d, cap)
    ensures var k := |slept| + 1;
      Progress(env, attempts, cap, slept + [d], done, Cut(env(k), ReconnectDelay(k, cap)))
  {
    NextFailure(env, slept, cap, d);
  }

  lemma RoundEnds(env: nat -> Attempt, attempts: nat, cap: nat, slept: seq<nat>, done: bool, now: bool)
    requires Progress(env, attempts, cap, slept, done, now) && |slept| < attempts
    ensures var k := |slept| + 1;
      && (now || env(k).cancelled ==> Settled(env, attempts, cap, slept, false, done, true))
      && (!now && !env(k).cancelled && Succeeds(env(k)) ==>
            Settled(env, attempts, cap, slept, true, done, Struck(env(k))))
  {
  }

  lemma RoundsAreOver(env: nat -> Attempt, attempts: nat, cap: nat, slept: seq<nat>, done: bool, now: bool)
    requires Progress(env, attempts, cap, slept, done, now) && |slept| == attempts
    ensures Settled(env, attempts, cap, slept, false, done, now)
  {
  }

  /** The waits of a reconnect that has come to its end. */
  predicate CutShort(env: nat -> Attempt, cap: nat, slept: seq<nat>, ok: bool, now: bool) {
    forall k: nat :: 1 <= k <= |slept| ==>
      && (Struck(env(k)) ==> slept[k - 1] == 0)
      && (Cut(env(k), ReconnectDelay(k, cap)) ==> k == |slept| && !ok && now)
      && (!Cut(env(k), ReconnectDelay(k, cap)) ==> slept[k - 1] == ReconnectDelay(k, cap))
  }

  lemma SettledIsCutShort(env: nat -> Attempt, attempts: nat, cap: nat, slept: seq<nat>, ok: bool, done: bool, now: bool)
    requires Settled(env, attempts, cap, slept, ok, done, now)
    ensures CutShort(env, cap, slept, ok, now)
  {
    var n := |slept|;
    forall k: nat | 1 <= k <= n
      ensures FailedAt(env, k, slept[k - 1], cap) && (k < n ==> !Cut(env(k), ReconnectDelay(k, cap)))
    {
      FailureAt(env, slept, cap, k);
    }
    if ok && n > 0 && Cut(env(n), ReconnectDelay(n, cap)) {
      NoRecoveryAfterCut(env, attempts, cap, n, 1);
    }
  }

  /** An attempt cut in its wait is the last. */
  lemma {:induction false} NoRecoveryAfterCut(env: nat -> Attempt, attempts: nat, cap: nat, n: nat, k: nat)
    requires 1 <= k <= n && Cut(env(n), ReconnectDelay(n, cap))
    requires forall j: nat :: k <= j <= n ==> !Succeeds(env(j))
    ensures Recovery(env, attempts, cap, k) == None
    decreases n - k
  {
    if k < n {
      NoRecoveryAfterCut(env, attempts, cap, n, k + 1);
    }
  }

  /** With reconnect's own constants: min(2^(k-1) seconds, one minute). */
  lemma SourceSchedule(k: nat)
    requires k >= 1
    ensures ReconnectDelay(k, MAX_BACKOFF) == Min(1_000_000_000 * Pow(2, k - 1), 60_000_000_000)
  {
    ReconnectDelayClosedForm(k, MAX_BACKOFF);
  }

  /** After an error from Accept the loop goes on exactly if nothing was or is cancelled,
      reconnection is wanted, and one of its attempts succeeds. */
  predicate LoopGoesOn(cfg: TunnelMachine.Config, a: Accepted, done: bool) {
    a.Connection?
    || (!done && !a.cancelled && cfg.autoReconnect && Recovery(a.attempts, cfg.attempts, cfg.maxBackoff, 1).Some?)
  }

  /** The context is done when the loop has gone on. */
  predicate DoneAfter(cfg: TunnelMachine.Config, a: Accepted, done: bool) {
    if a.Connection? then done
    else
      var winner := Recovery(a.attempts, cfg.attempts, cfg.maxBackoff, 1);
      winner.None? || Struck(a.attempts(winner.value))
  }

  /** How much of what Accept gives the loop takes, and whether it then leaves. */
  function Rounds(cfg: TunnelMachine.Config, script: seq<Accepted>, done: bool): (nat, bool) {
    if script == [] then (0, false)
    else if !LoopGoesOn(cfg, script[0], done) then (1, true)
    else
      Past(1, Rounds(cfg, script[1..], DoneAfter(cfg, script[0], done)))
  }

  function Past(n: nat, rest: (nat, bool)): (nat, bool) { (n + rest.0, rest.1) }

  lemma NextOfScript(script: seq<Accepted>, n: nat)
    requires n < |script|
    ensures script[n..] != [] && script[n..][0] == script[n] && script[n..][1..] == script[n + 1..]
    ensures Sum(IsConnection, script[..n + 1]) == Sum(IsConnection, script[..n]) + IsConnection(script[n])
  {
    assert script[..n + 1][..n] == script[..n];
  }

  function IsConnection(a: Accepted): int { if a.Connection? then 1 else 0 }

  /** What reconnect's loop is measured against: the run, the listeners, the WaitGroup, the clients
      and the context as it begins. */
  datatype Base = Base(trace: seq<Step>, owner: seq<nat>, wg: int, dialled: nat, done: bool)

  class ReverseTunnel {
    const cfg: TunnelMachine.Config
    const metrics: Collector
    var client: Option<nat>
    var listener: Option<nat>
    var closed: bool
    var ctxDone: bool
    var wg: int
    // The outside: which clients and listeners exist, and which are still open.
    var dialled: nat
    var openClients: set<nat>
    var owner: seq<nat>
    var openListeners: set<nat>

    ghost var sys: State
    ghost var trace: seq<Step>

    ghost function View(): Shared
      reads this
    {
      Shared(client, listener, closed, ctxDone, wg, dialled, openClients, owner, openListeners)
    }

    ghost predicate Valid()
      reads this, metrics
    {
      && Run(Init(cfg), trace) && After(cfg, trace) == sys
      && sys.cfg == cfg
      && sys.sh == View() && sys.m == metrics.View()
    }

    constructor (cfg: TunnelMachine.Config, metrics: Collector)
      requires metrics.View() == ZERO
      ensures Valid() && this.cfg == cfg && this.metrics == metrics && trace == []
    {
      this.cfg, this.metrics := cfg, metrics;
      client, listener, closed, ctxDone, wg := None, None, false, false, 0;
      dialled, openClients, owner, openListeners := 0, {}, [], {};
      sys, trace := Init(cfg), [];
    }

    /** Records that the fields have just made the machine's step `st`. */
    ghost method Advance(st: Step)
      requires Run(Init(cfg), trace) && After(cfg, trace) == sys && sys.cfg == cfg && Enabled(sys, st)
      modifies this`sys, this`trace
      ensures Run(Init(cfg), trace) && After(cfg, trace) == sys
      ensures sys == Apply(old(sys), st) && trace == old(trace) + [st] && sys.cfg == cfg
    {
      RunExtend(Init(cfg), trace, st);
      sys, trace := Apply(sys, st), trace + [st];
    }

    /** The same for a step of the accept loop. */
    ghost method AdvanceAccept(ok: bool)
      requires Run(Init(cfg), trace) && After(cfg, trace) == sys && sys.cfg == cfg && AcceptEnabled(sys)
      modifies this`sys, this`trace
      ensures Run(Init(cfg), trace) && After(cfg, trace) == sys
      ensures sys == AcceptStep(old(sys), ok) && sys.cfg == cfg && Continued(old(trace), trace)
    {
      Advance(Accept(ok));
    }

    // ── Calls into the outside ────────────────────────────────────────

    method DialSSH(ok: bool) returns (c: Option<nat>)
      modifies this`dialled, this`openClients
      ensures if ok then c == Some(old(dialled)) && View() == DialClient(old(View()))
              else c == None && View() == old(View())
    {
      if !ok {
        return None;
      }
      c := Some(dialled);
      openClients := openClients + {dialled};
      dialled := dialled + 1;
    }

    method ListenRemoteForward(c: nat, ok: bool) returns (l: Option<nat>)
      modifies this`owner, this`openListeners
      ensures if ok then l == Some(|old(owner)|) && View() == OpenListener(old(View()), c)
              else l == None && View() == old(View())
    {
      if !ok {
        return None;
      }
      l := Some(|owner|);
      openListeners := openListeners + {|owner|};
      owner := owner + [c];
    }

    method CloseSSH(c: nat)
      modifies this`openClients
      ensures View() == CloseClient(old(View()), c)
    {
      openClients := openClients - {c};
    }

    /** sshForwardListener.Close acts once; closing again changes nothing. */
    method CloseForward(l: nat)
      modifies this`openListeners
      ensures View() == old(View()).(openListeners := old(openListeners) - {l})
    {
      if l in openListeners {
        openListeners := openListeners - {l};
      }
    }

    method DropListenerField()
      modifies this`listener, this`openListeners
      ensures View() == DropListener(old(View()))
    {
      if listener.Some? {
        CloseForward(listener.value);
        listener := None;
      }
    }

    method DropClientField()
      modifies this`client, this`openClients
      ensures View() == DropClient(old(View()))
    {
      if client.Some? {
        CloseSSH(client.value);
        client := None;
      }
    }

    // ── reconnect ─────────────────────────────────────────────────────

    /** sleepCtx after the k-th failed attempt: `d`, or less exactly when the context is or becomes
        done. */
    method SleepCtx(ghost k: nat, d: nat, wake: Option<nat>) returns (slept: nat)
      requires Valid() && sys.acc == RSleep(k)
      modifies this`ctxDone, this`sys, this`trace
      ensures Valid() && Continued(old(trace), trace) && sys.acc == RCheck(k + 1)
      ensures slept == Sleep(old(ctxDone), d, wake)
      // A done context ends the sleep before it begins, a cancellation meanwhile at that moment;
      // nothing else does.
      ensures old(ctxDone) ==> slept == 0 && ctxDone
      ensures !old(ctxDone) && wake.Some? && wake.value < d ==> slept == wake.value && ctxDone
      ensures !old(ctxDone) && !(wake.Some? && wake.value < d) ==> slept == d && !ctxDone
    {
      slept := d;
      if ctxDone {
        slept := 0;
      } else if wake.Some? && wake.value < d {
        ctxDone := true;
        Advance(Cancel);
        slept := wake.value;
      }
      AdvanceAccept(true);
    }

    /** The start of reconnect: afterwards nothing is held and nothing is open. */
    method TearDown()
      requires Valid() && sys.acc == RMetric
      modifies this`client, this`listener, this`openClients, this`openListeners, this`sys, this`trace, metrics
      ensures Valid() && Continued(old(trace), trace) && sys.acc == RCheck(1) && HoldsNothing()
      ensures metrics.View() == old(metrics.View()).(reconnects := old(metrics.View()).reconnects + 1)
    {
      metrics.TunnelReconnect();
      AdvanceAccept(true);
      DropListenerField();
      DropClientField();
      AdvanceAccept(true);
      HoldsNothingAtCheck();
    }

    lemma HoldsNothingAtCheck()
      requires Valid() && sys.acc.RCheck?
      ensures HoldsNothing()
    {
      ReachableInv(cfg, trace);
    }

    ghost predicate HoldsNothing()
      reads this
    {
      client == None && listener == None && openClients == {} && openListeners == {}
    }

    /** Exactly the newest client and the newest listener are held, and nothing else is open. */
    ghost predicate HoldsNewest()
      reads this
    {
      && dialled > 0 && owner != [] && owner[|owner| - 1] == dialled - 1
      && client == Some(dialled - 1) && listener == Some(|owner| - 1)
      && openClients == {dialled - 1} && openListeners == {|owner| - 1}
    }

    /** The context is cancelled from outside, if it is, while the accept loop is at work. */
    method Strike(now: bool)
      requires Valid()
      modifies this`ctxDone, this`sys, this`trace
      ensures Valid() && Continued(old(trace), trace)
      ensures ctxDone == (old(ctxDone) || now) && sys == old(sys).(sh := View())
    {
      if now {
        ctxDone := true;
        Advance(Cancel);
      }
    }

    method ConnectAgain(k: nat, a: Attempt) returns (ok: bool)
      requires Valid() && sys.acc == RDial(k) && !ctxDone
      modifies this`ctxDone, this`sys, this`trace
      ensures Valid() && Continued(old(trace), trace) && ok == (a.tcp && !a.strike.Connecting?)
      ensures sys.acc == if ok then RHandshake(k) else RSleep(k)
      ensures ctxDone == a.strike.Connecting?
    {
      Strike(a.strike.Connecting?);
      AdvanceAccept(a.tcp);
      ok := a.tcp && !ctxDone;
    }

    method Handshake(k: nat, a: Attempt) returns (ok: bool)
      requires Valid() && sys.acc == RHandshake(k)
      modifies this`ctxDone, this`dialled, this`openClients, this`sys, this`trace
      ensures Valid() && Continued(old(trace), trace) && ok == a.handshake
      ensures dialled == old(dialled) + if ok then 1 else 0
      ensures openClients == old(openClients) + if ok then {old(dialled)} else {}
      ensures sys.acc == if ok then RListen(k, old(dialled)) else RSleep(k)
      ensures ctxDone == (old(ctxDone) || a.strike.Handshaking?)
    {
      Strike(a.strike.Handshaking?);
      var c := DialSSH(a.handshake);
      AdvanceAccept(a.handshake);
      ok := c.Some?;
    }

    /** dialSSH in one attempt: the TCP connection, then the handshake over it. */
    method DialAgain(k: nat, a: Attempt) returns (ok: bool)
      requires Valid() && sys.acc == RDial(k) && !ctxDone
      modifies this`ctxDone, this`dialled, this`openClients, this`sys, this`trace
      ensures Valid() && Continued(old(trace), trace) && ok == Dials(a)
      ensures dialled == old(dialled) + if ok then 1 else 0
      ensures openClients == old(openClients) + if ok then {old(dialled)} else {}
      ensures sys.acc == if ok then RListen(k, old(dialled)) else RSleep(k)
      ensures ctxDone <==> a.strike.Connecting? || (a.strike.Handshaking? && a.tcp)
    {
      ok := ConnectAgain(k, a);
      if ok {
        ok := Handshake(k, a);
      }
    }

    method ListenAgain(k: nat, c: nat, a: Attempt) returns (ok: bool)
      requires Valid() && sys.acc == RListen(k, c)
      modifies this`ctxDone, this`owner, this`openListeners, this`sys, this`trace
      ensures Valid() && Continued(old(trace), trace) && ok == a.listen
      ensures owner == old(owner) + if ok then [c] else []
      ensures openListeners == old(openListeners) + if ok then {|old(owner)|} else {}
      ensures sys.acc == if ok then RInstall(c, |old(owner)|) else RUndo(k, c)
      ensures ctxDone == (old(ctxDone) || a.strike.Listening?)
    {
      Strike(a.strike.Listening?);
      var l := ListenRemoteForward(c, a.listen);
      AdvanceAccept(a.listen);
      ok := l.Some?;
    }

    method InstallPair(c: nat, l: nat, a: Attempt)
      requires Valid() && sys.acc == RInstall(c, l)
      modifies this`ctxDone, this`client, this`listener, this`sys, this`trace
      ensures Valid() && Continued(old(trace), trace) && client == Some(c) && listener == Some(l)
      ensures sys.acc == if cfg.keepAlive then RAddKeepalive else ARead
      ensures ctxDone == (old(ctxDone) || a.strike.Installing?)
    {
      Strike(a.strike.Installing?);
      client, listener := Some(c), Some(l);
      AdvanceAccept(true);
    }

    method DropNewClient(k: nat, c: nat)
      requires Valid() && sys.acc == RUndo(k, c)
      modifies this`openClients, this`sys, this`trace
      ensures Valid() && Continued(old(trace), trace) && openClients == old(openClients) - {c}
      ensures sys.acc == RSleep(k)
    {
      CloseSSH(c);
      AdvanceAccept(true);
    }

    /** The remote listen of an attempt: a client whose listen fails is closed again. */
    method TryListen(k: nat, c: nat, a: Attempt) returns (done: bool)
      requires Valid() && sys.acc == RListen(k, c) && dialled == c + 1
      requires client == None && listener == None && openClients == {c} && openListeners == {}
      modifies this`client, this`listener, this`ctxDone, this`openClients, this`owner, this`openListeners,
               this`sys, this`trace
      ensures Valid() && Continued(old(trace), trace) && done == a.listen
      ensures if done then HoldsNewest() && owner == old(owner) + [c] else HoldsNothing() && owner == old(owner)
      ensures sys.acc == if !done then RSleep(k) else if cfg.keepAlive then RAddKeepalive else ARead
      ensures ctxDone <==> old(ctxDone) || a.strike.Listening? || (a.strike.Installing? && a.listen)
    {
      done := ListenAgain(k, c, a);
      if done {
        InstallPair(c, |owner| - 1, a);
      } else {
        DropNewClient(k, c);
      }
    }

    /** The body of one attempt after its context check, cancelled at any point or at none. */
    method TryOnce(k: nat, a: Attempt) returns (done: bool)
      requires Valid() && sys.acc == RDial(k) && HoldsNothing() && !ctxDone
      modifies this`client, this`listener, this`ctxDone, this`dialled, this`openClients, this`owner,
               this`openListeners, this`sys, this`trace
      ensures Valid() && Continued(old(trace), trace) && done == Succeeds(a)
      ensures dialled == old(dialled) + if Dials(a) then 1 else 0
      ensures if done then HoldsNewest() && owner == old(owner) + [old(dialled)] else HoldsNothing() && owner == old(owner)
      ensures sys.acc == if !done then RSleep(k) else if cfg.keepAlive then RAddKeepalive else ARead
      ensures ctxDone <==> Struck(a)
    {
      done := DialAgain(k, a);
      if done {
        done := TryListen(k, dialled - 1, a);
      }
    }

    /** wg.Add and go for the keepalive loop of the new client. */
    method RestartKeepalive()
      requires Valid() && sys.acc == RAddKeepalive
      modifies this`wg, this`sys, this`trace
      ensures Valid() && Continued(old(trace), trace) && sys.acc == ARead && wg == old(wg) + 1
      ensures sys.kas == old(sys).kas + [KWait]
    {
      wg := wg + 1;
      AdvanceAccept(true);
      AdvanceAccept(true);
    }

    /** The context check at the top of an attempt. */
    method CheckContext(k: nat, cancelled: bool) returns (go: bool)
      requires Valid() && sys.acc == RCheck(k) && k <= cfg.attempts
      modifies this`ctxDone, this`sys, this`trace
      ensures Valid() && Continued(old(trace), trace)
      ensures ctxDone == (old(ctxDone) || cancelled) && go == !ctxDone
      ensures sys.acc == if go then RDial(k) else ACancel
    {
      Strike(cancelled);
      AdvanceAccept(true);
      go := !ctxDone;
    }

    /** One attempt after its context check, with the wait or the new keepalive loop after it. */
    method AttemptAndWait(k: nat, now: Attempt, backoff: nat) returns (end: AttemptEnd)
      requires Valid() && sys.acc == RDial(k) && HoldsNothing() && !ctxDone
      modifies this`client, this`listener, this`ctxDone, this`wg, this`dialled, this`openClients,
               this`owner, this`openListeners, this`sys, this`trace
      ensures Valid() && Continued(old(trace), trace)
      ensures sys.acc == if end.Replaced? then ARead else RCheck(k + 1)
      ensures if end.Replaced? then HoldsNewest() && |owner| == |old(owner)| + 1 else HoldsNothing() && owner == old(owner)
      ensures end == if Succeeds(now) then Replaced else Slept(Sleep(Struck(now), backoff, now.wake))
      ensures dialled == old(dialled) + if Dials(now) then 1 else 0
      ensures ctxDone <==> if end.Replaced? then Struck(now) else Cut(now, backoff)
      ensures wg == old(wg) + if end.Replaced? && cfg.keepAlive then 1 else 0
    {
      var done := TryOnce(k, now);
      if done {
        if cfg.keepAlive {
          RestartKeepalive();
        }
        return Replaced;
      }
      var d := SleepCtx(k, backoff, now.wake);
      return Slept(d);
    }

    /** One round of reconnect's loop. */
    method RunAttempt(k: nat, now: Attempt, backoff: nat) returns (end: AttemptEnd)
      requires Valid() && sys.acc == RCheck(k) && k <= cfg.attempts && HoldsNothing()
      modifies this`client, this`listener, this`ctxDone, this`wg, this`dialled, this`openClients,
               this`owner, this`openListeners, this`sys, this`trace
      ensures Valid() && Continued(old(trace), trace)
      ensures sys.acc == match end case GaveUp => ACancel case Replaced => ARead case Slept(_) => RCheck(k + 1)
      ensures if end.Replaced? then HoldsNewest() && |owner| == |old(owner)| + 1 else HoldsNothing() && owner == old(owner)
      ensures end == if old(ctxDone) || now.cancelled then GaveUp
                     else if Succeeds(now) then Replaced
                     else Slept(Sleep(Struck(now), backoff, now.wake))
      ensures dialled == old(dialled) + if !end.GaveUp? && Dials(now) then 1 else 0
      ensures ctxDone <==> match end case GaveUp => true case Replaced => Struck(now) case Slept(_) => Cut(now, backoff)
      ensures wg == old(wg) + if end.Replaced? && cfg.keepAlive then 1 else 0
    {
      var go := CheckContext(k, now.cancelled);
      if !go {
        return GaveUp;
      }
      end := AttemptAndWait(k, now, backoff);
    }

    /** At the top of a round: every attempt so far has failed and been waited for. */
    ghost predicate Trying(env: nat -> Attempt, slept: seq<nat>, done: bool)
      reads this, metrics
    {
      && Valid() && sys.acc == RCheck(|slept| + 1) && HoldsNothing()
      && Progress(env, cfg.attempts, cfg.maxBackoff, slept, done, ctxDone)
    }

    /** After the last round: the connection is replaced, or the loop has given up. */
    ghost predicate Tried(env: nat -> Attempt, slept: seq<nat>, ok: bool, done: bool)
      reads this, metrics
    {
      && Valid() && sys.acc == (if ok then ARead else ACancel)
      && (if ok then HoldsNewest() else HoldsNothing())
      && Settled(env, cfg.attempts, cfg.maxBackoff, slept, ok, done, ctxDone)
    }

    /** One round and the wait after it; the next wait is twice as long, up to the cap. */
    method RunRound(env: nat -> Attempt, slept: seq<nat>, backoff: nat, ghost done: bool)
      returns (end: AttemptEnd, waits: seq<nat>, next: nat)
      requires Trying(env, slept, done) && |slept| < cfg.attempts
      requires backoff == ReconnectDelay(|slept| + 1, cfg.maxBackoff)
      modifies this`client, this`listener, this`ctxDone, this`wg, this`dialled, this`openClients,
               this`owner, this`openListeners, this`sys, this`trace
      ensures Continued(old(trace), trace)
      ensures if end.Slept? then waits == slept + [end.duration] && Trying(env, waits, done)
              else waits == slept && Tried(env, waits, end.Replaced?, done)
      ensures next == ReconnectDelay(|waits| + 1, cfg.maxBackoff)
      ensures if end.Replaced? then |owner| == |old(owner)| + 1 else owner == old(owner)
      ensures dialled == old(dialled) + if !end.GaveUp? && Dials(env(|slept| + 1)) then 1 else 0
      ensures wg == old(wg) + if end.Replaced? && cfg.keepAlive then 1 else 0
    {
      end := RunAttempt(|slept| + 1, env(|slept| + 1), backoff);
      waits, next := slept, backoff;
      RoundEnds(env, cfg.attempts, cfg.maxBackoff, slept, done, old(ctxDone));
      if end.Slept? {
        RoundFails(env, cfg.attempts, cfg.maxBackoff, slept, done, end.duration);
        waits := slept + [end.duration];
        next := Min(backoff * 2, cfg.maxBackoff);
      }
    }

    /** The same against the start of the loop. */
    ghost predicate Along(base: Base, env: nat -> Attempt, slept: seq<nat>, backoff: nat)
      reads this, metrics
    {
      && Trying(env, slept, base.done) && backoff == ReconnectDelay(|slept| + 1, cfg.maxBackoff)
      && Continued(base.trace, trace) && owner == base.owner && wg == base.wg
      && dialled == base.dialled + DialCount(env, |slept|)
    }

    ghost predicate Over(base: Base, env: nat -> Attempt, slept: seq<nat>, ok: bool)
      reads this, metrics
    {
      && Tried(env, slept, ok, base.done) && Continued(base.trace, trace)
      && (if ok then |owner| == |base.owner| + 1 else owner == base.owner)
      && wg == base.wg + (if ok && cfg.keepAlive then 1 else 0)
      && dialled == base.dialled + DialCount(env, |slept| + if ok then 1 else 0)
    }

    method NextRound(ghost base: Base, env: nat -> Attempt, slept: seq<nat>, backoff: nat)
      returns (end: AttemptEnd, waits: seq<nat>, next: nat)
      requires Along(base, env, slept, backoff) && |slept| < cfg.attempts
      modifies this`client, this`listener, this`ctxDone, this`wg, this`dialled, this`openClients,
               this`owner, this`openListeners, this`sys, this`trace
      ensures if end.Slept? then |waits| == |slept| + 1 && Along(base, env, waits, next)
              else Over(base, env, waits, end.Replaced?)
    {
      ghost var before := trace;
      end, waits, next := RunRound(env, slept, backoff, base.done);
      ContinuedFurther(base.trace, before, trace);
      assert DialCount(env, |slept| + 1) == DialCount(env, |slept|) + if Dials(env(|slept| + 1)) then 1 else 0;
    }

    /** reconnect after its teardown: up to ten rounds, doubling the wait after each failure up
        to a minute, with both limits taken from the settings. */
    method RetryLoop(env: nat -> Attempt) returns (ok: bool, slept: seq<nat>)
      requires Valid() && sys.acc == RCheck(1) && HoldsNothing()
      modifies this`client, this`listener, this`ctxDone, this`wg, this`dialled, this`openClients,
               this`owner, this`openListeners, this`sys, this`trace
      ensures Over(old(Here()), env, slept, ok)
    {
      slept := [];
      var backoff: nat := SECOND;
      var attempt := 1;
      ghost var base := Here();
      while attempt <= cfg.attempts
        invariant |slept| == attempt - 1 <= cfg.attempts
        invariant Along(base, env, slept, backoff)
      {
        var end;
        end, slept, backoff := NextRound(base, env, slept, backoff);
        if !end.Slept? {
          return end.Replaced?, slept;
        }
        attempt := attempt + 1;
      }
      OutOfAttempts(base, env, slept, backoff);
      return false, slept;
    }

    /** Where the loop begins. */
    ghost function Here(): Base
      reads this
    {
      Base(trace, owner, wg, dialled, ctxDone)
    }

    method OutOfAttempts(ghost base: Base, ghost env: nat -> Attempt, ghost slept: seq<nat>, ghost backoff: nat)
      requires Along(base, env, slept, backoff) && |slept| == cfg.attempts
      modifies this`sys, this`trace
      ensures Over(base, env, slept, false)
    {
      RoundsAreOver(env, cfg.attempts, cfg.maxBackoff, slept, base.done, ctxDone);
      AdvanceAccept(true);
    }

    /** Tears the old connection down and tries to replace it. */
    method Reconnect(env: nat -> Attempt) returns (ok: bool, slept: seq<nat>)
      requires Valid() && sys.acc == RMetric
      modifies this`client, this`listener, this`ctxDone, this`wg, this`dialled, this`openClients,
               this`owner, this`openListeners, this`sys, this`trace, metrics
      ensures Valid() && Continued(old(trace), trace)
      ensures sys.acc == if ok then ARead else ACancel
      ensures metrics.View() == old(metrics.View()).(reconnects := old(metrics.View()).reconnects + 1)
      // On success exactly the newly dialled pair is held, on failure nothing is.
      ensures if ok then HoldsNewest() && |owner| == |old(owner)| + 1 else HoldsNothing() && owner == old(owner)
      // At most the allowed attempts, each with its outcome; each failed one followed by its wait of
      // the schedule, which ends at once under a done context and else at a cancellation; after a
      // cut wait no attempt; success exactly when an attempt succeeds before that.
      ensures Tried(env, slept, ok, old(ctxDone))
      ensures CutShort(env, cfg.maxBackoff, slept, ok, ctxDone)
      ensures old(ctxDone) ==> !ok && slept == [] && dialled == old(dialled)
      ensures dialled == old(dialled) + DialCount(env, |slept| + if ok then 1 else 0)
      ensures |slept| <= cfg.attempts && dialled <= old(dialled) + cfg.attempts
      ensures wg == old(wg) + if ok && cfg.keepAlive then 1 else 0
    {
      TearDown();
      ghost var base := Here();
      ok, slept := RetryLoop(env);
      ContinuedFurther(old(trace), base.trace, trace);
      OverMeans(base, env, slept, ok);
    }

    lemma OverMeans(base: Base, env: nat -> Attempt, slept: seq<nat>, ok: bool)
      requires Over(base, env, slept, ok)
      ensures CutShort(env, cfg.maxBackoff, slept, ok, ctxDone)
      ensures base.done ==> !ok && slept == [] && dialled == base.dialled
      ensures |slept| <= cfg.attempts && dialled <= base.dialled + cfg.attempts
    {
      SettledIsCutShort(env, cfg.attempts, cfg.maxBackoff, slept, ok, base.done, ctxDone);
      DialCountIsBounded(env, |slept| + if ok then 1 else 0);
    }

    // ── acceptLoop ────────────────────────────────────────────────────

    /** Accept has returned a connection, and it is counted. */
    method CountConnection()
      requires Valid() && sys.acc.AAccept?
      modifies this`sys, this`trace, metrics
      ensures Valid() && Continued(old(trace), trace) && sys.acc == AAdd
      ensures metrics.View() == Opened(old(metrics.View()))
      ensures sys.conns == old(sys).conns + [Conn(true, NotDialled, HNew, None)]
    {
      AdvanceAccept(true);
      metrics.ConnectionOpened();
      AdvanceAccept(true);
    }

    /** wg.Add and go for the handler of the newest connection. */
    method SpawnHandler()
      requires Valid() && sys.acc == AAdd && sys.conns != []
      modifies this`wg, this`sys, this`trace
      ensures Valid() && Continued(old(trace), trace) && sys.acc == ARead && wg == old(wg) + 1
      ensures var n := |old(sys).conns| - 1; sys.conns == old(sys).conns[n := old(sys).conns[n].(pc := HDial)]
    {
      wg := wg + 1;
      AdvanceAccept(true);
      AdvanceAccept(true);
    }

    /** From an accepted connection to its running handler. */
    method ServeConnection()
      requires Valid() && sys.acc.AAccept?
      modifies this`wg, this`sys, this`trace, metrics
      ensures Valid() && Continued(old(trace), trace) && sys.acc == ARead
      ensures wg == old(wg) + 1 && metrics.View() == Opened(old(metrics.View()))
      ensures sys.conns == old(sys).conns + [Conn(true, NotDialled, HDial, None)]
    {
      CountConnection();
      SpawnHandler();
    }

    /** The deferred calls of acceptLoop: cancel, then Done. */
    method LeaveAcceptLoop()
      requires Valid() && sys.acc == ACancel
      modifies this`ctxDone, this`wg, this`sys, this`trace
      ensures Valid() && Continued(old(trace), trace) && sys.acc == AExited
      ensures ctxDone && wg == old(wg) - 1 && sys.conns == old(sys).conns
    {
      CancelRest();
      wg := wg - 1;
      AdvanceAccept(true);
    }

    method CancelRest()
      requires Valid() && sys.acc == ACancel
      modifies this`ctxDone, this`sys, this`trace
      ensures Valid() && Continued(old(trace), trace) && sys.acc == ALeave
      ensures ctxDone && sys.conns == old(sys).conns
    {
      ctxDone := true;
      AdvanceAccept(true);
    }

    method ReceiveError(cancelled: bool) returns (wanted: bool)
      requires Valid() && sys.acc.AAccept?
      modifies this`ctxDone, this`sys, this`trace
      ensures Valid() && Continued(old(trace), trace)
      ensures ctxDone == (old(ctxDone) || cancelled) && wanted == (!ctxDone && cfg.autoReconnect)
      ensures sys.acc == if wanted then RMetric else ACancel
    {
      AdvanceAccept(false);
      Strike(cancelled);
      AdvanceAccept(true);
      wanted := !ctxDone && cfg.autoReconnect;
    }

    /** Accept returned an error: reconnect if that is wanted and the context is not done. */
    method HandleAcceptError(cancelled: bool, attempts: nat -> Attempt) returns (again: bool)
      requires Valid() && sys.acc.AAccept?
      modifies this`client, this`listener, this`ctxDone, this`wg, this`dialled, this`openClients,
               this`owner, this`openListeners, this`sys, this`trace, metrics
      ensures Valid() && Continued(old(trace), trace)
      ensures sys.acc == if again then ARead else ACancel
      // The loop goes on exactly if the connection is wanted again and can be replaced.
      ensures again <==> LoopGoesOn(cfg, Failure(cancelled, attempts), old(ctxDone))
      ensures again ==> HoldsNewest() && |owner| == |old(owner)| + 1
      ensures again ==> (ctxDone <==> DoneAfter(cfg, Failure(cancelled, attempts), old(ctxDone)))
      ensures old(ctxDone) || cancelled || !cfg.autoReconnect ==> !again && dialled == old(dialled)
      ensures metrics.View() == old(metrics.View()).(reconnects := metrics.View().reconnects)
    {
      var wanted := ReceiveError(cancelled);
      if !wanted {
        return false;
      }
      var ok, _ := Reconnect(attempts);
      return ok;
    }

    /** One round: read the listener field, accept on it, and serve what comes. */
    method AcceptOnce(a: Accepted) returns (again: bool)
      requires Valid() && sys.acc == ARead
      modifies this`client, this`listener, this`ctxDone, this`wg, this`dialled, this`openClients,
               this`owner, this`openListeners, this`sys, this`trace, metrics
      ensures Valid() && Continued(old(trace), trace)
      ensures sys.acc == if again then ARead else ACancel
      ensures again <==> old(listener) != None && LoopGoesOn(cfg, a, old(ctxDone))
      ensures again ==> listener != None && (ctxDone <==> DoneAfter(cfg, a, old(ctxDone)))
      ensures old(listener) == None ==> dialled == old(dialled) && owner == old(owner)
      ensures again && a.Connection? ==> wg == old(wg) + 1
      ensures again && a.Failure? ==> cfg.autoReconnect && HoldsNewest()
      ensures metrics.View() == (if again && a.Connection? then Opened(old(metrics.View())) else old(metrics.View()))
                                .(reconnects := metrics.View().reconnects)
    {
      AdvanceAccept(true);
      if listener.None? {
        return false;
      }
      match a {
        case Connection =>
          ServeConnection();
          again := true;
        case Failure(cancelled, attempts) =>
          again := HandleAcceptError(cancelled, attempts);
      }
    }

    /** One round, and the deferred calls if it was the last. */
    method AcceptOrLeave(a: Accepted) returns (again: bool)
      requires Valid() && sys.acc == ARead
      modifies this`client, this`listener, this`ctxDone, this`wg, this`dialled, this`openClients,
               this`owner, this`openListeners, this`sys, this`trace, metrics
      ensures Valid() && Continued(old(trace), trace)
      ensures if again then sys.acc == ARead else sys.acc == AExited && ctxDone
      ensures again <==> old(listener) != None && LoopGoesOn(cfg, a, old(ctxDone))
      ensures again ==> listener != None && (ctxDone <==> DoneAfter(cfg, a, old(ctxDone)))
      ensures old(listener) == None ==> dialled == old(dialled) && owner == old(owner)
      ensures metrics.View() == (if again && a.Connection? then Opened(old(metrics.View())) else old(metrics.View()))
                                .(reconnects := metrics.View().reconnects)
    {
      again := AcceptOnce(a);
      if !again {
        LeaveAcceptLoop();
      }
    }

    /** Runs the accept loop against what Accept gives, for as long as that lasts; `rounds` is how
        much of it the loop has taken. */
    method AcceptLoop(script: seq<Accepted>) returns (rounds: nat, exited: bool)
      requires Valid() && sys.acc == ARead
      modifies this`client, this`listener, this`ctxDone, this`wg, this`dialled, this`openClients,
               this`owner, this`openListeners, this`sys, this`trace, metrics
      ensures Valid() && Continued(old(trace), trace)
      ensures if exited then sys.acc == AExited && ctxDone else sys.acc == ARead
      // A nil listener ends the loop at once, without accepting or reconnecting.
      ensures script != [] && old(listener) == None ==>
        rounds == 0 && exited && dialled == old(dialled) && owner == old(owner)
      // Otherwise it serves every connection, through every reconnect, up to the first error it
      // does not get past.
      ensures old(listener) != None ==> (rounds, exited) == Rounds(cfg, script, old(ctxDone))
      ensures rounds <= |script|
      ensures metrics.View().total == old(metrics.View()).total + Sum(IsConnection, script[..rounds])
      ensures metrics.View().active == old(metrics.View()).active + Sum(IsConnection, script[..rounds])
    {
      if script != [] && listener.None? {
        var _ := AcceptOrLeave(script[0]);
        return 0, true;
      }
      rounds := 0;
      while rounds < |script|
        invariant rounds <= |script|
        invariant Valid() && sys.acc == ARead
        invariant Continued(old(trace), trace)
        invariant rounds < |script| ==> listener != None
        invariant Rounds(cfg, script, old(ctxDone)) == Past(rounds, Rounds(cfg, script[rounds..], ctxDone))
        invariant metrics.View().total == old(metrics.View()).total + Sum(IsConnection, script[..rounds])
        invariant metrics.View().active == old(metrics.View()).active + Sum(IsConnection, script[..rounds])
      {
        NextOfScript(script, rounds);
        ghost var before := trace;
        var again := AcceptOrLeave(script[rounds]);
        ContinuedFurther(old(trace), before, trace);
        rounds := rounds + 1;
        if !again {
          return rounds, true;
        }
      }
      return rounds, false;
    }

    // ── The other goroutines ──────────────────────────────────────────

    /** The bridge has returned: its two lengths are counted and the local side is closed. */
    method CountBridged(i: nat, ghost fin: Bridge.State, received: nat, sent: nat)
      requires Valid() && i < |sys.conns| && sys.conns[i].pc == HBytesIn && sys.conns[i].bridge == Some(fin)
      requires received == fin.ab.ret && sent == fin.ba.ret
      modifies this`sys, this`trace, metrics
      ensures Valid() && |sys.conns| == |old(sys).conns| && sys.conns[i].pc == HMetric
      ensures metrics.View() == old(metrics.View()).(bytesIn := old(metrics.View()).bytesIn + received,
                                                     bytesOut := old(metrics.View()).bytesOut + sent)
    {
      metrics.BytesReceived(received);
      AdvanceHandler(i, true, fin);
      metrics.BytesSent(sent);
      AdvanceHandler(i, true, fin);
      AdvanceHandler(i, true, fin);
    }

    /** The deferred calls every handler ends with. */
    method LeaveHandler(i: nat, ghost fin: Bridge.State)
      requires Valid() && i < |sys.conns| && sys.conns[i].pc == HMetric
      modifies this`wg, this`sys, this`trace, metrics
      ensures Valid() && |sys.conns| == |old(sys).conns| && sys.conns[i].pc == HExited
      ensures wg == old(wg) - 1 && metrics.View() == ClosedOne(old(metrics.View()))
    {
      metrics.ConnectionClosed();
      AdvanceHandler(i, true, fin);
      AdvanceHandler(i, true, fin);
      wg := wg - 1;
      AdvanceHandler(i, true, fin);
    }

    /** The local dial and, if it succeeds, the bridge. */
    method DialAndBridge(i: nat, dial: bool, ghost fin: Bridge.State)
      requires Valid() && i < |sys.conns| && sys.conns[i].pc == HDial
      requires Bridge.Finished(fin) && (fin.external ==> ctxDone)
      modifies this`sys, this`trace
      ensures Valid() && |sys.conns| == |old(sys).conns|
      ensures if dial then sys.conns[i].pc == HBytesIn && sys.conns[i].bridge == Some(fin) else sys.conns[i].pc == HMetric
    {
      AdvanceHandler(i, dial, fin);
      if dial {
        AdvanceHandler(i, true, fin);
      }
    }

    /** The body of handleConnection up to its deferred calls. */
    method ServeLocal(i: nat, dial: bool, fin: Bridge.State)
      requires Valid() && i < |sys.conns| && sys.conns[i].pc == HDial
      requires Bridge.Finished(fin) && (fin.external ==> ctxDone)
      modifies this`sys, this`trace, metrics
      ensures Valid() && |sys.conns| == |old(sys).conns| && sys.conns[i].pc == HMetric
      ensures metrics.View() == old(metrics.View()).(
                bytesIn := old(metrics.View()).bytesIn + (if dial then fin.ab.ret else 0),
                bytesOut := old(metrics.View()).bytesOut + (if dial then fin.ba.ret else 0))
    {
      DialAndBridge(i, dial, fin);
      if dial {
        CountBridged(i, fin, fin.ab.ret, fin.ba.ret);
      }
    }

    /** handleConnection from its start to its last deferred call; `fin` is what its bridge,
        if the local dial succeeds, comes to. */
    method HandleConnection(i: nat, dial: bool, fin: Bridge.State)
      requires Valid() && i < |sys.conns| && sys.conns[i].pc == HDial
      requires Bridge.Finished(fin) && (fin.external ==> ctxDone)
      modifies this`wg, this`sys, this`trace, metrics
      ensures Valid() && wg == old(wg) - 1
      ensures |sys.conns| == |old(sys).conns| && sys.conns[i].pc == HExited
      ensures !sys.conns[i].remoteOpen && sys.conns[i].local != LocalOpen
      ensures metrics.View() == old(metrics.View()).(
                active := old(metrics.View()).active - 1,
                bytesIn := old(metrics.View()).bytesIn + (if dial then |fin.ab.pump.dst| else 0),
                bytesOut := old(metrics.View()).bytesOut + (if dial then |fin.ba.pump.dst| else 0))
    {
      Bridge.ReturnsDeliveredLengths(fin);
      ServeLocal(i, dial, fin);
      LeaveHandler(i, fin);
      LeavesNothingOpen(i);
    }

    lemma LeavesNothingOpen(i: nat)
      requires Valid() && i < |sys.conns| && sys.conns[i].pc == HExited
      ensures !sys.conns[i].remoteOpen && sys.conns[i].local != LocalOpen
    {
      ReachableInv(cfg, trace);
      assert ConnOk(sys.conns[i]);
    }

    ghost method AdvanceHandler(i: nat, ok: bool, fin: Bridge.State)
      requires Run(Init(cfg), trace) && After(cfg, trace) == sys && sys.cfg == cfg && HandleEnabled(sys, i, fin)
      modifies this`sys, this`trace
      ensures Run(Init(cfg), trace) && After(cfg, trace) == sys && sys.cfg == cfg
      ensures sys == HandleStep(old(sys), i, ok, fin)
    {
      Advance(Handle(i, ok, fin));
    }

    /** A keepalive loop whose request has failed closes the listener, whichever it is by now,
        and takes it out of the field. */
    method KeepaliveFailed(i: nat)
      requires Valid() && i < |sys.kas| && sys.kas[i] == KFail
      modifies this`listener, this`openListeners, this`sys, this`trace
      ensures Valid() && listener == None && openListeners == old(openListeners) - AsSet(old(listener))
      ensures sys == old(sys).(sh := View(), kas := old(sys).kas[i := KLeave])
    {
      DropListenerField();
      Advance(Keepalive(i, true));
    }

    ghost method AdvanceKeepalive(i: nat, ok: bool)
      requires Run(Init(cfg), trace) && After(cfg, trace) == sys && sys.cfg == cfg && KeepaliveEnabled(sys, i, ok)
      modifies this`sys, this`trace
      ensures Run(Init(cfg), trace) && After(cfg, trace) == sys && sys.cfg == cfg
      ensures sys == KeepaliveStep(old(sys), i, ok)
    {
      Advance(Keepalive(i, ok));
    }

    /** One tick: no client ends the loop, a reply keeps it waiting, a failure is left to handle. */
    method KeepaliveTick(i: nat, reply: bool)
      requires Valid() && i < |sys.kas| && sys.kas[i] == KWait
      modifies this`sys, this`trace
      ensures Valid() && |sys.kas| == |old(sys).kas|
      ensures sys.kas[i] == if client.None? then KLeave else if reply then KWait else KFail
    {
      AdvanceKeepalive(i, true);
      AdvanceKeepalive(i, true);
      if client.Some? {
        AdvanceKeepalive(i, reply);
      }
    }

    /** keepaliveLoop over a sequence of wakeups, with its deferred Done.  Only a failed request
        touches the listener, and after one the loop is gone. */
    method KeepaliveLoop(i: nat, script: seq<Wakeup>) returns (end: KeepaliveEnd)
      requires Valid() && i < |sys.kas| && sys.kas[i] == KWait
      requires ContextDone in script ==> ctxDone
      modifies this`listener, this`openListeners, this`wg, this`sys, this`trace
      ensures Valid() && |sys.kas| == |old(sys).kas|
      ensures end == KeepaliveOutcome(client, script)
      ensures if end.StillWaiting? then sys.kas[i] == KWait && wg == old(wg)
              else sys.kas[i] == KExited && wg == old(wg) - 1
      ensures if end.RequestFailed? then listener == None && openListeners == old(openListeners) - AsSet(old(listener))
              else listener == old(listener) && openListeners == old(openListeners)
    {
      end := StillWaiting;
      for n := 0 to |script|
        invariant Valid() && |sys.kas| == |old(sys).kas| && sys.kas[i] == KWait && end.StillWaiting?
        invariant wg == old(wg) && listener == old(listener) && openListeners == old(openListeners)
        invariant KeepaliveOutcome(client, script) == KeepaliveOutcome(client, script[n..])
      {
        assert script[n..][1..] == script[n + 1..];
        if script[n].ContextDone? {
          AdvanceKeepalive(i, false);
          end := Left;
        } else {
          KeepaliveTick(i, script[n].reply);
          if client.None? {
            end := Left;
          } else if !script[n].reply {
            KeepaliveFailed(i);
            end := RequestFailed;
          }
        }
        if !end.StillWaiting? {
          LeaveKeepalive(i);
          return;
        }
      }
    }

    method LeaveKeepalive(i: nat)
      requires Valid() && i < |sys.kas| && sys.kas[i] == KLeave
      modifies this`wg, this`sys, this`trace
      ensures Valid() && wg == old(wg) - 1
      ensures |sys.kas| == |old(sys).kas| && sys.kas[i] == KExited
    {
      wg := wg - 1;
      AdvanceKeepalive(i, true);
    }

    /** The context watcher closes the installed listener but leaves it in the field. */
    method WatcherFires()
      requires Valid() && sys.watch == WWait && ctxDone
      modifies this`openListeners, this`sys, this`trace
      ensures Valid() && sys.watch == WDone && openListeners == old(openListeners) - AsSet(listener)
    {
      if listener.Some? {
        CloseForward(listener.value);
      }
      Advance(Watch);
    }

    // ── Start and Close ───────────────────────────────────────────────

    ghost method AdvanceMain(ok: bool)
      requires Run(Init(cfg), trace) && After(cfg, trace) == sys && sys.cfg == cfg && MainEnabled(sys)
      modifies this`sys, this`trace
      ensures Run(Init(cfg), trace) && After(cfg, trace) == sys && sys.cfg == cfg
      ensures sys == MainStep(old(sys), ok)
    {
      Advance(Main(ok));
    }

    /** The remote listen of Start, over the client just dialled. */
    method ListenOver(c: nat, listen: bool) returns (ok: bool)
      requires Valid() && sys.main == MListen(c) && dialled == c + 1
      requires client == Some(c) && listener == None && openClients == {c} && openListeners == {}
      modifies this`listener, this`ctxDone, this`openClients, this`owner, this`openListeners, this`sys, this`trace
      ensures Valid() && sys.main == (if ok then MWatch else MReturned(false)) && ok == listen
      ensures if ok then HoldsNewest() else openClients == {} && openListeners == {} && listener == None && ctxDone
    {
      ok := RequestListen(c, listen);
      if ok {
        StoreListener(|owner| - 1);
      } else {
        Undo(c);
      }
    }

    method RequestListen(c: nat, listen: bool) returns (ok: bool)
      requires Valid() && sys.main == MListen(c)
      modifies this`owner, this`openListeners, this`sys, this`trace
      ensures Valid() && ok == listen && owner == old(owner) + if ok then [c] else []
      ensures sys.main == if ok then MSetListener(|old(owner)|) else MUndo(c)
      ensures openListeners == old(openListeners) + if ok then {|old(owner)|} else {}
    {
      var l := ListenRemoteForward(c, listen);
      AdvanceMain(listen);
      ok := l.Some?;
    }

    method StoreListener(l: nat)
      requires Valid() && sys.main == MSetListener(l)
      modifies this`listener, this`sys, this`trace
      ensures Valid() && sys.main == MWatch && listener == Some(l)
    {
      listener := Some(l);
      AdvanceMain(true);
    }

    /** The optional check of the gateway before it. */
    method ValidateOver(c: nat, valid: bool) returns (ok: bool)
      requires Valid() && sys.main == MSetClient(c) && openClients == {c}
      modifies this`client, this`ctxDone, this`openClients, this`sys, this`trace
      ensures Valid() && client == Some(c) && sys.main == if ok then MListen(c) else MReturned(false)
      ensures ok <==> (cfg.checkGateway ==> valid)
      ensures if ok then openClients == {c} else openClients == {} && ctxDone
    {
      client := Some(c);
      AdvanceMain(true);
      ok := true;
      if cfg.checkGateway {
        AdvanceMain(valid);
        if !valid {
          Undo(c);
          return false;
        }
      }
    }

    lemma StartsWithNothing()
      requires Valid() && sys.main == MDial
      ensures HoldsNothing()
    {
      ReachableInv(cfg, trace);
    }

    /** Dials, validates and listens: on any failure what was dialled is closed. */
    method Connect(dial: bool, valid: bool, listen: bool) returns (ok: bool)
      requires Valid() && sys.main == MDial
      modifies this`client, this`listener, this`ctxDone, this`dialled, this`openClients, this`owner,
               this`openListeners, this`sys, this`trace
      ensures Valid() && sys.main == if ok then MWatch else MReturned(false)
      ensures ok <==> dial && (cfg.checkGateway ==> valid) && listen
      ensures if ok then HoldsNewest() else openClients == {} && openListeners == {} && listener == None && ctxDone
    {
      StartsWithNothing();
      var c := DialSSH(dial);
      AdvanceMain(dial);
      if c.None? {
        Fail();
        return false;
      }
      ok := ValidateOver(c.value, valid);
      if ok {
        ok := ListenOver(c.value, listen);
      }
    }

    method Fail()
      requires Valid() && sys.main == MFailCancel
      modifies this`ctxDone, this`sys, this`trace
      ensures Valid() && sys.main == MReturned(false) && ctxDone
    {
      ctxDone := true;
      AdvanceMain(true);
    }

    method Undo(c: nat)
      requires Valid() && sys.main == MUndo(c)
      modifies this`openClients, this`ctxDone, this`sys, this`trace
      ensures Valid() && sys.main == MReturned(false) && ctxDone && openClients == old(openClients) - {c}
    {
      CloseSSH(c);
      AdvanceMain(true);
      Fail();
    }

    /** Launches a goroutine that the WaitGroup counts: Add, then go. */
    method Launch()
      requires Valid() && (sys.main == MAddKeepalive || sys.main == MAddAccept)
      modifies this`wg, this`sys, this`trace
      ensures Valid() && wg == old(wg) + 1
      ensures if old(sys).main == MAddKeepalive then sys.main == MAddAccept && sys.kas == old(sys).kas + [KWait]
              else sys.main == MWait && sys.acc == ARead
      ensures sys.watch == old(sys).watch
    {
      wg := wg + 1;
      AdvanceMain(true);
      AdvanceMain(true);
    }

    method LaunchAll()
      requires Valid() && sys.main == MWatch
      modifies this`wg, this`sys, this`trace
      ensures Valid() && sys.main == MWait && sys.acc == ARead && sys.watch == WWait
      ensures wg == old(wg) + if cfg.keepAlive then 2 else 1
    {
      AdvanceMain(true);
      if cfg.keepAlive {
        Launch();
      }
      Launch();
    }

    /** Start: connect, then launch the watcher, the keepalive loop if wanted, and the accept loop. */
    method Start(dial: bool, valid: bool, listen: bool) returns (ok: bool)
      requires Valid() && sys.main == MDial
      modifies this`client, this`listener, this`ctxDone, this`wg, this`dialled, this`openClients, this`owner,
               this`openListeners, this`sys, this`trace
      ensures Valid() && sys.main == if ok then MWait else MReturned(false)
      ensures ok <==> dial && (cfg.checkGateway ==> valid) && listen
      ensures ok ==>
        && HoldsNewest() && wg == old(wg) + (if cfg.keepAlive then 2 else 1)
        && sys.acc == ARead && sys.watch == WWait
      ensures !ok ==> wg == old(wg) && openClients == {} && openListeners == {} && listener == None && ctxDone
    {
      ok := Connect(dial, valid, listen);
      if ok {
        LaunchAll();
      }
    }

    /** Wait has returned. */
    ghost method WaitReturns()
      requires Valid() && sys.main == MWait && wg == 0
      modifies this`sys, this`trace
      ensures Valid() && sys.main == MClose && !closed
    {
      AdvanceMain(true);
      ReachableInv(cfg, trace);
    }

    method MarkClosed()
      requires Valid() && sys.main == MClose && !closed
      modifies this`closed, this`ctxDone, this`sys, this`trace
      ensures Valid() && sys.main == MCloseListener && closed && ctxDone
    {
      closed := true;
      AdvanceMain(true);
      ctxDone := true;
      AdvanceMain(true);
    }

    /** Close up to the end of the grace period, which is already over. */
    method ReleaseListener()
      requires Valid() && sys.main == MCloseListener
      modifies this`listener, this`openListeners, this`sys, this`trace
      ensures Valid() && sys.main == MCloseClient && listener == None
    {
      DropListenerField();
      AdvanceMain(true);
      AdvanceMain(true);
    }

    method ReleaseClient()
      requires Valid() && sys.main == MCloseClient
      modifies this`client, this`openClients, this`sys, this`trace
      ensures Valid() && sys.main == MReturned(true) && client == None
    {
      DropClientField();
      AdvanceMain(true);
    }

    /** Close after Wait: everything is closed, and a second call does nothing. */
    method Close()
      requires Valid() && (sys.main == MClose || closed)
      modifies this`client, this`listener, this`closed, this`ctxDone, this`openClients, this`openListeners,
               this`sys, this`trace
      ensures Valid() && closed
      ensures old(closed) ==> View() == old(View()) && sys == old(sys)
      ensures !old(closed) ==>
        && sys.main == MReturned(true) && ctxDone && HoldsNothing()
        && NothingOpen(sys) && NoGoroutines(sys)
    {
      if closed {
        return;
      }
      MarkClosed();
      ReleaseListener();
      ReleaseClient();
      NothingLeaks(cfg, trace);
    }

    /** How Run ends: Wait returns at zero and the deferred Close follows.  Everything is closed,
        and the counters are those of the connections served. */
    method WaitAndClose()
      requires Valid() && sys.main == MWait && wg == 0
      modifies this`client, this`listener, this`closed, this`ctxDone, this`openClients, this`openListeners,
               this`sys, this`trace
      ensures Valid() && closed && sys.main == MReturned(true)
      ensures HoldsNothing() && NothingOpen(sys) && NoGoroutines(sys)
      ensures metrics.View() == old(metrics.View())
      ensures var m := metrics.View();
        && m.active == 0 && m.total == |sys.conns|
        && m.bytesIn == Sum(DeliveredIn, sys.conns) && m.bytesOut == Sum(DeliveredOut, sys.conns)
    {
      WaitReturns();
      Close();
      CountedAtTheEnd();
    }

    lemma CountedAtTheEnd()
      requires Valid() && sys.main == MReturned(true)
      ensures var m := metrics.View();
        && m.active == 0 && m.total == |sys.conns|
        && m.bytesIn == Sum(DeliveredIn, sys.conns) && m.bytesOut == Sum(DeliveredOut, sys.conns)
    {
      NothingLeaks(cfg, trace);
      CountersAreExact(cfg, trace);
    }
  }
}
