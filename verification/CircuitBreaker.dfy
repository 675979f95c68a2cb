/** retry.CircuitBreaker: the three-state machine behind a mutex, and what its counters
    and transitions mean in terms of the history of calls.  Calls may overlap: a history
    is any sequence of the locked sections beforeRequest, afterRequest and Reset. */
module CircuitBreaker {
  import opened Common

  datatype CircuitState = Closed | Open | HalfOpen

  datatype Config = Config(maxFailures: int, resetTimeout: int, halfOpenMax: int)

  const DEFAULT := Config(5, 30 * SECOND, 2)

  /** The settings after NewCircuitBreaker has replaced the unusable ones. */
  datatype Params = Params(maxFailures: int, resetTimeout: int, halfOpenMax: int) {
    predicate Valid() { maxFailures > 0 && resetTimeout > 0 && halfOpenMax > 0 }
  }

  /** Settings that can be used are kept; the others, and a missing config, give the defaults. */
  function Normalise(cfg: Option<Config>): (p: Params)
    ensures p.Valid()
    ensures cfg.None? ==> p == Params(5, 30 * SECOND, 2)
    ensures cfg.Some? ==>
      && p.maxFailures == (if cfg.value.maxFailures > 0 then cfg.value.maxFailures else 5)
      && p.resetTimeout == (if cfg.value.resetTimeout > 0 then cfg.value.resetTimeout else 30 * SECOND)
      && p.halfOpenMax == (if cfg.value.halfOpenMax > 0 then cfg.value.halfOpenMax else 2)
  {
    var c := if cfg.Some? then cfg.value else DEFAULT;
    Params(if c.maxFailures <= 0 then 5 else c.maxFailures,
           if c.resetTimeout <= 0 then 30 * SECOND else c.resetTimeout,
           if c.halfOpenMax <= 0 then 2 else c.halfOpenMax)
  }

  /** One call of onStateChange. */
  datatype Edge = Edge(from: CircuitState, to: CircuitState)

  datatype Breaker = Breaker(
    state: CircuitState, failures: int, successes: int, lastFailure: int, log: seq<Edge>)

  const FRESH := Breaker(Closed, 0, 0, 0, [])

  function Transition(b: Breaker, to: CircuitState): Breaker {
    if b.state == to then b else b.(state := to, log := b.log + [Edge(b.state, to)])
  }

  predicate Admits(p: Params, b: Breaker, now: int) {
    b.state == Open ==> now - b.lastFailure > p.resetTimeout
  }

  function Before(p: Params, b: Breaker, now: int): Breaker {
    if b.state == Open && Admits(p, b, now) then Transition(b, HalfOpen) else b
  }

  function After(p: Params, b: Breaker, ok: bool, now: int): Breaker {
    if !ok then
      var c := b.(failures := b.failures + 1, successes := 0, lastFailure := now);
      if b.state == HalfOpen || c.failures >= p.maxFailures then Transition(c, Open) else c
    else
      var c := b.(successes := b.successes + 1);
      match b.state
      case HalfOpen => if c.successes >= p.halfOpenMax then Transition(c.(failures := 0), Closed) else c
      case Closed => c.(failures := 0)
      case Open => c
  }

  function Reset(b: Breaker): Breaker { Transition(b.(failures := 0, successes := 0), Closed) }

  // ── The class ───────────────────────────────────────────────────────

  class CircuitBreaker {
    var state: CircuitState
    var failures: int
    var successes: int
    var lastFailure: int
    const maxFailures: int
    const resetTimeout: int
    const halfOpenMax: int
    /** What an onStateChange callback has been told. */
    var log: seq<Edge>

    ghost function Settings(): Params { Params(maxFailures, resetTimeout, halfOpenMax) }

    ghost function View(): Breaker
      reads this
    {
      Breaker(state, failures, successes, lastFailure, log)
    }

    constructor (cfg: Option<Config>)
      ensures View() == FRESH && Settings() == Normalise(cfg)
    {
      var c := if cfg.Some? then cfg.value else DEFAULT;
      maxFailures := if c.maxFailures <= 0 then 5 else c.maxFailures;
      resetTimeout := if c.resetTimeout <= 0 then 30 * SECOND else c.resetTimeout;
      halfOpenMax := if c.halfOpenMax <= 0 then 2 else c.halfOpenMax;
      state, failures, successes, lastFailure, log := Closed, 0, 0, 0, [];
    }

    method SetState(to: CircuitState)
      modifies this`state, this`log
      ensures View() == Transition(old(View()), to)
    {
      var from := state;
      if from == to {
        return;
      }
      state := to;
      log := log + [Edge(from, to)];
    }

    method BeforeRequest(now: int) returns (admitted: bool)
      modifies this`state, this`log
      ensures admitted <==> old(state) != Open || now - old(lastFailure) > resetTimeout
      ensures admitted == Admits(Settings(), old(View()), now)
      ensures View() == Before(Settings(), old(View()), now)
    {
      match state {
        case Closed => return true;
        case Open =>
          if now - lastFailure > resetTimeout {
            SetState(HalfOpen);
            return true;
          }
          return false;
        case HalfOpen => return true;
      }
    }

    method AfterRequest(ok: bool, now: int)
      modifies this
      ensures View() == After(Settings(), old(View()), ok, now)
    {
      if !ok {
        failures := failures + 1;
        successes := 0;
        lastFailure := now;
        if state == HalfOpen || failures >= maxFailures {
          SetState(Open);
        }
      } else {
        successes := successes + 1;
        match state {
          case HalfOpen =>
            if successes >= halfOpenMax {
              failures := 0;
              SetState(Closed);
            }
          case Closed => failures := 0;
          case Open =>
        }
      }
    }

    method ResetAll()
      modifies this
      ensures View() == Reset(old(View()))
    {
      failures := 0;
      successes := 0;
      SetState(Closed);
    }

    /** One uninterrupted Execute of an operation that starts at `start`, ends at `end`
        and returns nil iff `ok`. */
    method Execute(ok: bool, start: int, end: int) returns (called: bool, err: bool)
      modifies this
      ensures called <==> old(state) != Open || start - old(lastFailure) > resetTimeout
      ensures called == Admits(Settings(), old(View()), start)
      ensures err <==> !called || !ok
      ensures View() == var b := Before(Settings(), old(View()), start);
                        if called then After(Settings(), b, ok, end) else b
    {
      called := BeforeRequest(start);
      if !called {
        return called, true;
      }
      AfterRequest(ok, end);
      err := !ok;
    }
  }

  // ── Histories ───────────────────────────────────────────────────────

  datatype Event = Request(at: int) | Completion(ok: bool, at: int) | Cleared(at: int)

  function Step(p: Params, b: Breaker, e: Event): Breaker {
    match e
    case Request(now) => Before(p, b, now)
    case Completion(ok, now) => After(p, b, ok, now)
    case Cleared(_) => Reset(b)
  }

  function Replay(p: Params, h: seq<Event>): Breaker {
    if h == [] then FRESH else Step(p, Replay(p, h[..|h| - 1]), h[|h| - 1])
  }

  /** The clock is read under the lock, so it never runs backwards along a history. */
  predicate Monotone(h: seq<Event>) { forall i, j :: 0 <= i < j < |h| ==> h[i].at <= h[j].at }

  predicate Failed(e: Event) { e.Completion? && !e.ok }

  /** Completions since the last failure or Reset, all of them successes. */
  function SuccessRun(h: seq<Event>): nat {
    if h == [] then 0
    else
      var n := |h| - 1;
      match h[n]
      case Request(_) => SuccessRun(h[..n])
      case Completion(ok, _) => if ok then SuccessRun(h[..n]) + 1 else 0
      case Cleared(_) => 0
  }

  /** Completions since the last success or Reset, all of them failures. */
  function FailureRun(h: seq<Event>): nat {
    if h == [] then 0
    else
      var n := |h| - 1;
      match h[n]
      case Request(_) => FailureRun(h[..n])
      case Completion(ok, _) => if ok then 0 else FailureRun(h[..n]) + 1
      case Cleared(_) => 0
  }

  /** The counters say exactly what a reader of the history would count: successes is the
      current run of successes; while closed, failures is the current run of failures; and
      the circuit is closed exactly while failures is below the limit. */
  lemma {:induction false} CountersReadHistory(p: Params, h: seq<Event>)
    requires p.Valid()
    ensures var b := Replay(p, h);
      && b.successes == SuccessRun(h)
      && (b.state == Closed ==> b.failures == FailureRun(h))
      && (b.state == Closed <==> b.failures < p.maxFailures)
      && b.failures >= 0
  {
    if h != [] {
      CountersReadHistory(p, h[..|h| - 1]);
    }
  }

  /** A closed circuit opens exactly at the maxFailures-th failed completion in a row. */
  lemma OpensAtTheLimit(p: Params, h: seq<Event>, e: Event)
    requires p.Valid() && Replay(p, h).state == Closed
    ensures Replay(p, h + [e]).state != Closed <==> Failed(e) && FailureRun(h + [e]) == p.maxFailures
    ensures Replay(p, h + [e]).state != Closed ==> Replay(p, h + [e]).state == Open
  {
    assert (h + [e])[..|h|] == h;
    CountersReadHistory(p, h);
    CountersReadHistory(p, h + [e]);
  }

  // ── Closing from half-open ──────────────────────────────────────────

  /** Successes completed while open since the last failure or Reset: calls admitted
      earlier that finished late. */
  function LateSuccesses(p: Params, h: seq<Event>): nat {
    if h == [] then 0
    else
      var n := |h| - 1;
      var before := LateSuccesses(p, h[..n]);
      match h[n]
      case Request(_) => before
      case Completion(ok, _) =>
        if !ok then 0 else if Replay(p, h[..n]).state == Open then before + 1 else before
      case Cleared(_) => 0
  }

  /** Successes completed in the current half-open period. */
  function ProbeSuccesses(p: Params, h: seq<Event>): nat {
    if h == [] || Replay(p, h).state != HalfOpen then 0
    else
      var n := |h| - 1;
      ProbeSuccesses(p, h[..n]) + if h[n].Completion? && h[n].ok then 1 else 0
  }

  lemma {:induction false} HalfOpenCountsLateSuccesses(p: Params, h: seq<Event>)
    requires p.Valid()
    ensures var b := Replay(p, h);
      && (b.state == HalfOpen ==> b.successes == LateSuccesses(p, h) + ProbeSuccesses(p, h))
      && (b.state == Open ==> b.successes == LateSuccesses(p, h))
  {
    if h != [] {
      HalfOpenCountsLateSuccesses(p, h[..|h| - 1]);
    }
  }

  /** The successes it takes, counting the closing one, to close a half-open circuit are
      halfOpenMax less the late ones, and at least one.  The documented halfOpenMax probes
      are needed exactly when there was no late success, or one probe is enough anyway. */
  lemma ClosingTakes(p: Params, h: seq<Event>, at: int)
    requires p.Valid() && Replay(p, h).state == HalfOpen
    ensures var probes := ProbeSuccesses(p, h) + 1; var late := LateSuccesses(p, h);
      && (Replay(p, h + [Completion(true, at)]).state == Closed <==> probes + late >= p.halfOpenMax)
      && (Replay(p, h + [Completion(true, at)]).state == Closed ==>
            && SuccessRun(h + [Completion(true, at)]) >= p.halfOpenMax
            && (p.halfOpenMax > 1 && probes > 1 ==> probes == p.halfOpenMax - late)
            && (probes == p.halfOpenMax <==> late == 0 || p.halfOpenMax == 1))
  {
    assert (h + [Completion(true, at)])[..|h|] == h;
    HalfOpenCountsLateSuccesses(p, h);
    CountersReadHistory(p, h + [Completion(true, at)]);
    ProbesStayBelow(p, h);
  }

  /** While half-open, a circuit that has seen a probe succeed is still short of the limit. */
  lemma {:induction false} ProbesStayBelow(p: Params, h: seq<Event>)
    requires p.Valid()
    ensures Replay(p, h).state == HalfOpen && ProbeSuccesses(p, h) > 0 ==> Replay(p, h).successes < p.halfOpenMax
  {
    if h != [] {
      ProbesStayBelow(p, h[..|h| - 1]);
    }
  }

  /** A history may come from overlapping calls of Execute: every completion belongs to an
      earlier request that was admitted, one completion to each. */
  predicate FromCalls(p: Params, h: seq<Event>) { forall n :: 0 <= n <= |h| ==> InProgress(p, h[..n]) >= 0 }

  /** Admitted requests less completions. */
  function InProgress(p: Params, h: seq<Event>): int {
    if h == [] then 0
    else
      var n := |h| - 1;
      InProgress(p, h[..n]) + Started(p, Replay(p, h[..n]), h[n])
  }

  function Started(p: Params, b: Breaker, e: Event): int {
    match e
    case Request(now) => if Admits(p, b, now) then 1 else 0
    case Completion(_, _) => -1
    case Cleared(_) => 0
  }

  lemma ReplayStep(p: Params, h: seq<Event>, e: Event)
    ensures Replay(p, h + [e]) == Step(p, Replay(p, h), e)
    ensures InProgress(p, h + [e]) == InProgress(p, h) + Started(p, Replay(p, h), e)
    ensures FromCalls(p, h) && InProgress(p, h + [e]) >= 0 ==> FromCalls(p, h + [e])
  {
    var more := h + [e];
    assert more[..|h|] == h;
    if FromCalls(p, h) && InProgress(p, more) >= 0 {
      forall n | 0 <= n <= |more| ensures InProgress(p, more[..n]) >= 0 {
        assert n <= |h| ==> more[..n] == h[..n];
        assert n == |more| ==> more[..n] == more;
      }
    }
  }

  /** With halfOpenMax 2, two overlapping calls are enough for the circuit to close after a single
      half-open success: the second call of the pair succeeds while the circuit is open. */
  lemma OneProbeCanClose() returns (p: Params, h: seq<Event>)
    ensures p.Valid() && p.halfOpenMax == 2 && Monotone(h) && FromCalls(p, h)
    ensures h != [] && h[|h| - 1] == Completion(true, h[|h| - 1].at)
    ensures Replay(p, h[..|h| - 1]).state == HalfOpen && ProbeSuccesses(p, h[..|h| - 1]) == 0
    ensures Replay(p, h).state == Closed
  {
    p := Params(1, 10, 2);
    h := [];
    assert FromCalls(p, h);
    var events := [Request(0), Request(0), Completion(false, 0), Completion(true, 1), Request(11), Completion(true, 12)];
    ReplayStep(p, [], events[0]);
    ReplayStep(p, [] + [events[0]], events[1]);
    ReplayStep(p, [] + [events[0]] + [events[1]], events[2]);
    ReplayStep(p, [] + [events[0]] + [events[1]] + [events[2]], events[3]);
    ReplayStep(p, [] + [events[0]] + [events[1]] + [events[2]] + [events[3]], events[4]);
    h := [] + [events[0]] + [events[1]] + [events[2]] + [events[3]] + [events[4]];
    assert Replay(p, h).state == HalfOpen && InProgress(p, h) == 1;
    ProbesFromTheStart(p, h);
    ReplayStep(p, h, events[5]);
    var whole := h + [events[5]];
    assert whole[..|whole| - 1] == h;
    h := whole;
  }

  /** A half-open period that starts with its request has seen no success yet. */
  lemma ProbesFromTheStart(p: Params, h: seq<Event>)
    requires h != [] && h[|h| - 1].Request? && Replay(p, h[..|h| - 1]).state == Open
    ensures ProbeSuccesses(p, h) == 0
  {
  }

  /** Half-open does not limit probes: any number of requests is admitted at once. */
  lemma {:induction false} HalfOpenAdmitsAll(p: Params, h: seq<Event>, now: int, n: nat)
    requires p.Valid() && Replay(p, h).state == HalfOpen
    ensures Replay(p, h + seq(n, i => Request(now))) == Replay(p, h)
    ensures Admits(p, Replay(p, h + seq(n, i => Request(now))), now)
  {
    var more := h + seq(n, i => Request(now));
    if n == 0 {
      assert more == h;
    } else {
      HalfOpenAdmitsAll(p, h, now, n - 1);
      assert more[..|more| - 1] == h + seq(n - 1, i => Request(now));
    }
  }

  // ── The trace of transitions ────────────────────────────────────────

  predicate Legal(e: Edge) {
    e in {Edge(Closed, Open), Edge(Open, HalfOpen), Edge(HalfOpen, Closed), Edge(HalfOpen, Open), Edge(Open, Closed)}
  }

  predicate Path(log: seq<Edge>, end: CircuitState) {
    && (if log == [] then end == Closed else log[0].from == Closed && log[|log| - 1].to == end)
    && (forall i :: 0 <= i < |log| - 1 ==> log[i].to == log[i + 1].from)
    && (forall i :: 0 <= i < |log| ==> log[i].from != log[i].to && Legal(log[i]))
  }

  /** What the callback sees is one connected path of legal edges from Closed to the current state. */
  lemma {:induction false} LogIsAPath(p: Params, h: seq<Event>)
    requires p.Valid()
    ensures Path(Replay(p, h).log, Replay(p, h).state)
  {
    if h != [] {
      LogIsAPath(p, h[..|h| - 1]);
      CountersReadHistory(p, h[..|h| - 1]);
    }
  }

  /** Open goes straight to Closed only by Reset. */
  lemma OnlyResetSkipsHalfOpen(p: Params, h: seq<Event>, e: Event)
    requires p.Valid() && Replay(p, h).state == Open && Replay(p, h + [e]).state == Closed
    ensures e.Cleared?
  {
    assert (h + [e])[..|h|] == h;
  }

  lemma {:induction false} LastFailureIsLatest(p: Params, h: seq<Event>)
    requires Monotone(h)
    ensures forall i :: 0 <= i < |h| && Failed(h[i]) ==> h[i].at <= Replay(p, h).lastFailure
    ensures (exists i :: 0 <= i < |h| && Failed(h[i]) && h[i].at == Replay(p, h).lastFailure)
            || (Replay(p, h).lastFailure == 0 && forall i :: 0 <= i < |h| ==> !Failed(h[i]))
  {
    if h != [] {
      var n := |h| - 1;
      LastFailureIsLatest(p, h[..n]);
      assert forall i :: 0 <= i < n ==> h[..n][i] == h[i];
      if Failed(h[n]) {
        assert Replay(p, h).lastFailure == h[n].at;
      } else {
        assert Replay(p, h).lastFailure == Replay(p, h[..n]).lastFailure;
      }
    }
  }

  /** An open circuit goes half-open only on a request that comes more than resetTimeout
      after every failure recorded so far. */
  lemma HalfOpenOnlyAfterTimeout(p: Params, h: seq<Event>, e: Event)
    requires p.Valid() && Monotone(h) && Replay(p, h).state == Open
    requires Replay(p, h + [e]).state == HalfOpen
    ensures e.Request?
    ensures forall i :: 0 <= i < |h| && Failed(h[i]) ==> e.at - h[i].at > p.resetTimeout
  {
    assert (h + [e])[..|h|] == h;
    LastFailureIsLatest(p, h);
  }

  lemma {:induction false} OpenHasFailed(p: Params, h: seq<Event>)
    requires p.Valid()
    ensures Replay(p, h).failures > 0 ==> exists i :: 0 <= i < |h| && Failed(h[i])
  {
    if h != [] {
      var n := |h| - 1;
      OpenHasFailed(p, h[..n]);
      if Replay(p, h).failures > 0 && !Failed(h[n]) {
        var i :| 0 <= i < n && Failed(h[..n][i]);
        assert Failed(h[i]);
      }
    }
  }

  /** An open circuit lets a request through, and goes half-open with it, exactly when the timeout
      has passed since the last failure recorded, which is the same as since every one. */
  lemma ProbesExactlyAfterTimeout(p: Params, h: seq<Event>, at: int)
    requires p.Valid() && Monotone(h) && Replay(p, h).state == Open
    ensures exists i :: 0 <= i < |h| && Failed(h[i])
    ensures var probed := forall i :: 0 <= i < |h| && Failed(h[i]) ==> at - h[i].at > p.resetTimeout;
      && (Admits(p, Replay(p, h), at) <==> probed)
      && Replay(p, h + [Request(at)]).state == if probed then HalfOpen else Open
  {
    assert (h + [Request(at)])[..|h|] == h;
    CountersReadHistory(p, h);
    OpenHasFailed(p, h);
    LastFailureIsLatest(p, h);
  }

  /** A request changes nothing else: closed and half-open circuits let it through as they are. */
  lemma RequestsAreFree(p: Params, h: seq<Event>, at: int)
    requires p.Valid() && Replay(p, h).state != Open
    ensures Admits(p, Replay(p, h), at) && Replay(p, h + [Request(at)]) == Replay(p, h)
  {
    assert (h + [Request(at)])[..|h|] == h;
  }

  /** A failure while half-open opens the circuit again. */
  lemma FailureReopens(p: Params, h: seq<Event>, at: int)
    requires p.Valid() && Replay(p, h).state != Closed
    ensures Replay(p, h + [Completion(false, at)]).state == Open
  {
    assert (h + [Completion(false, at)])[..|h|] == h;
    CountersReadHistory(p, h);
  }

  /** Reset closes the circuit from whatever state, and starts both runs anew. */
  lemma ResetCloses(p: Params, h: seq<Event>, at: int)
    requires p.Valid()
    ensures var b := Replay(p, h + [Cleared(at)]); b.state == Closed && b.failures == 0 && b.successes == 0
  {
    assert (h + [Cleared(at)])[..|h|] == h;
  }

  // ── Load on a failing service ───────────────────────────────────────

  datatype Call = Call(start: int, end: int)

  /** Calls one after the other, in the order given. */
  predicate Sequential(calls: seq<Call>) {
    && (forall i :: 0 <= i < |calls| ==> calls[i].start <= calls[i].end)
    && (forall i, j :: 0 <= i < j < |calls| ==> calls[i].end <= calls[j].start)
  }

  function FailAll(p: Params, b: Breaker, calls: seq<Call>): Breaker {
    if calls == [] then b
    else
      var n := |calls| - 1;
      FailOnce(p, FailAll(p, b, calls[..n]), calls[n])
  }

  /** Execute with an operation that fails. */
  function FailOnce(p: Params, b: Breaker, c: Call): Breaker {
    if Admits(p, b, c.start) then After(p, Before(p, b, c.start), false, c.end) else b
  }

  /** The calls whose operation was actually run. */
  function Admitted(p: Params, b: Breaker, calls: seq<Call>): seq<Call> {
    if calls == [] then []
    else
      var n := |calls| - 1;
      Admitted(p, b, calls[..n]) + if Admits(p, FailAll(p, b, calls[..n]), calls[n].start) then [calls[n]] else []
  }

  /** Starts of calls run after the circuit has opened lie more than resetTimeout apart, and
      the first comes more than resetTimeout after it opened. */
  lemma {:induction false} AdmittedSpacing(p: Params, calls: seq<Call>)
    requires p.Valid() && Sequential(calls)
    ensures var a := Admitted(p, FRESH, calls); var b := FailAll(p, FRESH, calls); var m := p.maxFailures;
      && b.failures == |a|
      && b.state == (if |a| < m then Closed else Open)
      && (a != [] ==> b.lastFailure == a[|a| - 1].end)
      && (forall i :: 0 <= i < |a| ==> a[i].start <= a[i].end)
      && (calls != [] ==> forall i :: 0 <= i < |a| ==> a[i].end <= calls[|calls| - 1].end)
      && (forall i :: m <= i < |a| ==> a[i].start > a[i - 1].end + p.resetTimeout)
  {
    if calls != [] {
      var n := |calls| - 1;
      AdmittedSpacing(p, calls[..n]);
    }
  }

  /** Which calls are run when every call fails: one is exactly if fewer than maxFailures were run
      before it, or it starts more than resetTimeout after the end of the last one run. */
  lemma CallIsRunIff(p: Params, calls: seq<Call>, c: Call)
    requires p.Valid() && Sequential(calls + [c])
    ensures var a := Admitted(p, FRESH, calls);
      Admitted(p, FRESH, calls + [c])
      == if |a| < p.maxFailures || c.start - a[|a| - 1].end > p.resetTimeout then a + [c] else a
  {
    var more := calls + [c];
    assert more[..|calls|] == calls;
    assert Sequential(calls) by {
      assert forall i :: 0 <= i < |calls| ==> calls[i] == more[i];
    }
    AdmittedSpacing(p, calls);
  }

  lemma {:induction false} StartsAreFarApart(a: seq<Call>, m: nat, gap: int, i: nat, j: nat)
    requires gap > 0 && 1 <= m && m - 1 <= i < j < |a|
    requires forall k :: 0 <= k < |a| ==> a[k].start <= a[k].end
    requires forall k :: m <= k < |a| ==> a[k].start > a[k - 1].end + gap
    ensures a[j].start > a[i].end + (j - i) * gap
    decreases j
  {
    if j > i + 1 {
      StartsAreFarApart(a, m, gap, i, j - 1);
      assert (j - i) * gap == (j - 1 - i) * gap + gap;
    }
  }

  lemma StartsAreApart(a: seq<Call>, m: nat, gap: int, i: nat, j: nat)
    requires gap > 0 && 1 <= m && m - 1 <= i < j < |a|
    requires forall k :: 0 <= k < |a| ==> a[k].start <= a[k].end
    requires forall k :: m <= k < |a| ==> a[k].start > a[k - 1].end + gap
    ensures a[j].start > a[i].start + gap
  {
    StartsAreFarApart(a, m, gap, i, j);
    assert (j - i) * gap == gap + (j - i - 1) * gap;
    assert (j - i - 1) * gap >= 0;
  }

  /** When every call fails, the k-th call run after the circuit first opened starts more than
      k * resetTimeout after that moment, which is the end of the maxFailures-th one. */
  lemma LoadAfterOpening(p: Params, calls: seq<Call>, k: nat)
    requires p.Valid() && Sequential(calls) && k >= 1
    requires p.maxFailures + k <= |Admitted(p, FRESH, calls)|
    ensures var a := Admitted(p, FRESH, calls);
      a[p.maxFailures + k - 1].start > a[p.maxFailures - 1].end + k * p.resetTimeout
  {
    AdmittedSpacing(p, calls);
    var a := Admitted(p, FRESH, calls);
    StartsAreFarApart(a, p.maxFailures, p.resetTimeout, p.maxFailures - 1, p.maxFailures - 1 + k);
  }

  /** How many of the calls start in the window of length `D` that opens at `from`. */
  function StartedIn(a: seq<Call>, from: int, D: nat): nat {
    if a == [] then 0
    else
      var n := |a| - 1;
      StartedIn(a[..n], from, D) + if from <= a[n].start <= from + D then 1 else 0
  }

  lemma {:induction false} SpacedStartsAreFew(a: seq<Call>, gap: int, from: int, D: nat) returns (last: int)
    requires gap > 0
    requires forall i, j :: 0 <= i < j < |a| ==> a[j].start > a[i].start + gap
    ensures var n := StartedIn(a, from, D);
      n > 0 ==> && 0 <= last < |a| && a[last].start <= from + D
                && from + (n - 1) * gap <= a[last].start
                && (n > 1 ==> from + (n - 1) * gap < a[last].start)
  {
    last := -1;
    if a != [] {
      var n := |a| - 1;
      last := SpacedStartsAreFew(a[..n], gap, from, D);
      if from <= a[n].start <= from + D {
        var k := StartedIn(a[..n], from, D);
        assert k > 0 ==> k * gap == (k - 1) * gap + gap;
        last := n;
      }
    }
  }

  /** Hence of the calls run after the circuit opened, at most D / resetTimeout + 1 start in any
      window of length D, and fewer than that when there are two or more. */
  lemma LoadInAnyWindow(p: Params, calls: seq<Call>, from: int, D: nat)
    requires p.Valid() && Sequential(calls)
    requires p.maxFailures <= |Admitted(p, FRESH, calls)|
    ensures var n := StartedIn(Admitted(p, FRESH, calls)[p.maxFailures..], from, D);
      n > 0 ==> (n - 1) * p.resetTimeout <= D && (n > 1 ==> (n - 1) * p.resetTimeout < D)
  {
    AdmittedSpacing(p, calls);
    var a := Admitted(p, FRESH, calls);
    var later := a[p.maxFailures..];
    forall i, j | 0 <= i < j < |later| ensures later[j].start > later[i].start + p.resetTimeout {
      StartsAreApart(a, p.maxFailures, p.resetTimeout, p.maxFailures + i, p.maxFailures + j);
    }
    var last := SpacedStartsAreFew(later, p.resetTimeout, from, D);
  }
}
