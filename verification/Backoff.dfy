/** retry.Backoff: the retry loop, its delays and jitter, and permanent errors.
    Durations are whole nanoseconds; the multiplier is an exact real. */
module Backoff {
  import opened Common

  const MILLISECOND: int := 1_000_000

  // ── Errors ──────────────────────────────────────────────────────────

  /** An error value as errors.As and errors.Unwrap see it: `Wrap` has one cause, `Join`
      several.  A nil error is `None`; a PermanentError built by hand may hold one. */
  datatype Err = Leaf(id: nat) | PermanentError(inner: Option<Err>) | Wrap(id: nat, cause: Err) | Join(errs: seq<Err>)

  function Permanent(err: Option<Err>): Option<Err> {
    if err.None? then None else Some(PermanentError(err))
  }

  /** errors.As for *PermanentError: the first one met, in pre-order. */
  function AsPermanent(e: Err): Option<Err> {
    match e
    case Leaf(_) => None
    case PermanentError(_) => Some(e)
    case Wrap(_, cause) => AsPermanent(cause)
    case Join(errs) => AsPermanentIn(errs)
  }

  function AsPermanentIn(errs: seq<Err>): Option<Err> {
    if errs == [] then None
    else if AsPermanent(errs[0]).Some? then AsPermanent(errs[0])
    else AsPermanentIn(errs[1..])
  }

  predicate IsPermanent(e: Err) { AsPermanent(e).Some? }

  /** errors.Unwrap: nil for an error that has several causes. */
  function Unwrap(e: Err): Option<Err> {
    match e
    case Leaf(_) => None
    case PermanentError(inner) => inner
    case Wrap(_, cause) => Some(cause)
    case Join(_) => None
  }

  lemma {:induction false} AsPermanentIsInside(e: Err)
    ensures IsPermanent(e) ==> AsPermanent(e).value.PermanentError?
    ensures IsPermanent(e) ==> AsPermanent(e).value == e || AsPermanent(e).value < e
    decreases e, 1
  {
    match e {
      case Wrap(_, cause) => AsPermanentIsInside(cause);
      case Join(errs) => AsPermanentInIsInside(errs);
      case _ =>
    }
  }

  lemma {:induction false} AsPermanentInIsInside(errs: seq<Err>)
    ensures AsPermanentIn(errs).Some? ==>
      var p := AsPermanentIn(errs).value; p.PermanentError? && exists i :: 0 <= i < |errs| && (p == errs[i] || p < errs[i])
    decreases errs, 0
  {
    if errs != [] {
      AsPermanentIsInside(errs[0]);
      AsPermanentInIsInside(errs[1..]);
      if AsPermanent(errs[0]).None? && AsPermanentIn(errs).Some? {
        var p := AsPermanentIn(errs).value;
        var i :| 0 <= i < |errs[1..]| && (p == errs[1..][i] || p < errs[1..][i]);
        assert errs[1..][i] == errs[i + 1];
      }
    }
  }

  /** `p` is reached from `e` by unwrapping wrappers and looking at each of several causes, which is
      as far as errors.As looks for a mark: the first one on a path hides what it was put on. */
  predicate Reaches(e: Err, p: Err) {
    || e == p
    || (e.Wrap? && Reaches(e.cause, p))
    || (e.Join? && exists i :: 0 <= i < |e.errs| && Reaches(e.errs[i], p))
  }

  ghost predicate MarkReached(e: Err) { exists p: Err :: p.PermanentError? && Reaches(e, p) }

  /** An error is permanent exactly if a mark can be reached from it, however deep. */
  lemma {:induction false} PermanentIffMarkReached(e: Err)
    ensures IsPermanent(e) <==> MarkReached(e)
    decreases e, 1
  {
    match e {
      case Leaf(_) =>
      case PermanentError(_) => assert Reaches(e, e);
      case Wrap(_, cause) =>
        PermanentIffMarkReached(cause);
        if p: Err :| p.PermanentError? && Reaches(cause, p) {
          assert Reaches(e, p);
        }
      case Join(errs) =>
        PermanentIffOneIs(errs);
        forall i | 0 <= i < |errs| ensures IsPermanent(errs[i]) <==> MarkReached(errs[i]) {
          PermanentIffMarkReached(errs[i]);
        }
        if i :| 0 <= i < |errs| && IsPermanent(errs[i]) {
          var p: Err :| p.PermanentError? && Reaches(errs[i], p);
          assert Reaches(e, p);
        }
    }
  }

  lemma {:induction false} PermanentIffOneIs(errs: seq<Err>)
    ensures AsPermanentIn(errs).Some? <==> exists i :: 0 <= i < |errs| && IsPermanent(errs[i])
  {
    if errs != [] {
      PermanentIffOneIs(errs[1..]);
      assert forall i :: 0 <= i < |errs[1..]| ==> errs[1..][i] == errs[i + 1];
      assert forall i :: 1 <= i < |errs| ==> errs[i] == errs[1..][i - 1];
    }
  }

  // ── Delays ──────────────────────────────────────────────────────────

  datatype Config = Config(initialDelay: int, maxDelay: int, multiplier: real, maxAttempts: int, jitter: bool)

  const DEFAULT := Config(SECOND, 60 * SECOND, 2.0, 10, true)

  function FirstDelay(b: Config): int { if b.initialDelay == 0 then SECOND else b.initialDelay }

  function Multiplier(b: Config): real { if b.multiplier <= 0.0 then 2.0 else b.multiplier }

  function Cap(b: Config): int { if b.maxDelay == 0 then 60 * SECOND else b.maxDelay }

  /** Conversion of a float to a Duration drops the fraction. */
  function Truncate(x: real): int { if x >= 0.0 then x.Floor else -(-x).Floor }

  function Scale(delay: int, multiplier: real): int { Truncate(delay as real * multiplier) }

  function NextDelay(b: Config, delay: int): int { Min(Scale(delay, Multiplier(b)), Cap(b)) }

  /** The value of the delay variable at the k-th attempt. */
  function Delay(b: Config, k: nat): int {
    if k <= 1 then FirstDelay(b) else NextDelay(b, Delay(b, k - 1))
  }

  function MaxReal(a: real, b: real): real { if a >= b then a else b }

  /** `u` is what the random source returned, in [0, 1). */
  function AddJitter(d: int, u: real): int {
    var quarter := d as real * 0.25;
    var delta := u * 2.0 * quarter - quarter;
    Truncate(MaxReal(d as real + delta, MILLISECOND as real))
  }

  // ── The retry loop ──────────────────────────────────────────────────

  /** What the outside does at each attempt: the operation's error, the random
      number drawn, and whether the context ends the wait. */
  datatype Env = Env(error: nat -> Option<Err>, random: nat -> real, cancelled: nat -> bool)

  ghost predicate Sane(env: Env) { forall k :: 0.0 <= env.random(k) < 1.0 }

  datatype Failure = Operation(err: Err) | MaxRetries(attempts: int, err: Err) | Cancelled

  /** `Retrying` is a loop observed before it has ended. */
  datatype Outcome = Retrying | Returned(err: Option<Failure>)

  function Wait(b: Config, env: Env, k: nat): int {
    if b.jitter then AddJitter(Delay(b, k), env.random(k)) else Delay(b, k)
  }

  predicate Exhausted(b: Config, k: nat) { b.maxAttempts > 0 && k >= b.maxAttempts }

  /** The k-th attempt is the last. */
  predicate Ends(b: Config, env: Env, k: nat) {
    env.error(k).None? || IsPermanent(env.error(k).value) || Exhausted(b, k) || env.cancelled(k)
  }

  /** What is returned after a last attempt: success and permanence are looked at
      before the budget, and the budget before the context. */
  function ReplyAfter(b: Config, env: Env, k: nat): Option<Failure>
    requires Ends(b, env, k)
  {
    var err := env.error(k);
    if err.None? then None
    else if IsPermanent(err.value) then
      var u := Unwrap(err.value);
      if u.None? then None else Some(Operation(u.value))
    else if Exhausted(b, k) then Some(MaxRetries(b.maxAttempts, err.value))
    else Some(Cancelled)
  }

  // ── What the loop returns for permanent errors ──────────────────────

  /** What the mark that IsPermanent finds was put on: nil only for a mark built by hand. */
  function Marked(e: Err): Option<Err> {
    if IsPermanent(e) && AsPermanent(e).value.PermanentError? then AsPermanent(e).value.inner else None
  }

  /** For an error that counts as permanent, the loop gives back the error that was marked
      exactly when the mark is outermost; a mark below a wrapper comes back still marked or
      still wrapped.  The loop returns nil, as if fn had succeeded, exactly for an error with
      several causes and for an outermost mark with no error in it. */
  lemma PermanentReplyIsMarkedError(b: Config, env: Env, k: nat)
    requires env.error(k).Some? && IsPermanent(env.error(k).value)
    ensures Ends(b, env, k)
    ensures var e := env.error(k).value; var r := ReplyAfter(b, env, k);
      && (Marked(e).Some? ==> (r == Some(Operation(Marked(e).value)) <==> e.PermanentError?))
      && (r == None <==> e.Join? || e == PermanentError(None))
  {
    var e := env.error(k).value;
    AsPermanentIsInside(e);
    if e.Wrap? {
      AsPermanentIsInside(e.cause);
      var p := AsPermanent(e.cause).value;
      assert p == e.cause || p < e.cause;
      if p.inner.Some? {
        SizeOrder(e.cause, p);
      }
    }
  }

  /** A marked error and its mark lie strictly below the error they were found in. */
  lemma SizeOrder(cause: Err, p: Err)
    requires p.PermanentError? && p.inner.Some? && (p == cause || p < cause)
    ensures p.inner.value != cause
  {
  }

  /** Two inputs for which fn has failed for good and the caller is told that it succeeded. */
  lemma FailureCanReadAsSuccess(b: Config, env: Env, id: nat)
    requires env.error(1) in {Some(Join([PermanentError(Some(Leaf(id)))])), Some(PermanentError(None))}
    ensures Ends(b, env, 1) && ReplyAfter(b, env, 1) == None
  {
    assert AsPermanentIn([PermanentError(Some(Leaf(id)))]).Some?;
  }

  /** In particular Permanent(e) makes the loop return e itself, after that attempt. */
  lemma PermanentReturnsInner(b: Config, env: Env, k: nat, e: Err)
    requires env.error(k) == Permanent(Some(e))
    ensures Ends(b, env, k) && ReplyAfter(b, env, k) == Some(Operation(e))
  {
  }

  // ── Closed form and bounds of the delays ────────────────────────────

  function Pow(m: nat, k: nat): nat { if k == 0 then 1 else m * Pow(m, k - 1) }

  lemma ScaleByWhole(d: int, m: int)
    ensures Scale(d, m as real) == d * m
  {
    assert d as real * m as real == (d * m) as real;
  }

  lemma CappedTimes(x: int, cap: int, m: int)
    requires m >= 1 && cap > 0 && x > 0
    ensures Min(Min(x, cap) * m, cap) == Min(x * m, cap)
  {
    if x > cap {
      assert cap * m >= cap;
      assert x * m >= cap * m;
    }
  }

  lemma NextPower(first: int, m: int, p: int, cap: int)
    requires first > 0 && m >= 1 && p >= 1 && cap > 0
    ensures Min(Min(first * p, cap) * m, cap) == Min(first * (m * p), cap)
  {
    assert first * p > 0;
    CappedTimes(first * p, cap, m);
    assert first * p * m == first * (m * p);
  }

  lemma {:induction false} PowPositive(m: nat, k: nat)
    requires m >= 1
    ensures Pow(m, k) >= 1
  {
    if k > 0 {
      PowPositive(m, k - 1);
    }
  }

  /** With a whole multiplier and without jitter the k-th delay is Initial * m^(k-1), capped. */
  lemma {:induction false} DelayClosedForm(b: Config, m: nat, k: nat)
    requires m >= 1 && Multiplier(b) == m as real
    requires 0 < FirstDelay(b) <= Cap(b) && k >= 1
    ensures Delay(b, k) == Min(FirstDelay(b) * Pow(m, k - 1), Cap(b))
  {
    if k == 1 {
      assert Pow(m, 0) == 1;
    } else {
      DelayClosedForm(b, m, k - 1);
      ScaleByWhole(Delay(b, k - 1), m);
      PowPositive(m, k - 2);
      NextPower(FirstDelay(b), m, Pow(m, k - 2), Cap(b));
    }
  }

  /** The same in terms of what was configured, where zero or less stands for a default: a first
      delay of a second, a multiplier of two, a cap of a minute. */
  lemma ConfiguredDelay(b: Config, m: nat, k: nat)
    requires m >= 1 && k >= 1
    ensures var first := if b.initialDelay == 0 then 1_000_000_000 else b.initialDelay;
      var cap := if b.maxDelay == 0 then 60_000_000_000 else b.maxDelay;
      0 < first <= cap && b.multiplier == m as real ==> Delay(b, k) == Min(first * Pow(m, k - 1), cap)
    ensures var first := if b.initialDelay == 0 then 1_000_000_000 else b.initialDelay;
      var cap := if b.maxDelay == 0 then 60_000_000_000 else b.maxDelay;
      0 < first <= cap && b.multiplier <= 0.0 ==> Delay(b, k) == Min(first * Pow(2, k - 1), cap)
  {
    if 0 < FirstDelay(b) <= Cap(b) {
      if b.multiplier == m as real {
        DelayClosedForm(b, m, k);
      } else if b.multiplier <= 0.0 {
        DelayClosedForm(b, 2, k);
      }
    }
  }

  /** For any multiplier, each delay is the one before it multiplied, with the fraction of a
      nanosecond dropped, and capped. */
  lemma NextDelayIs(b: Config, k: nat, scaled: real)
    requires k >= 1 && b.multiplier > 0.0 && 0 <= Delay(b, k) && scaled == Delay(b, k) as real * b.multiplier
    ensures Delay(b, k + 1) == Min(scaled.Floor, if b.maxDelay == 0 then 60_000_000_000 else b.maxDelay)
  {
    ScaleDropsFraction(Delay(b, k), b.multiplier, scaled);
    assert Delay(b, k + 1) == NextDelay(b, Delay(b, k));
  }

  lemma ScaleDropsFraction(d: int, m: real, scaled: real)
    requires d >= 0 && m > 0.0 && scaled == d as real * m
    ensures Scale(d, m) == scaled.Floor
  {
    assert scaled >= 0.0;
  }

  lemma ScaledUp(d: int, m: real)
    requires d >= 0 && m >= 1.0
    ensures Scale(d, m) >= d
  {
    var x := d as real * m;
    assert x >= d as real;
  }

  /** Delays never shrink while the multiplier is at least one and the first is within the cap. */
  lemma DelaysGrow(b: Config, k: nat)
    requires Multiplier(b) >= 1.0 && 0 < FirstDelay(b) <= Cap(b) && k >= 1
    ensures 0 < Delay(b, k) <= Delay(b, k + 1) <= Cap(b)
  {
    DelayPositiveUnderCap(b, k);
    ScaledUp(Delay(b, k), Multiplier(b));
  }

  lemma {:induction false} DelayPositiveUnderCap(b: Config, k: nat)
    requires Multiplier(b) >= 1.0 && 0 < FirstDelay(b) <= Cap(b) && k >= 1
    ensures 0 < Delay(b, k) <= Cap(b)
  {
    if k > 1 {
      DelayPositiveUnderCap(b, k - 1);
      ScaledUp(Delay(b, k - 1), Multiplier(b));
    }
  }

  lemma LaterDelaysAreCapped(b: Config, k: nat)
    requires k >= 2
    ensures Delay(b, k) <= Cap(b)
  {
  }

  /** MaxDelay caps every delay exactly when it caps the first, which is never clipped. */
  lemma CapHoldsIffFirstWithin(b: Config)
    ensures (forall k :: k >= 1 ==> Delay(b, k) <= Cap(b)) <==> FirstDelay(b) <= Cap(b)
  {
    if FirstDelay(b) <= Cap(b) {
      forall k: nat | k >= 1 ensures Delay(b, k) <= Cap(b) {
        if k >= 2 { LaterDelaysAreCapped(b, k); }
      }
    } else {
      assert Delay(b, 1) == FirstDelay(b);
    }
  }

  lemma {:induction false} DelayBounds(b: Config, k: nat)
    requires 0 < FirstDelay(b) && 0 < Cap(b) && k >= 1
    ensures 0 <= Delay(b, k) <= Max(FirstDelay(b), Cap(b))
  {
    if k > 1 {
      DelayBounds(b, k - 1);
      assert Delay(b, k - 1) as real * Multiplier(b) >= 0.0;
    }
  }

  // ── Jitter ──────────────────────────────────────────────────────────

  lemma FloorMonotone(x: real, y: real)
    requires x <= y
    ensures x.Floor <= y.Floor
  {
  }

  /** The wait drawn for `u`, exactly: between three and five quarters of the delay, by `u`, but at
      least a millisecond, in whole nanoseconds. */
  lemma JitterExactly(d: int, u: real)
    ensures AddJitter(d, u) == MaxReal(0.75 * d as real + u * (0.5 * d as real), 1_000_000.0).Floor
  {
    JitterIs(d, u);
  }

  /** The wait drawn for `u` in terms of three quarters of the delay. */
  lemma JitterIs(d: int, u: real)
    ensures AddJitter(d, u) == MaxReal(0.75 * d as real + u * (0.5 * d as real), MILLISECOND as real).Floor
  {
    var x := d as real;
    assert u * 2.0 * (x * 0.25) == u * (0.5 * x);
  }

  lemma FiveQuarters(d: int, c: int)
    ensures 5 * d <= 4 * c <==> 1.25 * d as real <= c as real
  {
    assert (5 * d) as real == 5.0 * d as real && (4 * c) as real == 4.0 * c as real;
  }

  lemma PartOf(u: real, h: real)
    requires 0.0 <= u < 1.0
    ensures if h > 0.0 then 0.0 <= u * h < h else u * h <= 0.0
    ensures h == 0.0 ==> u * h == 0.0
  {
    if h > 0.0 {
      assert u * h >= 0.0 && (1.0 - u) * h > 0.0;
    } else {
      assert u * -h >= 0.0;
    }
  }

  /** Each jittered wait lies within a quarter of its delay, but never below a millisecond. */
  lemma JitterBounds(d: int, u: real)
    requires d >= 0 && 0.0 <= u < 1.0
    ensures MaxReal(0.75 * d as real, MILLISECOND as real).Floor <= AddJitter(d, u)
    ensures AddJitter(d, u) as real <= MaxReal(1.25 * d as real, MILLISECOND as real)
    ensures AddJitter(d, u) >= 1_000_000
  {
    var part := JitterPart(d, u);
    WaitBetween(d, part, AddJitter(d, u));
  }

  lemma JitterPart(d: int, u: real) returns (part: real)
    requires d >= 0 && 0.0 <= u < 1.0
    ensures 0.0 <= part <= 0.5 * d as real
    ensures AddJitter(d, u) == MaxReal(0.75 * d as real + part, MILLISECOND as real).Floor
  {
    var h := 0.5 * d as real;
    JitterIs(d, u);
    PartOf(u, h);
    part := u * h;
  }

  lemma WaitBetween(d: int, part: real, wait: int)
    requires d >= 0 && 0.0 <= part <= 0.5 * d as real
    requires wait == MaxReal(0.75 * d as real + part, MILLISECOND as real).Floor
    ensures MaxReal(0.75 * d as real, MILLISECOND as real).Floor <= wait
    ensures wait as real <= MaxReal(1.25 * d as real, MILLISECOND as real)
    ensures wait >= 1_000_000
  {
    var exact := MaxReal(0.75 * d as real + part, MILLISECOND as real);
    FloorMonotone(MaxReal(0.75 * d as real, MILLISECOND as real), exact);
    FloorMonotone(MILLISECOND as real, exact);
  }

  lemma ShareOf(a: real, h: real)
    requires 0.0 <= a < h
    ensures 0.0 <= a / h < 1.0 && a / h * h == a
  {
    var u := a / h;
    assert u * h == a;
  }

  lemma JitterBelow(d: int, u: real, cap: int)
    requires 0.0 <= u < 1.0 && MILLISECOND <= cap && 5 * d <= 4 * (cap + 1)
    ensures AddJitter(d, u) <= cap
  {
    JitterIs(d, u);
    var h := 0.5 * d as real;
    FiveQuarters(d, cap + 1);
    PartOf(u, h);
    var part := u * h;
    assert MILLISECOND as real < (cap + 1) as real;
    if d > 0 {
      assert h > 0.0 && 0.75 * d as real + part < 1.25 * d as real;
    } else {
      assert h <= 0.0 && 0.75 * d as real + part <= 0.0;
    }
  }

  lemma JitterAbove(d: int, cap: int) returns (u: real)
    requires 5 * d > 4 * (cap + 1) && MILLISECOND <= cap
    ensures 0.0 <= u < 1.0 && AddJitter(d, u) > cap
  {
    var h := 0.5 * d as real;
    var least := 1.5 * h;
    var c := (cap + 1) as real;
    FiveQuarters(d, cap + 1);
    u := 0.0;
    if least < c {
      ShareOf(c - least, h);
      u := (c - least) / h;
    }
    JitterIs(d, u);
    FloorMonotone(c, MaxReal(least + u * h, MILLISECOND as real));
  }

  /** Jitter is added after the delay has been capped.  Whatever the random source returns, the
      wait stays within a cap exactly when the delay leaves a fifth of that cap free, to the
      nanosecond, and the cap is not below the smallest wait. */
  lemma JitterStaysWithinIff(d: int, cap: int)
    ensures (forall u: real :: 0.0 <= u < 1.0 ==> AddJitter(d, u) <= cap)
            <==> 1_000_000 <= cap && 5 * d <= 4 * (cap + 1)
  {
    if MILLISECOND <= cap && 5 * d <= 4 * (cap + 1) {
      forall u: real | 0.0 <= u < 1.0 ensures AddJitter(d, u) <= cap { JitterBelow(d, u, cap); }
    } else if MILLISECOND <= cap {
      var u := JitterAbove(d, cap);
    } else {
      JitterIs(d, 0.0);
      FloorMonotone(MILLISECOND as real, MaxReal(0.75 * d as real + 0.0 * (0.5 * d as real), MILLISECOND as real));
      assert AddJitter(d, 0.0) > cap;
    }
  }

  /** The defaults: ten attempts, jittered, around min(2^(k-1) seconds, one minute). */
  lemma DefaultSchedule(k: nat)
    requires k >= 1
    ensures DEFAULT.maxAttempts == 10 && DEFAULT.jitter
    ensures Delay(DEFAULT, k) == Min(1_000_000_000 * Pow(2, k - 1), 60_000_000_000)
  {
    DelayClosedForm(DEFAULT, 2, k);
  }

  /** So the default settings wait longer than their MaxDelay once that is reached. */
  lemma DefaultCanWaitLongerThanMaxDelay()
    ensures Delay(DEFAULT, 7) == DEFAULT.maxDelay && AddJitter(Delay(DEFAULT, 7), 0.75) > DEFAULT.maxDelay
  {
    DelayClosedForm(DEFAULT, 2, 7);
    assert Pow(2, 6) == 64;
    JitterIs(DEFAULT.maxDelay, 0.75);
  }

  /** A wait as a weight to add up. */
  function Nanoseconds(wait: int): int { wait }

  function WaitBound(b: Config): real {
    MaxReal(1.25 * Max(FirstDelay(b), Cap(b)) as real, MILLISECOND as real)
  }

  lemma WaitIsBounded(b: Config, env: Env, k: nat)
    requires Sane(env) && 0 < FirstDelay(b) && 0 < Cap(b) && k >= 1
    ensures Wait(b, env, k) as real <= WaitBound(b)
  {
    DelayBounds(b, k);
    var d := Delay(b, k);
    if b.jitter {
      assert 0.0 <= env.random(k) < 1.0;
      JitterBounds(d, env.random(k));
    }
  }

  /** `n` waits of `x` each. */
  function Times(n: nat, x: real): real { if n == 0 then 0.0 else Times(n - 1, x) + x }

  lemma {:induction false} TimesIsProduct(n: nat, x: real)
    ensures Times(n, x) == n as real * x
  {
    if n > 0 {
      TimesIsProduct(n - 1, x);
      var m := (n - 1) as real;
      assert n as real == m + 1.0 && (m + 1.0) * x == m * x + x;
    }
  }

  lemma {:induction false} TimesGrows(m: nat, n: nat, x: real)
    requires m <= n && x >= 0.0
    ensures Times(m, x) <= Times(n, x)
    decreases n
  {
    if m < n {
      TimesGrows(m, n - 1, x);
    }
  }

  lemma {:induction false} SumIsBounded(waits: seq<int>, x: real)
    requires AllWithin(waits, x)
    ensures Sum(Nanoseconds, waits) as real <= Times(|waits|, x)
  {
    if waits != [] {
      SumIsBounded(waits[..|waits| - 1], x);
    }
  }

  predicate AllWithin(waits: seq<int>, x: real) { forall i :: 0 <= i < |waits| ==> waits[i] as real <= x }

  lemma WaitsAreBounded(b: Config, env: Env, waits: seq<int>)
    requires Sane(env) && 0 < FirstDelay(b) && 0 < Cap(b)
    requires forall k :: 1 <= k <= |waits| ==> waits[k - 1] == Wait(b, env, k)
    ensures AllWithin(waits, WaitBound(b))
  {
    forall i | 0 <= i < |waits| ensures waits[i] as real <= WaitBound(b) {
      WaitIsBounded(b, env, i + 1);
    }
  }

  lemma FewWaits(waits: seq<int>, n: nat, x: real)
    requires AllWithin(waits, x) && |waits| <= n && x >= 0.0
    ensures Sum(Nanoseconds, waits) as real <= n as real * x
  {
    SumIsBounded(waits, x);
    TimesGrows(|waits|, n, x);
    TimesIsProduct(n, x);
  }

  /** Waits within a budget of attempts add up to at most one longest wait for each attempt but
      the last. */
  lemma TotalWaitIsBounded(b: Config, env: Env, waits: seq<int>)
    requires Sane(env) && 0 < FirstDelay(b) && 0 < Cap(b)
    requires |waits| < b.maxAttempts
    requires forall k :: 1 <= k <= |waits| ==> waits[k - 1] == Wait(b, env, k)
    ensures Sum(Nanoseconds, waits) as real <= (b.maxAttempts - 1) as real * WaitBound(b)
  {
    WaitsAreBounded(b, env, waits);
    FewWaits(waits, b.maxAttempts - 1, WaitBound(b));
  }

  // ── The loop itself ─────────────────────────────────────────────────

  /** After its k-th attempt the loop goes on. */
  predicate GoesOn(b: Config, env: Env, k: nat) {
    && env.error(k).Some? && !IsPermanent(env.error(k).value)
    && !(b.maxAttempts > 0 && k >= b.maxAttempts)
    && !env.cancelled(k)
  }

  lemma BudgetOfWaits(b: Config, env: Env, waits: seq<int>)
    requires forall k :: 1 <= k <= |waits| ==> waits[k - 1] == Wait(b, env, k)
    ensures Sane(env) && 0 < FirstDelay(b) && 0 < Cap(b) && |waits| < b.maxAttempts ==>
      Sum(Nanoseconds, waits) as real <= (b.maxAttempts - 1) as real * WaitBound(b)
  {
    if Sane(env) && 0 < FirstDelay(b) && 0 < Cap(b) && |waits| < b.maxAttempts {
      TotalWaitIsBounded(b, env, waits);
    }
  }

  /** Runs the loop for at most `horizon` attempts, which a loop without an attempt budget
      may need cutting at; `calls` and `waits` record the attempts and completed waits. */
  method Do(b: Config, env: Env, horizon: nat) returns (calls: seq<nat>, waits: seq<int>, out: Outcome)
    // fn is called with 1, 2, 3, ... and never again after the first attempt that ends the loop.
    ensures |calls| <= horizon && (horizon > 0 ==> calls != [])
    ensures forall i :: 0 <= i < |calls| ==> calls[i] == i + 1
    // It goes on exactly past a failure that is not permanent, with budget left, and not cancelled.
    ensures forall k :: 1 <= k < |calls| ==> GoesOn(b, env, k)
    ensures out.Returned? <==> calls != [] && !GoesOn(b, env, |calls|)
    // The reply: nil, the error that was marked, the last error with the budget, or cancellation.
    ensures out.Returned? && env.error(|calls|).None? ==> out.err == None
    ensures out.Returned? && env.error(|calls|).Some? ==>
      var e := env.error(|calls|).value;
      && (IsPermanent(e) ==> out.err == match e
            case PermanentError(inner) => (if inner.Some? then Some(Operation(inner.value)) else None)
            case Wrap(_, cause) => Some(Operation(cause))
            case _ => None)
      && (!IsPermanent(e) && b.maxAttempts > 0 && |calls| >= b.maxAttempts ==>
            out.err == Some(MaxRetries(b.maxAttempts, e)))
      && (!IsPermanent(e) && !(b.maxAttempts > 0 && |calls| >= b.maxAttempts) ==>
            env.cancelled(|calls|) && out.err == Some(Cancelled))
    // So nil is returned for a success, and for the two kinds of permanent error that read as one.
    ensures out == Returned(None) <==>
      calls != [] && match env.error(|calls|)
      case None => true
      case Some(e) => IsPermanent(e) && (e.Join? || e == PermanentError(None))
    ensures out.Retrying? ==> |calls| == horizon
    ensures b.maxAttempts > 0 ==> |calls| <= b.maxAttempts
    // Between attempts it waits, never after the last: the delay, jittered if that is wanted.
    ensures |waits| == if out.Returned? then |calls| - 1 else |calls|
    ensures forall k :: 1 <= k <= |waits| ==>
      waits[k - 1] == Wait(b, env, k) == if b.jitter then AddJitter(Delay(b, k), env.random(k)) else Delay(b, k)
    // With a budget the waits, and one cut short, last no longer than MaxAttempts - 1 longest ones.
    ensures Sane(env) && 0 < FirstDelay(b) && 0 < Cap(b) && b.maxAttempts > 0 ==>
      var begun := waits + if out == Returned(Some(Cancelled)) then [Wait(b, env, |calls|)] else [];
      Sum(Nanoseconds, begun) as real <= (b.maxAttempts - 1) as real * WaitBound(b)
  {
    calls, waits := [], [];
    var delay := b.initialDelay;
    if delay == 0 {
      delay := SECOND;
    }
    var multiplier := b.multiplier;
    if multiplier <= 0.0 {
      multiplier := 2.0;
    }
    var maxDelay := b.maxDelay;
    if maxDelay == 0 {
      maxDelay := 60 * SECOND;
    }
    var attempt := 1;
    while attempt <= horizon
      invariant 1 <= attempt <= horizon + 1
      invariant |calls| == |waits| == attempt - 1
      invariant delay == Delay(b, attempt) && multiplier == Multiplier(b) && maxDelay == Cap(b)
      invariant forall i :: 0 <= i < |calls| ==> calls[i] == i + 1
      invariant forall k :: 1 <= k <= |calls| ==> GoesOn(b, env, k)
      invariant forall k :: 1 <= k <= |waits| ==> waits[k - 1] == Wait(b, env, k)
      invariant b.maxAttempts > 0 && attempt > 1 ==> attempt - 1 < b.maxAttempts
    {
      BudgetOfWaits(b, env, waits);
      assert waits + [] == waits;
      calls := calls + [attempt];
      var err := env.error(attempt);
      if err.None? {
        return calls, waits, Returned(None);
      }
      if IsPermanent(err.value) {
        var u := Unwrap(err.value);
        return calls, waits, Returned(if u.None? then None else Some(Operation(u.value)));
      }
      if b.maxAttempts > 0 && attempt >= b.maxAttempts {
        return calls, waits, Returned(Some(MaxRetries(b.maxAttempts, err.value)));
      }
      var wait := delay;
      if b.jitter {
        wait := AddJitter(delay, env.random(attempt));
      }
      if env.cancelled(attempt) {
        BudgetOfWaits(b, env, waits + [wait]);
        return calls, waits, Returned(Some(Cancelled));
      }
      waits := waits + [wait];
      delay := Scale(delay, multiplier);
      if delay > maxDelay {
        delay := maxDelay;
      }
      assert delay == NextDelay(b, Delay(b, attempt));
      attempt := attempt + 1;
    }
    BudgetOfWaits(b, env, waits);
    assert waits + [] == waits;
    out := Retrying;
  }

  // ── The schedule of the tunnel's own reconnect loop ─────────────────

  /** What reconnect's backoff variable holds after its k-th failed attempt, with waits capped
      at `cap`; the first is never clipped. */
  function ReconnectDelay(k: nat, cap: nat): nat
    requires k >= 1
  {
    if k == 1 then SECOND else Min(ReconnectDelay(k - 1, cap) * 2, cap)
  }

  lemma DoubledAndCapped(p: int, cap: nat)
    requires p >= 1
    ensures Min(Min(SECOND * p, cap) * 2, cap) == Min(SECOND * (2 * p), cap)
  {
  }

  /** In closed form: min(2^(k-1) seconds, cap), from the second on for any cap and from the
      first for one of at least a second. */
  lemma {:induction false} ReconnectDelayClosedForm(k: nat, cap: nat)
    requires k >= 1
    ensures k >= 2 || cap >= SECOND ==> ReconnectDelay(k, cap) == Min(1_000_000_000 * Pow(2, k - 1), cap)
    ensures k == 1 ==> ReconnectDelay(k, cap) == 1_000_000_000
  {
    if k == 1 {
      assert Pow(2, 0) == 1;
    } else if k == 2 {
      assert Pow(2, 0) == 1 && Pow(2, 1) == 2;
      assert ReconnectDelay(1, cap) == SECOND;
    } else {
      ReconnectDelayClosedForm(k - 1, cap);
      PowPositive(2, k - 2);
      DoubledAndCapped(Pow(2, k - 2), cap);
    }
  }

  /** The two hand-written loops back off alike: Do with the default first delay and multiplier
      and without jitter has reconnect's delay at every attempt, whatever their common cap. */
  lemma {:induction false} SchedulesAgree(cap: nat, k: nat)
    requires cap > 0 && k >= 1
    ensures Delay(DEFAULT.(maxDelay := cap, jitter := false), k) == ReconnectDelay(k, cap)
  {
    if k > 1 {
      SchedulesAgree(cap, k - 1);
      ScaleByWhole(ReconnectDelay(k - 1, cap), 2);
    }
  }
}
