/** ScanPorts: one goroutine per port, a semaphore of DefaultMaxConcurrentScans slots,
    and a shared result slice, under an arbitrary scheduler. */
module PortScan {
  import opened Common

  const MAX_CONCURRENT_SCANS: nat := 100

  /** `err` is what the dial reported, for a port that is not open. */
  datatype ScanResult = ScanResult(port: int, open: bool, err: Option<nat>)

  const UNSET := ScanResult(0, false, None)

  datatype Phase = Unborn | Acquiring | Dialling | Writing | Releasing | Leaving | Exited

  datatype MainPc = Spawning | Joining | Returned

  datatype State = State(
    phases: seq<Phase>, next: nat, sem: int, wg: int, results: seq<ScanResult>, main: MainPc)

  datatype Step = Main | Worker(i: nat)

  /** What the i-th dial comes back with: no error, or one. */
  type Dials = nat -> Option<nat>

  /** The result a sequential scan would record for the i-th port. */
  function Expected(ports: seq<int>, dial: Dials, i: nat): ScanResult
    requires i < |ports|
  {
    if dial(i).Some? then ScanResult(ports[i], false, dial(i)) else ScanResult(ports[i], true, None)
  }

  function Init(n: nat): State {
    State(seq(n, _ => Unborn), 0, 0, 0, seq(n, _ => UNSET), Spawning)
  }

  predicate Shaped(ports: seq<int>, s: State) {
    |s.phases| == |s.results| == |ports| && s.next <= |ports|
  }

  predicate Enabled(ports: seq<int>, s: State, st: Step)
    requires Shaped(ports, s)
  {
    match st
    case Main => s.main == Spawning || (s.main == Joining && s.wg == 0)
    case Worker(i) =>
      && i < |ports| && s.phases[i] != Unborn && s.phases[i] != Exited
      && (s.phases[i] == Acquiring ==> s.sem < MAX_CONCURRENT_SCANS)
  }

  function Apply(ports: seq<int>, dial: Dials, s: State, st: Step): State
    requires Shaped(ports, s) && Enabled(ports, s, st)
  {
    match st
    case Main =>
      if s.main == Spawning && s.next < |ports| then
        s.(phases := s.phases[s.next := Acquiring], next := s.next + 1, wg := s.wg + 1)
      else if s.main == Spawning then s.(main := Joining)
      else s.(main := Returned)
    case Worker(i) =>
      match s.phases[i]
      case Acquiring => s.(sem := s.sem + 1, phases := s.phases[i := Dialling])
      case Dialling => s.(phases := s.phases[i := Writing])
      case Writing => s.(results := s.results[i := Expected(ports, dial, i)], phases := s.phases[i := Releasing])
      case Releasing => s.(sem := s.sem - 1, phases := s.phases[i := Leaving])
      case Leaving => s.(wg := s.wg - 1, phases := s.phases[i := Exited])
      case _ => s
  }

  predicate Run(ports: seq<int>, dial: Dials, s: State, steps: seq<Step>)
    requires Shaped(ports, s)
    decreases |steps|
  {
    steps == [] || (Enabled(ports, s, steps[0]) && Run(ports, dial, Apply(ports, dial, s, steps[0]), steps[1..]))
  }

  function Exec(ports: seq<int>, dial: Dials, s: State, steps: seq<Step>): State
    requires Shaped(ports, s) && Run(ports, dial, s, steps)
    decreases |steps|
  {
    if steps == [] then s else Exec(ports, dial, Apply(ports, dial, s, steps[0]), steps[1..])
  }

  // ── The invariant ───────────────────────────────────────────────────

  function HoldsSlot(p: Phase): int { if p == Dialling || p == Writing || p == Releasing then 1 else 0 }

  function InFlight(p: Phase): int { if p == Dialling then 1 else 0 }

  function Live(p: Phase): int { if p == Unborn || p == Exited then 0 else 1 }

  predicate Written(p: Phase) { p == Releasing || p == Leaving || p == Exited }

  predicate Inv(ports: seq<int>, dial: Dials, s: State) {
    && Shaped(ports, s)
    && (forall i :: 0 <= i < |ports| ==> (s.phases[i] == Unborn <==> i >= s.next))
    && (forall i :: 0 <= i < |ports| ==>
          s.results[i] == if Written(s.phases[i]) then Expected(ports, dial, i) else UNSET)
    && s.sem == Sum(HoldsSlot, s.phases) <= MAX_CONCURRENT_SCANS
    && s.wg == Sum(Live, s.phases)
    && (s.main != Spawning ==> s.next == |ports|)
    && (s.main == Returned ==> s.wg == 0)
  }

  lemma {:induction false} UnbornSums(n: nat)
    ensures var ps := seq(n, _ => Unborn); Sum(HoldsSlot, ps) == 0 && Sum(Live, ps) == 0
  {
    if n > 0 {
      UnbornSums(n - 1);
      assert seq(n, _ => Unborn)[..n - 1] == seq(n - 1, _ => Unborn);
    }
  }

  lemma InitInv(ports: seq<int>, dial: Dials)
    ensures Inv(ports, dial, Init(|ports|))
  {
    UnbornSums(|ports|);
  }

  lemma MainKeepsInv(ports: seq<int>, dial: Dials, s: State)
    requires Inv(ports, dial, s) && Enabled(ports, s, Main)
    ensures Inv(ports, dial, Apply(ports, dial, s, Main))
  {
    if s.main.Spawning? && s.next < |ports| {
      SumUpdate(HoldsSlot, s.phases, s.next, Acquiring);
      SumUpdate(Live, s.phases, s.next, Acquiring);
    }
  }

  lemma WorkerKeepsTotals(ports: seq<int>, dial: Dials, s: State, i: nat)
    requires Inv(ports, dial, s) && Enabled(ports, s, Worker(i))
    ensures var t := Apply(ports, dial, s, Worker(i));
      && t.sem == Sum(HoldsSlot, t.phases) <= MAX_CONCURRENT_SCANS
      && t.wg == Sum(Live, t.phases)
      && s.wg > 0
  {
    var p := Apply(ports, dial, s, Worker(i)).phases[i];
    SumUpdate(HoldsSlot, s.phases, i, p);
    SumUpdate(Live, s.phases, i, p);
    SumNonNegative(Live, s.phases);
    assert Live(s.phases[i]) == 1;
  }

  lemma StepKeepsInv(ports: seq<int>, dial: Dials, s: State, st: Step)
    requires Inv(ports, dial, s) && Enabled(ports, s, st)
    ensures Inv(ports, dial, Apply(ports, dial, s, st))
  {
    if st.Main? {
      MainKeepsInv(ports, dial, s);
    } else {
      WorkerKeepsTotals(ports, dial, s, st.i);
    }
  }

  lemma {:induction false} RunKeepsInv(ports: seq<int>, dial: Dials, s: State, steps: seq<Step>)
    requires Inv(ports, dial, s) && Run(ports, dial, s, steps)
    ensures Inv(ports, dial, Exec(ports, dial, s, steps))
    decreases |steps|
  {
    if steps != [] {
      StepKeepsInv(ports, dial, s, steps[0]);
      RunKeepsInv(ports, dial, Apply(ports, dial, s, steps[0]), steps[1..]);
    }
  }

  // ── Bounded, never stuck, finite ────────────────────────────────────

  lemma {:induction false} FlightsHoldSlots(ps: seq<Phase>)
    ensures Sum(InFlight, ps) <= Sum(HoldsSlot, ps)
  {
    if ps != [] {
      FlightsHoldSlots(ps[..|ps| - 1]);
    }
  }

  /** At most a hundred dials are in flight in any state reached under any schedule. */
  lemma DialsAreLimited(ports: seq<int>, dial: Dials, steps: seq<Step>)
    requires Run(ports, dial, Init(|ports|), steps)
    ensures Sum(InFlight, Exec(ports, dial, Init(|ports|), steps).phases) <= 100
  {
    InitInv(ports, dial);
    RunKeepsInv(ports, dial, Init(|ports|), steps);
    FlightsHoldSlots(Exec(ports, dial, Init(|ports|), steps).phases);
  }

  /** And a worker has to wait for its turn only while a hundred others hold a slot. */
  lemma WaitsOnlyWhenFull(ports: seq<int>, dial: Dials, steps: seq<Step>, i: nat)
    requires Run(ports, dial, Init(|ports|), steps)
    requires var s := Exec(ports, dial, Init(|ports|), steps); i < |s.phases| && s.phases[i] == Acquiring
    ensures var s := Exec(ports, dial, Init(|ports|), steps);
      Shaped(ports, s) && (Enabled(ports, s, Worker(i)) <==> Sum(HoldsSlot, s.phases) < 100)
  {
    InitInv(ports, dial);
    RunKeepsInv(ports, dial, Init(|ports|), steps);
  }

  lemma {:induction false} SomeoneHoldsASlot(ps: seq<Phase>) returns (i: nat)
    requires Sum(HoldsSlot, ps) > 0
    ensures i < |ps| && HoldsSlot(ps[i]) == 1
  {
    var n := |ps| - 1;
    if HoldsSlot(ps[n]) == 1 {
      i := n;
    } else {
      i := SomeoneHoldsASlot(ps[..n]);
    }
  }

  lemma {:induction false} SomeoneIsLive(ps: seq<Phase>) returns (i: nat)
    requires Sum(Live, ps) > 0
    ensures i < |ps| && Live(ps[i]) == 1
  {
    var n := |ps| - 1;
    if Live(ps[n]) == 1 {
      i := n;
    } else {
      i := SomeoneIsLive(ps[..n]);
    }
  }

  /** A scan that has not returned can always take a step: a full semaphore has a holder
      that can go on, and a WaitGroup above zero has a goroutine that can. */
  lemma NeverStuck(ports: seq<int>, dial: Dials, s: State) returns (st: Step)
    requires Inv(ports, dial, s) && s.main != Returned
    ensures Enabled(ports, s, st)
  {
    SumNonNegative(Live, s.phases);
    if s.main == Spawning || s.wg == 0 {
      st := Main;
    } else {
      var i := SomeoneIsLive(s.phases);
      if s.phases[i] == Acquiring && s.sem == MAX_CONCURRENT_SCANS {
        i := SomeoneHoldsASlot(s.phases);
      }
      st := Worker(i);
    }
  }

  function ToGo(p: Phase): int {
    match p
    case Unborn => 6
    case Acquiring => 5
    case Dialling => 4
    case Writing => 3
    case Releasing => 2
    case Leaving => 1
    case Exited => 0
  }

  /** How many steps are left. */
  function Remaining(s: State): int {
    Sum(ToGo, s.phases) + (match s.main case Spawning => 2 case Joining => 1 case Returned => 0)
  }

  lemma MainCountsDown(ports: seq<int>, dial: Dials, s: State)
    requires Inv(ports, dial, s) && Enabled(ports, s, Main)
    ensures Remaining(Apply(ports, dial, s, Main)) == Remaining(s) - 1
  {
    if s.main.Spawning? && s.next < |ports| {
      SumUpdate(ToGo, s.phases, s.next, Acquiring);
    }
  }

  lemma WorkerCountsDown(ports: seq<int>, dial: Dials, s: State, i: nat)
    requires Inv(ports, dial, s) && Enabled(ports, s, Worker(i))
    ensures Remaining(Apply(ports, dial, s, Worker(i))) == Remaining(s) - 1
  {
    SumUpdate(ToGo, s.phases, i, Apply(ports, dial, s, Worker(i)).phases[i]);
  }

  /** Every step brings the scan exactly one step closer to its end, so none runs for ever. */
  lemma StepsCountDown(ports: seq<int>, dial: Dials, s: State, st: Step)
    requires Inv(ports, dial, s) && Enabled(ports, s, st)
    ensures Remaining(Apply(ports, dial, s, st)) == Remaining(s) - 1 >= 0
  {
    if st.Main? {
      MainCountsDown(ports, dial, s);
    } else {
      WorkerCountsDown(ports, dial, s, st.i);
    }
    SumNonNegative(ToGo, Apply(ports, dial, s, st).phases);
  }

  /** A scan of `n` ports takes exactly 6 * n + 2 steps, whatever the schedule. */
  lemma {:induction false} InitialSteps(n: nat)
    ensures Remaining(Init(n)) == 6 * n + 2
  {
    if n > 0 {
      InitialSteps(n - 1);
      assert Init(n).phases[..n - 1] == Init(n - 1).phases;
    }
  }

  /** When ScanPorts returns, every slot holds what a sequential scan would have put there. */
  lemma ReturnedIsComplete(ports: seq<int>, dial: Dials, s: State)
    requires Inv(ports, dial, s) && s.main == Returned
    ensures s.results == seq(|ports|, i requires 0 <= i < |ports| => Expected(ports, dial, i))
  {
    SumNonNegative(Live, s.phases);
    forall i | 0 <= i < |ports| ensures s.results[i] == Expected(ports, dial, i) {
      assert Live(s.phases[i]) == 0;
    }
  }

  lemma {:induction false} RunCountsDown(ports: seq<int>, dial: Dials, s: State, steps: seq<Step>)
    requires Inv(ports, dial, s) && Run(ports, dial, s, steps)
    ensures Remaining(Exec(ports, dial, s, steps)) == Remaining(s) - |steps| >= 0
    decreases |steps|
  {
    if steps == [] {
      SumNonNegative(ToGo, s.phases);
    } else {
      StepKeepsInv(ports, dial, s, steps[0]);
      StepsCountDown(ports, dial, s, steps[0]);
      RunCountsDown(ports, dial, Apply(ports, dial, s, steps[0]), steps[1..]);
    }
  }

  lemma {:induction false} NothingToGo(ps: seq<Phase>)
    requires Sum(Live, ps) == 0 && forall i :: 0 <= i < |ps| ==> ps[i] != Unborn
    ensures Sum(ToGo, ps) == 0
  {
    if ps != [] {
      SumNonNegative(Live, ps);
      assert Live(ps[|ps| - 1]) == 0;
      NothingToGo(ps[..|ps| - 1]);
    }
  }

  /** Every run is finite: it has at most 6 * n + 2 steps, and exactly so many, with the results
      of a sequential scan, when it has returned, whatever the schedule. */
  lemma EveryRunEnds(ports: seq<int>, dial: Dials, steps: seq<Step>)
    requires Run(ports, dial, Init(|ports|), steps)
    ensures |steps| <= 6 * |ports| + 2
    ensures var s := Exec(ports, dial, Init(|ports|), steps);
      s.main == Returned ==>
        && |steps| == 6 * |ports| + 2
        && s.results == seq(|ports|, i requires 0 <= i < |ports| => Expected(ports, dial, i))
  {
    InitInv(ports, dial);
    InitialSteps(|ports|);
    RunKeepsInv(ports, dial, Init(|ports|), steps);
    RunCountsDown(ports, dial, Init(|ports|), steps);
    var s := Exec(ports, dial, Init(|ports|), steps);
    if s.main == Returned {
      NothingToGo(s.phases);
      ReturnedIsComplete(ports, dial, s);
    }
  }

  // ── The program ─────────────────────────────────────────────────────

  /** What the goroutines of one scan share. */
  class Scanner {
    const ports: seq<int>
    const phases: array<Phase>
    const results: array<ScanResult>
    var next: nat
    var sem: int
    var wg: int
    var main: MainPc

    function View(): State
      reads this, phases, results
    {
      State(phases[..], next, sem, wg, results[..], main)
    }

    constructor (ports: seq<int>)
      ensures this.ports == ports && View() == Init(|ports|)
      ensures fresh(phases) && fresh(results)
    {
      this.ports := ports;
      phases := new Phase[|ports|](_ => Unborn);
      results := new ScanResult[|ports|](_ => UNSET);
      next, sem, wg, main := 0, 0, 0, Spawning;
    }

    /** The caller spawns the next worker, turns to Wait, or returns from it. */
    method AdvanceMain(ghost dial: Dials)
      requires Shaped(ports, View()) && Enabled(ports, View(), Main)
      modifies this, phases
      ensures View() == Apply(ports, dial, old(View()), Main)
    {
      if main.Spawning? && next < |ports| {
        wg := wg + 1;
        phases[next] := Acquiring;
        next := next + 1;
      } else if main.Spawning? {
        main := Joining;
      } else {
        main := Returned;
      }
    }

    /** The worker of the i-th port moves on by one operation. */
    method AdvanceWorker(i: nat, dial: Dials)
      requires Shaped(ports, View()) && Enabled(ports, View(), Worker(i))
      modifies this`sem, this`wg, phases, results
      ensures View() == Apply(ports, dial, old(View()), Worker(i))
    {
      match phases[i] {
        case Acquiring =>
          sem := sem + 1;
          phases[i] := Dialling;
        case Dialling => phases[i] := Writing;
        case Writing =>
          var err := dial(i);
          results[i] := if err.Some? then ScanResult(ports[i], false, err) else ScanResult(ports[i], true, None);
          phases[i] := Releasing;
        case Releasing =>
          sem := sem - 1;
          phases[i] := Leaving;
        case Leaving =>
          wg := wg - 1;
          phases[i] := Exited;
      }
    }
  }

  /** The scan under an arbitrary scheduler: at each turn any goroutine that can run is picked,
      index |ports| being the caller.  The result does not depend on the choices. */
  method ScanPorts(ports: seq<int>, dial: Dials) returns (results: seq<ScanResult>)
    ensures |results| == |ports|
    ensures forall i :: 0 <= i < |ports| ==>
      && results[i].port == ports[i]
      && (results[i].open <==> dial(i) == None)
      && results[i].err == dial(i)
  {
    var scan := new Scanner(ports);
    InitInv(ports, dial);
    while !scan.main.Returned?
      invariant scan.ports == ports && fresh(scan) && fresh(scan.phases) && fresh(scan.results)
      invariant Inv(ports, dial, scan.View())
      modifies scan, scan.phases, scan.results
      decreases Remaining(scan.View())
    {
      ghost var before := scan.View();
      ghost var able := NeverStuck(ports, dial, before);
      assert Enabled(ports, before, Choice(ports, if able.Main? then |ports| else able.i));
      var who: nat :| who <= |ports| && Enabled(ports, scan.View(), Choice(ports, who));
      StepKeepsInv(ports, dial, before, Choice(ports, who));
      StepsCountDown(ports, dial, before, Choice(ports, who));
      if who == |ports| {
        scan.AdvanceMain(dial);
      } else {
        scan.AdvanceWorker(who, dial);
      }
    }
    ReturnedIsComplete(ports, dial, scan.View());
    results := scan.results[..];
  }

  function Choice(ports: seq<int>, who: nat): Step { if who == |ports| then Main else Worker(who) }

  function OpenOne(r: ScanResult): int { if r.open then 1 else 0 }

  /** The counting loop of ScanMode.Run. */
  method CountOpen(results: seq<ScanResult>) returns (open: int)
    ensures open == Sum(OpenOne, results)
    ensures open == 0 <==> forall i :: 0 <= i < |results| ==> !results[i].open
  {
    open := 0;
    for i := 0 to |results|
      invariant open == Sum(OpenOne, results[..i]) >= 0
      invariant open == 0 <==> forall j :: 0 <= j < i ==> !results[j].open
    {
      assert results[..i + 1][..i] == results[..i];
      if results[i].open {
        open := open + 1;
      }
    }
    assert results[..|results|] == results;
  }
}
