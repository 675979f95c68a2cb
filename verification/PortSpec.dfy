/** Port specifications from the command line to the list of ports scanned. */
module PortSpec {
  import opened Common
  import opened Numerals

  datatype PortRange = PortRange(start: int, end: int)

  datatype PortError =
    | BadStart(text: string)
    | BadEnd(text: string)
    | BadRange(start: int, end: int)
    | BadPort(text: string)
    | OutOfRange(port: int)

  datatype Result<+T, +E> = Ok(value: T) | Error(error: E)

  predicate ValidRange(r: PortRange) { 1 <= r.start <= r.end <= 65535 }

  // ── ParsePortSpec ───────────────────────────────────────────────────

  function ParsePortSpec(spec: string): Result<PortRange, PortError> {
    var dash := IndexOf(spec, '-');
    if dash < |spec| then
      var start := Atoi(spec[..dash]);
      if start.None? then Error(BadStart(spec[..dash]))
      else
        var end := Atoi(spec[dash + 1..]);
        if end.None? then Error(BadEnd(spec[dash + 1..]))
        else if start.value < 1 || end.value > 65535 || start.value > end.value then
          Error(BadRange(start.value, end.value))
        else Ok(PortRange(start.value, end.value))
    else
      var port := Atoi(spec);
      if port.None? then Error(BadPort(spec))
      else if port.value < 1 || port.value > 65535 then Error(OutOfRange(port.value))
      else Ok(PortRange(port.value, port.value))
  }

  /** The usual way to write a range. */
  function PrintRange(r: PortRange): string
    requires ValidRange(r)
  {
    if r.start == r.end then Itoa(r.start) else Itoa(r.start) + "-" + Itoa(r.end)
  }

  /** A port written alone, or a range as two numerals around its first dash. */
  predicate Single(spec: string, port: int) { '-' !in spec && Numeral(spec, port) }

  predicate SplitAtDash(spec: string, a: string, b: string) { '-' !in a && spec == a + "-" + b }

  ghost predicate Written(spec: string, r: PortRange) {
    && 1 <= r.start <= r.end <= 65535
    && (|| (Single(spec, r.start) && r.start == r.end)
        || (exists a: string, b: string :: SplitAtDash(spec, a, b) && Numeral(a, r.start) && Numeral(b, r.end)))
  }

  ghost predicate Acceptable(spec: string) { exists r: PortRange :: Written(spec, r) }

  lemma DashSplits(spec: string, a: string, b: string)
    requires SplitAtDash(spec, a, b)
    ensures IndexOf(spec, '-') == |a| && spec[..|a|] == a && spec[|a| + 1..] == b
  {
    assert forall j :: 0 <= j < |a| ==> spec[j] == a[j];
    IndexOfIs(spec, '-', |a|);
  }

  lemma NoDash(spec: string)
    ensures IndexOf(spec, '-') == |spec| <==> '-' !in spec
  {
  }

  lemma SplitsAtFirstDash(spec: string, dash: nat)
    requires dash < |spec| && spec[dash] == '-' && forall j :: 0 <= j < dash ==> spec[j] != '-'
    ensures SplitAtDash(spec, spec[..dash], spec[dash + 1..])
  {
    assert spec == spec[..dash] + [spec[dash]] + spec[dash + 1..];
  }

  lemma AcceptsSingle(spec: string, r: PortRange)
    requires '-' !in spec
    ensures ParsePortSpec(spec) == Ok(r) <==> Single(spec, r.start) && 1 <= r.start == r.end <= 65535
  {
    NoDash(spec);
    AtoiReadsNumerals(spec, r.start);
  }

  lemma AcceptsDashed(spec: string, a: string, b: string, r: PortRange)
    requires SplitAtDash(spec, a, b)
    ensures ParsePortSpec(spec) == Ok(r)
            <==> Numeral(a, r.start) && Numeral(b, r.end) && 1 <= r.start <= r.end <= 65535
  {
    DashSplits(spec, a, b);
    AtoiReadsNumerals(a, r.start);
    AtoiReadsNumerals(b, r.end);
  }

  /** Exactly the texts that write a valid range are accepted, and as that range. */
  lemma AcceptsExactlyWritten(spec: string, r: PortRange)
    ensures ParsePortSpec(spec) == Ok(r) <==> Written(spec, r)
  {
    NoDash(spec);
    if '-' !in spec {
      AcceptsSingle(spec, r);
      forall a: string, b: string ensures !SplitAtDash(spec, a, b) {
        assert '-' in a + "-" + b by { assert (a + "-" + b)[|a|] == '-'; }
      }
    } else {
      var dash := IndexOf(spec, '-');
      SplitsAtFirstDash(spec, dash);
      AcceptsDashed(spec, spec[..dash], spec[dash + 1..], r);
      forall a: string, b: string | SplitAtDash(spec, a, b) ensures a == spec[..dash] && b == spec[dash + 1..] {
        DashSplits(spec, a, b);
      }
    }
  }

  /** Every valid range, printed, is read back as itself. */
  lemma ParseInvertsPrint(r: PortRange)
    requires ValidRange(r)
    ensures ParsePortSpec(PrintRange(r)) == Ok(r)
  {
    ItoaValue(r.start);
    ItoaValue(r.end);
    NoDashInDigits(Itoa(r.start));
    if r.start == r.end {
      AcceptsSingle(PrintRange(r), r);
    } else {
      AcceptsDashed(PrintRange(r), Itoa(r.start), Itoa(r.end), r);
    }
  }

  lemma NoDashInDigits(s: string)
    requires AllDigits(s)
    ensures '-' !in s
  {
  }

  lemma AcceptedIsWritten(spec: string)
    ensures ParsePortSpec(spec).Ok? <==> Acceptable(spec)
  {
    if ParsePortSpec(spec).Ok? {
      AcceptsExactlyWritten(spec, ParsePortSpec(spec).value);
    }
    forall r: PortRange | Written(spec, r) ensures ParsePortSpec(spec).Ok? {
      AcceptsExactlyWritten(spec, r);
    }
  }

  /** A 64-bit numeral of some value. */
  ghost predicate Readable(s: string) {
    exists v: int :: Numeral(s, v) && -0x8000_0000_0000_0000 <= v <= 0x7FFF_FFFF_FFFF_FFFF
  }

  lemma ReadableIffAtoi(s: string)
    ensures Readable(s) <==> Atoi(s).Some?
  {
    if Atoi(s).Some? {
      AtoiReadsNumerals(s, Atoi(s).value);
    }
    forall v: int | Numeral(s, v) && -0x8000_0000_0000_0000 <= v <= 0x7FFF_FFFF_FFFF_FFFF ensures Atoi(s).Some? {
      AtoiReadsNumerals(s, v);
    }
  }

  /** Why a single port is refused. */
  lemma RefusesSingle(spec: string, v: int)
    requires '-' !in spec
    ensures ParsePortSpec(spec) == Error(BadPort(spec)) <==> !Readable(spec)
    ensures ParsePortSpec(spec) == Error(OutOfRange(v)) <==>
      Readable(spec) && Numeral(spec, v) && !(1 <= v <= 65535)
  {
    NoDash(spec);
    ReadableIffAtoi(spec);
    if Atoi(spec).Some? {
      NumeralsAreUnique(spec, Atoi(spec).value, v);
    }
  }

  lemma NumeralsAreUnique(s: string, v: int, w: int)
    requires Atoi(s) == Some(v)
    ensures Numeral(s, w) <==> v == w
  {
    AtoiReadsNumerals(s, v);
    assert AllDigits(s) ==> IsDigit(s[0]);
  }

  /** Why a range is: its first bad end, or two good ones that make no valid range. */
  lemma RefusesDashed(spec: string, a: string, b: string, v: int, w: int)
    requires SplitAtDash(spec, a, b)
    ensures ParsePortSpec(spec) == Error(BadStart(a)) <==> !Readable(a)
    ensures ParsePortSpec(spec) == Error(BadEnd(b)) <==> Readable(a) && !Readable(b)
    ensures ParsePortSpec(spec) == Error(BadRange(v, w)) <==>
      Readable(a) && Readable(b) && Numeral(a, v) && Numeral(b, w) && !(1 <= v <= w <= 65535)
  {
    DashSplits(spec, a, b);
    ReadableIffAtoi(a);
    ReadableIffAtoi(b);
    if Atoi(a).Some? && Atoi(b).Some? {
      NumeralsAreUnique(a, Atoi(a).value, v);
      NumeralsAreUnique(b, Atoi(b).value, w);
    }
  }

  /** Everything accepted is a valid range. */
  lemma AcceptedIsValid(spec: string)
    ensures ParsePortSpec(spec).Ok? ==> ValidRange(ParsePortSpec(spec).value)
  {
  }

  // ── Expand and AllPorts ─────────────────────────────────────────────

  function Size(r: PortRange): int { r.end - r.start + 1 }

  function Ports(r: PortRange): seq<int>
    requires Size(r) >= 0
  {
    seq(Size(r), i => r.start + i)
  }

  /** The capacity passed to make must not be negative. */
  method Expand(r: PortRange) returns (out: seq<int>)
    requires Size(r) >= 0
    ensures out == Ports(r)
  {
    out := [];
    var p := r.start;
    while p <= r.end
      invariant r.start <= p <= r.end + 1
      invariant out == seq(p - r.start, i => r.start + i)
    {
      out := out + [p];
      p := p + 1;
    }
  }

  predicate AllExpand(ranges: seq<PortRange>) { forall i :: 0 <= i < |ranges| ==> Size(ranges[i]) >= 0 }

  predicate AllValid(ranges: seq<PortRange>) { forall i :: 0 <= i < |ranges| ==> ValidRange(ranges[i]) }

  function Flatten(ranges: seq<PortRange>): seq<int>
    requires AllExpand(ranges)
  {
    if ranges == [] then [] else Flatten(ranges[..|ranges| - 1]) + Ports(ranges[|ranges| - 1])
  }

  /** The flattened list has every port of every range, at the place the ranges before it leave. */
  lemma {:induction false} FlattenPlaces(ranges: seq<PortRange>, i: nat, k: nat)
    requires AllExpand(ranges) && i < |ranges| && k < Size(ranges[i])
    ensures |Flatten(ranges)| == Sum(Size, ranges)
    ensures 0 <= Sum(Size, ranges[..i]) && Sum(Size, ranges[..i]) + k < |Flatten(ranges)|
    ensures Flatten(ranges)[Sum(Size, ranges[..i]) + k] == ranges[i].start + k
  {
    var n := |ranges| - 1;
    FlattenSize(ranges[..n]);
    FlattenSize(ranges);
    if i < n {
      FlattenPlaces(ranges[..n], i, k);
      assert ranges[..n][..i] == ranges[..i];
    }
  }

  lemma {:induction false} FlattenSize(ranges: seq<PortRange>)
    requires AllExpand(ranges)
    ensures |Flatten(ranges)| == Sum(Size, ranges)
  {
    if ranges != [] {
      FlattenSize(ranges[..|ranges| - 1]);
    }
  }

  lemma PortsMembers(r: PortRange, p: int)
    requires Size(r) >= 0
    ensures p in Ports(r) <==> r.start <= p <= r.end
  {
    if r.start <= p <= r.end {
      assert Ports(r)[p - r.start] == p;
    }
  }

  /** A port is listed exactly when some range written contains it. */
  lemma {:induction false} FlattenMembers(ranges: seq<PortRange>, p: int)
    requires AllExpand(ranges)
    ensures p in Flatten(ranges) <==> exists i :: 0 <= i < |ranges| && ranges[i].start <= p <= ranges[i].end
  {
    if ranges != [] {
      var n := |ranges| - 1;
      FlattenMembers(ranges[..n], p);
      PortsMembers(ranges[n], p);
      if i: nat :| i < |ranges| && ranges[i].start <= p <= ranges[i].end {
        if i < n {
          assert ranges[..n][i] == ranges[i];
        }
      }
    }
  }

  // ── Positional arguments ────────────────────────────────────────────

  /** Why a command line is refused. */
  datatype ArgError = TooMany | NoHost | NoPort | BadSpec(arg: string, cause: PortError)

  /** The fields of config.Config that positional arguments set. */
  class Config {
    var listen: bool
    var host: string
    var port: int
    var ports: seq<PortRange>

    constructor (listen: bool)
      ensures this.listen == listen && host == "" && port == 0 && ports == []
    {
      this.listen, host, port, ports := listen, "", 0, [];
    }

    method AllPorts() returns (out: seq<int>)
      requires AllExpand(ports)
      ensures out == Flatten(ports)
    {
      out := [];
      for i := 0 to |ports|
        invariant out == Flatten(ports[..i])
      {
        assert ports[..i + 1][..i] == ports[..i];
        var more := Expand(ports[i]);
        out := out + more;
      }
      assert ports[..|ports|] == ports;
    }

    /** Reads host and ports.  A bad port argument leaves the ranges before it appended. */
    method ParsePositional(remaining: seq<string>) returns (err: Option<ArgError>)
      modifies this
      ensures listen == old(listen)
      ensures listen ==>
        && ports == old(ports)
        && host == (if |remaining| in {1, 2} then remaining[0] else old(host))
        && (err == None <==> |remaining| <= 1 || (|remaining| == 2 && Acceptable(remaining[1])))
        && (|remaining| == 2 && err == None ==> exists r: PortRange :: Written(remaining[1], r) && port == r.start)
        && (|remaining| != 2 || err != None ==> port == old(port))
      ensures !listen ==>
        && (err == None <==> |remaining| >= 2 && AllAcceptable(remaining[1..]))
        && (err == None ==> |ports| == |old(ports)| + |remaining| - 1
                            && AllWritten(remaining[1..], ports[|old(ports)|..]))
        && (remaining != [] ==> host == remaining[0])
        && (|remaining| >= 2 ==> ports == old(ports) + Ranges(remaining[1..]))
        && (err == None ==> port == ports[0].start)
        && (err != None ==> port == old(port))
        && (|remaining| == 0 ==> err == Some(NoHost) && host == old(host) && ports == old(ports))
        && (|remaining| == 1 ==> err == Some(NoPort) && ports == old(ports))
        && (|remaining| >= 2 && err != None ==>
              var bad := 1 + |Ranges(remaining[1..])|;
              && bad < |remaining| && ParsePortSpec(remaining[bad]).Error?
              && err == Some(BadSpec(remaining[bad], ParsePortSpec(remaining[bad]).error)))
    {
      if listen {
        if |remaining| == 0 {
        } else if |remaining| == 1 {
          host := remaining[0];
        } else if |remaining| == 2 {
          host := remaining[0];
          var pr := ParsePortSpec(remaining[1]);
          AcceptedIsWritten(remaining[1]);
          if pr.Error? {
            return Some(BadSpec(remaining[1], pr.error));
          }
          port := pr.value.start;
          AcceptsExactlyWritten(remaining[1], pr.value);
        } else {
          return Some(TooMany);
        }
        return None;
      }
      if |remaining| < 1 {
        return Some(NoHost);
      }
      host := remaining[0];
      if |remaining| < 2 {
        return Some(NoPort);
      }
      err := AppendRanges(remaining[1..]);
      RangesAreWritten(remaining[1..]);
      assert err == None ==> ports[|old(ports)|..] == Ranges(remaining[1..]);
      if err == None && |ports| > 0 {
        port := ports[0].start;
      }
    }

    /** The loop over the port arguments; it stops at the first bad one. */
    method AppendRanges(args: seq<string>) returns (err: Option<ArgError>)
      modifies this`ports
      ensures ports == old(ports) + Ranges(args)
      ensures err == None <==> AllParse(args)
      ensures err == None ==> |Ranges(args)| == |args|
      ensures err != None ==>
        var bad := |Ranges(args)|;
        && bad < |args| && ParsePortSpec(args[bad]).Error?
        && err == Some(BadSpec(args[bad], ParsePortSpec(args[bad]).error))
    {
      for i := 0 to |args|
        invariant AllParse(args[..i])
        invariant ports == old(ports) + Ranges(args[..i])
      {
        var pr := ParsePortSpec(args[i]);
        if pr.Error? {
          StopsAtFirstBad(args, i);
          return Some(BadSpec(args[i], pr.error));
        }
        ReadsOneMore(args, i);
        ports := ports + [pr.value];
      }
      assert args[..|args|] == args;
      RangesLength(args);
      return None;
    }
  }

  predicate AllParse(args: seq<string>) { forall i :: 0 <= i < |args| ==> ParsePortSpec(args[i]).Ok? }

  ghost predicate AllAcceptable(args: seq<string>) { forall i :: 0 <= i < |args| ==> Acceptable(args[i]) }

  ghost predicate AllWritten(args: seq<string>, ranges: seq<PortRange>) {
    |args| == |ranges| && forall i :: 0 <= i < |args| ==> Written(args[i], ranges[i])
  }

  lemma RangesAreWritten(args: seq<string>)
    ensures AllParse(args) <==> AllAcceptable(args)
    ensures AllParse(args) ==> AllWritten(args, Ranges(args))
  {
    forall i | 0 <= i < |args| ensures ParsePortSpec(args[i]).Ok? <==> Acceptable(args[i]) {
      AcceptedIsWritten(args[i]);
    }
    if AllParse(args) {
      RangesLength(args);
      forall i | 0 <= i < |args| ensures Written(args[i], Ranges(args)[i]) {
        AcceptsExactlyWritten(args[i], Ranges(args)[i]);
      }
    }
  }

  /** The ranges written, up to the first argument that is not one. */
  function Ranges(args: seq<string>): seq<PortRange> {
    if args == [] || ParsePortSpec(args[0]).Error? then [] else [ParsePortSpec(args[0]).value] + Ranges(args[1..])
  }

  lemma {:induction false} RangesAppend(args: seq<string>, arg: string)
    requires AllParse(args) && ParsePortSpec(arg).Ok?
    ensures AllParse(args + [arg]) && Ranges(args + [arg]) == Ranges(args) + [ParsePortSpec(arg).value]
  {
    if args == [] {
      assert [arg][1..] == [];
    } else {
      RangesAppend(args[1..], arg);
      assert (args + [arg])[1..] == args[1..] + [arg];
    }
  }

  lemma {:induction false} StopsAtFirstBad(args: seq<string>, i: nat)
    requires i < |args| && AllParse(args[..i]) && ParsePortSpec(args[i]).Error?
    ensures Ranges(args) == Ranges(args[..i]) && |Ranges(args)| == i && !AllParse(args)
  {
    if i > 0 {
      assert args[..i][0] == args[0] && args[..i][1..] == args[1..][..i - 1];
      StopsAtFirstBad(args[1..], i - 1);
    }
  }

  lemma ReadsOneMore(args: seq<string>, i: nat)
    requires i < |args| && AllParse(args[..i]) && ParsePortSpec(args[i]).Ok?
    ensures AllParse(args[..i + 1]) && Ranges(args[..i + 1]) == Ranges(args[..i]) + [ParsePortSpec(args[i]).value]
  {
    assert args[..i] + [args[i]] == args[..i + 1];
    RangesAppend(args[..i], args[i]);
  }

  lemma {:induction false} RangesLength(args: seq<string>)
    requires AllParse(args)
    ensures |Ranges(args)| == |args|
    ensures forall i :: 0 <= i < |args| ==> Ok(Ranges(args)[i]) == ParsePortSpec(args[i])
    ensures AllValid(Ranges(args))
  {
    if args != [] {
      RangesLength(args[1..]);
      AcceptedIsValid(args[0]);
    }
  }

  /** buildScan: the port list of the scan mode. */
  method BuildScanPorts(cfg: Config) returns (ports: seq<int>)
    requires AllExpand(cfg.ports)
    ensures ports == if Flatten(cfg.ports) == [] && cfg.port > 0 then [cfg.port] else Flatten(cfg.ports)
  {
    ports := cfg.AllPorts();
    if |ports| == 0 && cfg.port > 0 {
      ports := [cfg.port];
    }
  }

  /** From a fresh configuration and an accepted command line `host spec...`, the ports scanned are
      the in-order concatenation of the ranges written: not empty, all in 1..65535, and as many as
      the ranges hold together. */
  method ScanPipeline(remaining: seq<string>) returns (err: Option<ArgError>, ports: seq<int>)
    ensures err == None <==> |remaining| >= 2 && AllAcceptable(remaining[1..])
    ensures err == None ==>
      var ranges := Ranges(remaining[1..]);
      && AllWritten(remaining[1..], ranges)
      && AllValid(ranges) && AllExpand(ranges)
      && ports == Flatten(ranges)
      && |ports| == Sum(Size, ranges) > 0
      && (forall p :: p in ports ==> 1 <= p <= 65535)
  {
    var cfg := new Config(false);
    err := cfg.ParsePositional(remaining);
    ports := [];
    if err == None {
      ghost var ranges := Ranges(remaining[1..]);
      RangesAreWritten(remaining[1..]);
      RangesLength(remaining[1..]);
      assert cfg.ports == ranges;
      ports := BuildScanPorts(cfg);
      FlattenPlaces(ranges, 0, 0);
      FlattenSize(ranges);
      forall p | p in Flatten(ranges) ensures 1 <= p <= 65535 {
        FlattenMembers(ranges, p);
      }
    }
  }
}
