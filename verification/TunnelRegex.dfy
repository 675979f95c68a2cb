/** The regular expression of tunnel specifications `[user@]host[:port]`, with its
    backtracking priorities, and a single scan that finds the same groups. */
module TunnelRegex {
  import opened Common
  import opened Numerals

  // ── Regular expressions with priorities ─────────────────────────────

  datatype Class = NotAt | NotColon | Digit

  predicate In(c: char, k: Class) {
    match k
    case NotAt => c != '@'
    case NotColon => c != ':'
    case Digit => IsDigit(c)
  }

  /** `Many` is a greedy `+`, `Opt` a greedy `?`. */
  datatype Regex =
    | Many(class_: Class)
    | Lit(c: char)
    | Cat(first: Regex, second: Regex)
    | Opt(body: Regex)
    | Group(n: nat, body: Regex)

  /** A partial match: how far it reaches, and the groups captured on the way. */
  datatype Match = Match(pos: nat, groups: map<nat, string>)

  /** The end of the run of class members that starts at `i`. */
  function RunEnd(s: string, i: nat, k: Class): (e: nat)
    requires i <= |s|
    ensures i <= e <= |s|
    ensures forall j :: i <= j < e ==> In(s[j], k)
    ensures e < |s| ==> !In(s[e], k)
    decreases |s| - i
  {
    if i < |s| && In(s[i], k) then RunEnd(s, i + 1, k) else i
  }

  /** Matches ending at `e`, `e - 1`, ..., one past the start: longest first. */
  function Shorter(m: Match, e: nat): seq<Match>
    requires m.pos <= e
    decreases e
  {
    if e == m.pos then [] else [m.(pos := e)] + Shorter(m, e - 1)
  }

  /** All ways to match `r` from `m` on, in the order backtracking tries them. */
  function Matches(r: Regex, s: string, m: Match): (ms: seq<Match>)
    requires m.pos <= |s|
    ensures forall x :: x in ms ==> m.pos <= x.pos <= |s|
    decreases r, 0
  {
    match r
    case Many(k) =>
      ShorterReach(m, RunEnd(s, m.pos, k));
      Shorter(m, RunEnd(s, m.pos, k))
    case Lit(c) => if m.pos < |s| && s[m.pos] == c then [m.(pos := m.pos + 1)] else []
    case Cat(a, b) => Continue(b, s, m.pos, Matches(a, s, m))
    case Opt(a) => Matches(a, s, m) + [m]
    case Group(n, a) => Capture(n, s, m.pos, Matches(a, s, m))
  }

  lemma {:induction false} ShorterReach(m: Match, e: nat)
    requires m.pos <= e
    ensures forall x :: x in Shorter(m, e) ==> m.pos < x.pos <= e
    decreases e
  {
    if e != m.pos {
      ShorterReach(m, e - 1);
    }
  }

  function Continue(b: Regex, s: string, from: nat, ms: seq<Match>): (rs: seq<Match>)
    requires forall x :: x in ms ==> from <= x.pos <= |s|
    ensures forall x :: x in rs ==> from <= x.pos <= |s|
    decreases b, 1, |ms|
  {
    if ms == [] then [] else Matches(b, s, ms[0]) + Continue(b, s, from, ms[1..])
  }

  function Capture(n: nat, s: string, from: nat, ms: seq<Match>): (rs: seq<Match>)
    requires forall x :: x in ms ==> from <= x.pos <= |s|
    ensures forall x :: x in rs ==> from <= x.pos <= |s|
    ensures |rs| == |ms|
  {
    if ms == [] then []
    else [ms[0].(groups := ms[0].groups[n := s[from..ms[0].pos]])] + Capture(n, s, from, ms[1..])
  }

  const USER := Cat(Group(1, Many(NotAt)), Lit('@'))
  const HOST := Group(2, Many(NotColon))
  const PORT := Cat(Lit(':'), Group(3, Many(Digit)))

  /** ^(?:([^@]+)@)?([^:]+)(?::(\d+))?$ without its anchors. */
  const TUNNEL := Cat(Opt(USER), Cat(HOST, Opt(PORT)))

  /** The first match in priority order that reaches the end of the text. */
  function FirstFull(s: string, ms: seq<Match>): Option<Match> {
    if ms == [] then None else if ms[0].pos == |s| then Some(ms[0]) else FirstFull(s, ms[1..])
  }

  /** FindStringSubmatch; a group that took no part reads as the empty string. */
  function FindSubmatch(s: string): Option<(string, string, string)> {
    var m := FirstFull(s, Matches(TUNNEL, s, Match(0, map[])));
    if m.None? then None
    else
      var g := m.value.groups;
      Some((GroupText(g, 1), GroupText(g, 2), GroupText(g, 3)))
  }

  function GroupText(g: map<nat, string>, n: nat): string { if n in g then g[n] else "" }

  // ── The same groups by one scan ─────────────────────────────────────

  /** `host[:port]` over the whole of `s`: the host runs to the first colon. */
  function ScanHostPort(s: string): Option<(string, string)> {
    var colon := IndexOf(s, ':');
    if colon == 0 then None
    else if colon == |s| then Some((s, ""))
    else if colon + 1 < |s| && AllDigits(s[colon + 1..]) then Some((s[..colon], s[colon + 1..]))
    else None
  }

  /** A user ends at the first '@', unless it would be empty or leave no host behind it. */
  function Scan(s: string): Option<(string, string, string)> {
    var at := IndexOf(s, '@');
    var rest := if 0 < at < |s| then ScanHostPort(s[at + 1..]) else None;
    if rest.Some? then Some((s[..at], rest.value.0, rest.value.1))
    else
      var whole := ScanHostPort(s);
      if whole.Some? then Some(("", whole.value.0, whole.value.1)) else None
  }

  // ── Backtracking finds what the scan finds ──────────────────────────

  lemma {:induction false} FirstFullConcat(s: string, a: seq<Match>, b: seq<Match>)
    ensures FirstFull(s, a + b) == if FirstFull(s, a).Some? then FirstFull(s, a) else FirstFull(s, b)
  {
    if a == [] {
      assert a + b == b;
    } else {
      assert (a + b)[1..] == a[1..] + b;
      FirstFullConcat(s, a[1..], b);
    }
  }

  /** A greedy run followed by a literal outside its class can only stop at its end. */
  lemma {:induction false} OnlyTheEndContinues(c: char, s: string, from: nat, n: nat, m: Match, e: nat)
    requires from <= m.pos <= e <= |s|
    requires forall j :: m.pos <= j < e ==> s[j] != c
    requires e < |s| ==> s[e] == c
    requires forall x :: x in Shorter(m, e) ==> from <= x.pos <= |s|
    ensures forall x :: x in Capture(n, s, from, Shorter(m, e)) ==> from <= x.pos <= |s|
    ensures Continue(Lit(c), s, from, Capture(n, s, from, Shorter(m, e)))
            == if m.pos < e < |s| then [Match(e + 1, m.groups[n := s[from..e]])] else []
    decreases e
  {
    if m.pos < e {
      var tail := Shorter(m, e - 1);
      assert Shorter(m, e)[1..] == tail;
      NoneContinues(c, s, from, n, m, e - 1);
      var head := m.(pos := e).(groups := m.groups[n := s[from..e]]);
      assert Capture(n, s, from, Shorter(m, e)) == [head] + Capture(n, s, from, tail);
      assert Capture(n, s, from, Shorter(m, e))[1..] == Capture(n, s, from, tail);
    }
  }

  lemma {:induction false} NoneContinues(c: char, s: string, from: nat, n: nat, m: Match, e: nat)
    requires from <= m.pos <= e < |s|
    requires forall j :: m.pos <= j <= e ==> s[j] != c
    ensures forall x :: x in Shorter(m, e) ==> from <= x.pos <= |s|
    ensures Continue(Lit(c), s, from, Capture(n, s, from, Shorter(m, e))) == []
    decreases e
  {
    ShorterReach(m, e);
    if m.pos < e {
      var tail := Shorter(m, e - 1);
      assert Shorter(m, e)[1..] == tail;
      NoneContinues(c, s, from, n, m, e - 1);
      var head := m.(pos := e).(groups := m.groups[n := s[from..e]]);
      assert Capture(n, s, from, Shorter(m, e)) == [head] + Capture(n, s, from, tail);
      assert Capture(n, s, from, Shorter(m, e))[1..] == Capture(n, s, from, tail);
    }
  }

  lemma RunEndIsIndexOf(s: string, i: nat, k: Class, c: char)
    requires i <= |s|
    requires (k == NotAt && c == '@') || (k == NotColon && c == ':')
    ensures RunEnd(s, i, k) == i + IndexOf(s[i..], c)
  {
    var e := RunEnd(s, i, k);
    IndexOfIs(s[i..], c, e - i);
  }

  /** The optional user: everything before the first '@', then the choice of no user. */
  lemma UserChoices(s: string)
    ensures var at := IndexOf(s, '@'); var m := Match(0, map[]);
      Matches(Opt(USER), s, m) == (if 0 < at < |s| then [Match(at + 1, map[1 := s[..at]])] else []) + [m]
  {
    var m: Match := Match(0, map[]);
    assert s[0..] == s;
    RunEndIsIndexOf(s, 0, NotAt, '@');
    var at := IndexOf(s, '@');
    ShorterReach(m, at);
    OnlyTheEndContinues('@', s, 0, 1, m, at);
    assert Matches(Group(1, Many(NotAt)), s, m) == Capture(1, s, 0, Shorter(m, at));
    assert s[0..at] == s[..at];
    assert Matches(USER, s, m) == if 0 < at < |s| then [Match(at + 1, map[1 := s[..at]])] else [];
  }

  lemma NoPortHere(s: string, x: Match)
    requires x.pos <= |s| && (x.pos < |s| ==> s[x.pos] != ':')
    ensures Matches(Opt(PORT), s, x) == [x]
  {
    assert Matches(Lit(':'), s, x) == [];
    assert Matches(PORT, s, x) == [];
  }

  lemma PortMatches(s: string, x: Match)
    requires x.pos < |s| && s[x.pos] == ':'
    ensures var y := x.(pos := x.pos + 1); var d := RunEnd(s, y.pos, Digit);
      && (forall z :: z in Shorter(y, d) ==> y.pos <= z.pos <= |s|)
      && Matches(PORT, s, x) == Capture(3, s, y.pos, Shorter(y, d))
  {
    var y := x.(pos := x.pos + 1);
    var d := RunEnd(s, y.pos, Digit);
    assert Matches(Lit(':'), s, x) == [y];
    ShorterReach(y, d);
    var ports := Capture(3, s, y.pos, Shorter(y, d));
    assert Matches(Group(3, Many(Digit)), s, y) == ports;
    assert [y][1..] == [];
    assert Continue(Group(3, Many(Digit)), s, x.pos, [y]) == ports + [];
  }

  lemma {:induction false} NoFullCapture(n: nat, s: string, from: nat, m: Match, e: nat)
    requires from <= m.pos <= e <= |s| && (m.pos < e ==> e < |s|)
    requires forall z :: z in Shorter(m, e) ==> from <= z.pos <= |s|
    ensures FirstFull(s, Capture(n, s, from, Shorter(m, e))) == None
    decreases e
  {
    if m.pos < e {
      assert Shorter(m, e)[1..] == Shorter(m, e - 1);
      NoFullCapture(n, s, from, m, e - 1);
      var ms := Capture(n, s, from, Shorter(m, e));
      assert ms[1..] == Capture(n, s, from, Shorter(m, e - 1));
    }
  }

  /** The longest run of digits is the only one that can reach the end. */
  lemma FullPort(s: string, y: Match, d: nat)
    requires y.pos <= d <= |s|
    requires forall j :: y.pos <= j < d ==> IsDigit(s[j])
    requires d < |s| ==> !IsDigit(s[d])
    requires forall z :: z in Shorter(y, d) ==> y.pos <= z.pos <= |s|
    ensures var digits := s[y.pos..];
      FirstFull(s, Capture(3, s, y.pos, Shorter(y, d)))
      == if digits != "" && AllDigits(digits) then Some(Match(|s|, y.groups[3 := digits])) else None
  {
    var digits := s[y.pos..];
    var ports := Capture(3, s, y.pos, Shorter(y, d));
    if digits != "" && d == |s| {
      assert s[y.pos..d] == digits;
      assert Shorter(y, d)[0] == y.(pos := d);
      assert ports[0] == Match(|s|, y.groups[3 := digits]);
    } else {
      assert digits != "" ==> digits[d - y.pos] == s[d];
      NoFullCapture(3, s, y.pos, y, d);
    }
  }

  /** At a colon the port must be digits, at least one, up to the end of the text. */
  lemma PortAt(s: string, x: Match)
    requires x.pos < |s| && s[x.pos] == ':'
    ensures var digits := s[x.pos + 1..];
      FirstFull(s, Matches(Opt(PORT), s, x))
      == if digits != "" && AllDigits(digits) then Some(Match(|s|, x.groups[3 := digits])) else None
  {
    PortMatches(s, x);
    FullPort(s, x.(pos := x.pos + 1), RunEnd(s, x.pos + 1, Digit));
    FirstFullConcat(s, Matches(PORT, s, x), [x]);
    assert [x][1..] == [];
  }

  /** The full match from the end of a host on, if there is one. */
  function AfterHost(s: string, x: Match): Option<Match>
    requires x.pos <= |s|
  {
    if x.pos == |s| then Some(x)
    else
      var digits := s[x.pos + 1..];
      if s[x.pos] == ':' && digits != "" && AllDigits(digits) then Some(Match(|s|, x.groups[3 := digits])) else None
  }

  lemma AfterHostIsFirstFull(s: string, x: Match)
    requires x.pos <= |s|
    ensures FirstFull(s, Matches(Opt(PORT), s, x)) == AfterHost(s, x)
  {
    if x.pos < |s| && s[x.pos] == ':' {
      PortAt(s, x);
    } else {
      NoPortHere(s, x);
      assert [x][1..] == [];
    }
  }

  function Host(s: string, m: Match, e: nat): Match
    requires m.pos <= e <= |s|
  {
    Match(e, m.groups[2 := s[m.pos..e]])
  }

  /** The first full match over those hosts, ending at `e`, `e - 1`, ..., longest first. */
  function FirstHost(s: string, m: Match, e: nat): Option<Match>
    requires m.pos <= e <= |s|
    decreases e
  {
    if e == m.pos then None
    else if AfterHost(s, Host(s, m, e)).Some? then AfterHost(s, Host(s, m, e))
    else FirstHost(s, m, e - 1)
  }

  lemma {:induction false} FirstFullOfHosts(s: string, m: Match, e: nat)
    requires m.pos <= e <= |s|
    ensures forall x :: x in Shorter(m, e) ==> m.pos <= x.pos <= |s|
    ensures FirstFull(s, Continue(Opt(PORT), s, m.pos, Capture(2, s, m.pos, Shorter(m, e)))) == FirstHost(s, m, e)
    decreases e
  {
    ShorterReach(m, e);
    if m.pos < e {
      var tail := Capture(2, s, m.pos, Shorter(m, e - 1));
      var head := Host(s, m, e);
      FirstFullOfHosts(s, m, e - 1);
      assert Shorter(m, e)[1..] == Shorter(m, e - 1);
      assert Capture(2, s, m.pos, Shorter(m, e)) == [head] + tail;
      AfterHostIsFirstFull(s, head);
      ContinueCons(Opt(PORT), s, m.pos, head, tail);
    }
  }

  lemma ContinueCons(b: Regex, s: string, from: nat, head: Match, tail: seq<Match>)
    requires from <= head.pos <= |s| && forall x :: x in tail ==> from <= x.pos <= |s|
    ensures FirstFull(s, Continue(b, s, from, [head] + tail))
            == if FirstFull(s, Matches(b, s, head)).Some? then FirstFull(s, Matches(b, s, head))
               else FirstFull(s, Continue(b, s, from, tail))
  {
    assert ([head] + tail)[1..] == tail;
    FirstFullConcat(s, Matches(b, s, head), Continue(b, s, from, tail));
  }

  /** A host cut short of its colon is followed by no colon, and not by the end either. */
  lemma {:induction false} ShorterHostsFail(s: string, m: Match, e: nat)
    requires m.pos <= e < |s|
    requires forall j :: m.pos <= j <= e ==> s[j] != ':'
    ensures FirstHost(s, m, e) == None
    decreases e
  {
    if m.pos < e {
      ShorterHostsFail(s, m, e - 1);
    }
  }

  /** The scan of a suffix, in terms of positions in the whole text. */
  lemma ScanFrom(s: string, i: nat)
    requires i <= |s|
    ensures var h := RunEnd(s, i, NotColon);
      ScanHostPort(s[i..])
      == if h == i then None
         else if h == |s| then Some((s[i..h], ""))
         else if h + 1 < |s| && AllDigits(s[h + 1..]) then Some((s[i..h], s[h + 1..]))
         else None
  {
    var h := RunEnd(s, i, NotColon);
    var t := s[i..];
    RunEndIsIndexOf(s, i, NotColon, ':');
    assert s[i..h] == t[..h - i];
    assert t[..|t|] == t;
    if h < |s| {
      assert t[h - i + 1..] == s[h + 1..];
    }
  }

  /** The only host that can lead to a full match: the whole run up to a colon or the end. */
  function LongestHost(s: string, m: Match): Option<Match>
    requires m.pos <= |s|
  {
    var h := RunEnd(s, m.pos, NotColon);
    if h == m.pos then None else AfterHost(s, Host(s, m, h))
  }

  lemma FirstHostIsLongest(s: string, m: Match)
    requires m.pos <= |s|
    ensures FirstHost(s, m, RunEnd(s, m.pos, NotColon)) == LongestHost(s, m)
  {
    var h := RunEnd(s, m.pos, NotColon);
    if h > m.pos && AfterHost(s, Host(s, m, h)).None? {
      ShorterHostsFail(s, m, h - 1);
    }
  }

  predicate SameGroups(r: Option<Match>, user: string, hp: Option<(string, string)>) {
    && (r.Some? <==> hp.Some?)
    && (r.Some? ==> && GroupText(r.value.groups, 1) == user
                    && GroupText(r.value.groups, 2) == hp.value.0
                    && GroupText(r.value.groups, 3) == hp.value.1)
  }

  lemma AfterHostGroups(s: string, m: Match, h: nat, hp: Option<(string, string)>)
    requires m.pos <= h <= |s| && 2 !in m.groups && 3 !in m.groups
    requires hp == if h == |s| then Some((s[m.pos..h], ""))
                   else if s[h] == ':' && h + 1 < |s| && AllDigits(s[h + 1..]) then Some((s[m.pos..h], s[h + 1..]))
                   else None
    ensures SameGroups(AfterHost(s, Host(s, m, h)), GroupText(m.groups, 1), hp)
  {
  }

  /** From a given position on, that match has the groups of the scan. */
  lemma LongestHostIsScan(s: string, m: Match)
    requires m.pos <= |s| && 2 !in m.groups && 3 !in m.groups
    ensures SameGroups(LongestHost(s, m), GroupText(m.groups, 1), ScanHostPort(s[m.pos..]))
  {
    ScanFrom(s, m.pos);
    var h := RunEnd(s, m.pos, NotColon);
    if h > m.pos {
      AfterHostGroups(s, m, h, ScanHostPort(s[m.pos..]));
    }
  }

  /** The host and port stage of the regular expression, from a given position on. */
  lemma HostStage(s: string, m: Match)
    requires m.pos <= |s|
    ensures FirstFull(s, Matches(Cat(HOST, Opt(PORT)), s, m)) == LongestHost(s, m)
  {
    var h := RunEnd(s, m.pos, NotColon);
    FirstFullOfHosts(s, m, h);
    FirstHostIsLongest(s, m);
    assert Matches(HOST, s, m) == Capture(2, s, m.pos, Shorter(m, h));
  }

  /** Trying with a user first and without one second, for any continuation `tail`. */
  lemma UserFirst(tail: Regex, s: string)
    ensures var at := IndexOf(s, '@'); var m0 := Match(0, map[]);
      FirstFull(s, Matches(Cat(Opt(USER), tail), s, m0))
      == if 0 < at < |s| && FirstFull(s, Matches(tail, s, Match(at + 1, map[1 := s[..at]]))).Some?
         then FirstFull(s, Matches(tail, s, Match(at + 1, map[1 := s[..at]])))
         else FirstFull(s, Matches(tail, s, m0))
  {
    var m0: Match := Match(0, map[]);
    var at := IndexOf(s, '@');
    UserChoices(s);
    assert [m0][1..] == [];
    assert Continue(tail, s, 0, [m0]) == Matches(tail, s, m0);
    if 0 < at < |s| {
      var u := Match(at + 1, map[1 := s[..at]]);
      assert Matches(Opt(USER), s, m0) == [u, m0];
      assert [u, m0][1..] == [m0];
      FirstFullConcat(s, Matches(tail, s, u), Matches(tail, s, m0));
    } else {
      assert Matches(Opt(USER), s, m0) == [m0];
    }
  }

  /** For every text, the groups of the first match in backtracking order are those of the scan. */
  lemma BacktrackingAgreesWithScan(s: string)
    ensures FindSubmatch(s) == Scan(s)
  {
    var m0: Match := Match(0, map[]);
    var at := IndexOf(s, '@');
    UserFirst(Cat(HOST, Opt(PORT)), s);
    HostStage(s, m0);
    LongestHostIsScan(s, m0);
    assert s[0..] == s;
    if 0 < at < |s| {
      var u := Match(at + 1, map[1 := s[..at]]);
      HostStage(s, u);
      LongestHostIsScan(s, u);
    }
  }
}
