/** ParseTunnelSpec: what it accepts, and that printing and parsing undo each other. */
module TunnelSpec {
  import opened Common
  import opened Numerals
  import opened PortSpec
  import opened TunnelRegex

  // ── ParseTunnelSpec ─────────────────────────────────────────────────

  datatype Spec = Spec(user: string, host: string, port: int)

  datatype SpecError = NoMatch | BadTunnelPort(text: string) | HostRequired

  const DEFAULT_SSH_PORT := 22

  function ParseTunnelSpec(spec: string): Result<Spec, SpecError> { FromGroups(FindSubmatch(spec)) }

  /** The parser after the regular expression has been applied. */
  function FromGroups(m: Option<(string, string, string)>): Result<Spec, SpecError> {
    if m.None? then Error(NoMatch)
    else
      var (user, host, digits) := m.value;
      var port := if digits != "" then Atoi(digits) else Some(DEFAULT_SSH_PORT);
      if digits != "" && (port.None? || port.value < 1 || port.value > 65535) then Error(BadTunnelPort(digits))
      else if host == "" then Error(HostRequired)
      else Ok(Spec(user, host, port.value))
  }

  lemma ParseUsesScan(s: string)
    ensures ParseTunnelSpec(s) == FromGroups(Scan(s))
  {
    BacktrackingAgreesWithScan(s);
  }

  function UserPart(user: string): string { if user == "" then "" else user + "@" }

  function PrintSpec(x: Spec): string
    requires x.port >= 0
  {
    UserPart(x.user) + x.host + ":" + Itoa(x.port)
  }

  /** Without a user in front, a host is read as a host only if it has no '@' that could end a
      user: none at all, one at the very start, or the first one at the very end. */
  predicate StandsAlone(host: string) {
    var at := IndexOf(host, '@');
    at == |host| || at == 0 || at == |host| - 1
  }

  predicate Canonical(x: Spec) {
    && 1 <= x.port <= 65535
    && x.host != "" && ':' !in x.host
    && '@' !in x.user
    && (x.user == "" ==> StandsAlone(x.host))
  }

  /** What may follow a host: nothing, or a colon and digits. */
  predicate IsSuffix(suffix: string) { suffix == "" || (|suffix| > 1 && suffix[0] == ':' && AllDigits(suffix[1..])) }

  function DigitsOf(suffix: string): string { if suffix == "" then "" else suffix[1..] }

  lemma ScanHostPortOf(host: string, suffix: string)
    requires host != "" && ':' !in host
    requires IsSuffix(suffix)
    ensures ScanHostPort(host + suffix) == Some((host, DigitsOf(suffix)))
  {
    var s := host + suffix;
    assert forall j :: 0 <= j < |host| ==> s[j] == host[j];
    IndexOfIs(s, ':', |host|);
    assert s[..|host|] == host;
    if suffix != "" {
      assert s[|host| + 1..] == suffix[1..];
    } else {
      assert s == host;
    }
  }

  lemma ColonFirst(suffix: string)
    requires suffix == "" || suffix[0] == ':'
    ensures ScanHostPort(suffix) == None
  {
    if suffix != "" {
      IndexOfIs(suffix, ':', 0);
    }
  }

  lemma ScanWithUser(user: string, host: string, suffix: string)
    requires user != "" && '@' !in user && host != "" && ':' !in host
    requires IsSuffix(suffix)
    ensures Scan(user + "@" + host + suffix) == Some((user, host, DigitsOf(suffix)))
  {
    var s := user + "@" + host + suffix;
    ScanHostPortOf(host, suffix);
    IndexOfIs(s, '@', |user|);
    assert s[|user| + 1..] == host + suffix && s[..|user|] == user;
  }

  lemma ScanWithoutUser(host: string, suffix: string)
    requires host != "" && ':' !in host && IsSuffix(suffix)
    ensures Scan(host + suffix) == Some(("", host, DigitsOf(suffix))) <==> StandsAlone(host)
    ensures Scan(host + suffix).Some? && Scan(host + suffix).value.2 == DigitsOf(suffix)
  {
    var at := IndexOf(host, '@');
    if 0 < at < |host| - 1 {
      InnerAtEndsUser(host, at, suffix);
      assert host[..at] != "";
    } else {
      OuterAtIsHost(host, at, suffix);
    }
  }

  /** An '@' inside a host ends a user. */
  lemma InnerAtEndsUser(host: string, at: nat, suffix: string)
    requires ':' !in host && IsSuffix(suffix) && at == IndexOf(host, '@') && 0 < at < |host| - 1
    ensures Scan(host + suffix) == Some((host[..at], host[at + 1..], DigitsOf(suffix)))
  {
    FirstAt(host, suffix);
    BehindTheAt(host, at, suffix);
    assert (host + suffix)[..at] == host[..at];
  }

  lemma OuterAtIsHost(host: string, at: nat, suffix: string)
    requires host != "" && ':' !in host && IsSuffix(suffix) && at == IndexOf(host, '@')
    requires at == 0 || at >= |host| - 1
    ensures Scan(host + suffix) == Some(("", host, DigitsOf(suffix)))
  {
    FirstAt(host, suffix);
    ScanHostPortOf(host, suffix);
    if 0 < at < |host| {
      BehindTheAt(host, at, suffix);
    }
  }

  /** What an '@' inside a host leaves behind it: a host again, or only the port. */
  lemma BehindTheAt(host: string, at: nat, suffix: string)
    requires ':' !in host && at < |host|
    requires IsSuffix(suffix)
    ensures ScanHostPort((host + suffix)[at + 1..])
            == if at == |host| - 1 then None
               else Some((host[at + 1..], DigitsOf(suffix)))
  {
    var rest := host[at + 1..];
    assert (host + suffix)[at + 1..] == rest + suffix;
    if rest == "" {
      assert rest + suffix == suffix;
      ColonFirst(suffix);
    } else {
      ScanHostPortOf(rest, suffix);
    }
  }

  /** A user, if any, then a host, then nothing or a port: the scan takes it apart again.
      Without a user that holds exactly when the host stands alone. */
  lemma ScanInvertsConcat(user: string, host: string, suffix: string)
    requires host != "" && ':' !in host && '@' !in user
    requires IsSuffix(suffix)
    ensures Scan(UserPart(user) + host + suffix) == Some((user, host, DigitsOf(suffix)))
            <==> (user == "" ==> StandsAlone(host))
  {
    if user != "" {
      ScanWithUser(user, host, suffix);
    } else {
      assert UserPart(user) + host == host;
      ScanWithoutUser(host, suffix);
    }
  }

  /** A port suffix holds no '@'. */
  lemma FirstAt(host: string, suffix: string)
    requires IsSuffix(suffix)
    ensures var at := IndexOf(host, '@');
      IndexOf(host + suffix, '@') == if at < |host| then at else |host + suffix|
  {
    var s := host + suffix;
    var at := IndexOf(host, '@');
    assert forall j :: 0 <= j < |host| ==> s[j] == host[j];
    forall j | |host| <= j < |s| ensures s[j] != '@' {
      assert s[j] == suffix[j - |host|];
      if j > |host| {
        assert IsDigit(suffix[1..][j - |host| - 1]);
      }
    }
    IndexOfIs(s, '@', if at < |host| then at else |s|);
  }

  /** Round trip: a printed spec is read back as the same user, host and port, for every user
      without '@', host without ':' and port in range; when the user is empty, exactly when
      the host stands alone. */
  lemma ParseInvertsPrintSpec(x: Spec)
    requires 1 <= x.port <= 65535 && x.host != "" && ':' !in x.host && '@' !in x.user
    ensures ParseTunnelSpec(PrintSpec(x)) == Ok(x) <==> Canonical(x)
  {
    var suffix := ":" + Itoa(x.port);
    PortSuffix(x.port);
    assert PrintSpec(x) == UserPart(x.user) + x.host + suffix;
    ParseUsesScan(PrintSpec(x));
    ScanInvertsConcat(x.user, x.host, suffix);
    if ParseTunnelSpec(PrintSpec(x)) == Ok(x) {
      ScannedDigits(PrintSpec(x), x, suffix);
    }
  }

  lemma PortSuffix(port: nat)
    requires port <= INT_MAX
    ensures var suffix := ":" + Itoa(port);
      IsSuffix(suffix) && suffix != "" && DigitsOf(suffix) == Itoa(port) && Itoa(port) != "" && Atoi(Itoa(port)) == Some(port)
  {
    ItoaValue(port);
    AtoiInvertsItoa(port);
    assert (":" + Itoa(port))[1..] == Itoa(port);
  }

  /** When the parse gives back user and host, the scan must have found these very groups. */
  lemma ScannedDigits(s: string, x: Spec, suffix: string)
    requires s == UserPart(x.user) + x.host + suffix && x.host != "" && ':' !in x.host && '@' !in x.user
    requires |suffix| > 1 && suffix[0] == ':' && AllDigits(suffix[1..])
    requires Scan(s).Some? && Scan(s).value.0 == x.user && Scan(s).value.1 == x.host
    ensures Scan(s) == Some((x.user, x.host, suffix[1..]))
  {
    ScanCovers(s);
    var (u, h, d) := Scan(s).value;
    var front := UserPart(x.user) + x.host;
    assert s == front + PortPart(d);
    assert s == front + suffix;
    assert s[|front|..] == suffix;
    assert s[|front|..] == PortPart(d);
    assert suffix[1..] == d;
  }

  function PortPart(digits: string): string { if digits == "" then "" else ":" + digits }

  /** The groups found make up the whole text, and each is of its kind. */
  lemma ScanCovers(s: string)
    ensures Scan(s).Some? ==>
      var (u, h, d) := Scan(s).value;
      && s == UserPart(u) + h + PortPart(d)
      && h != "" && ':' !in h && '@' !in u && AllDigits(d)
  {
    var at := IndexOf(s, '@');
    HostPortCovers(s);
    if 0 < at < |s| && ScanHostPort(s[at + 1..]).Some? {
      HostPortCovers(s[at + 1..]);
      var (h, d) := ScanHostPort(s[at + 1..]).value;
      SplitAt(s, at, h, PortPart(d));
    }
  }

  lemma SplitAt(s: string, at: nat, host: string, port: string)
    requires 0 < at < |s| && s[at] == '@' && s[at + 1..] == host + port
    ensures s == UserPart(s[..at]) + host + port
  {
    assert s == s[..at] + "@" + s[at + 1..];
  }

  lemma HostPortCovers(s: string)
    ensures ScanHostPort(s).Some? ==>
      var (h, d) := ScanHostPort(s).value;
      && s == h + PortPart(d)
      && h != "" && ':' !in h && AllDigits(d)
  {
    var colon := IndexOf(s, ':');
    if 0 < colon < |s| {
      assert s == s[..colon] + ":" + s[colon + 1..];
    }
  }

  /** Every accepted spec gives a canonical triple. */
  lemma ParsedIsCanonical(s: string)
    ensures ParseTunnelSpec(s).Ok? ==> Canonical(ParseTunnelSpec(s).value)
  {
    ParseUsesScan(s);
    ScanCovers(s);
    if ParseTunnelSpec(s).Ok? {
      var (u, h, d) := Scan(s).value;
      if u == "" {
        var suffix := PortPart(d);
        assert suffix != "" ==> suffix[1..] == d;
        assert s == UserPart("") + h + suffix;
        ScanInvertsConcat("", h, suffix);
      }
    }
  }

  /** Normalisation: printing what was parsed and parsing again changes nothing, whatever the text. */
  lemma ParseIsStable(s: string)
    ensures ParseTunnelSpec(s).Ok? ==>
      var x := ParseTunnelSpec(s).value; ParseTunnelSpec(PrintSpec(x)) == Ok(x)
  {
    ParsedIsCanonical(s);
    if ParseTunnelSpec(s).Ok? {
      ParseInvertsPrintSpec(ParseTunnelSpec(s).value);
    }
  }

  /** Leaving the port out means 22. */
  lemma PortDefaultsTo22(user: string, host: string)
    requires host != "" && ':' !in host && '@' !in user && (user == "" ==> StandsAlone(host))
    ensures ParseTunnelSpec(UserPart(user) + host) == Ok(Spec(user, host, 22))
  {
    var s := UserPart(user) + host;
    assert s == UserPart(user) + host + "";
    ParseUsesScan(s);
    ScanInvertsConcat(user, host, "");
  }

  lemma AloneIsHost(host: string, port: int)
    requires host != "" && ':' !in host && StandsAlone(host) && 1 <= port <= 65535
    ensures ParseTunnelSpec(host + ":" + Itoa(port)) == Ok(Spec("", host, port))
  {
    var x := Spec("", host, port);
    ParseInvertsPrintSpec(x);
    assert UserPart("") + host == host;
  }

  /** With nothing or only a port behind it, an '@' belongs to the host. */
  lemma TrailingAtIsHost(name: string, port: int)
    requires name != "" && '@' !in name && ':' !in name && 1 <= port <= 65535
    ensures ParseTunnelSpec(name + "@") == Ok(Spec("", name + "@", 22))
    ensures ParseTunnelSpec(name + "@" + ":" + Itoa(port)) == Ok(Spec("", name + "@", port))
  {
    var host := name + "@";
    assert StandsAlone(host) by { IndexOfIs(host, '@', |name|); }
    AloneIsHost(host, port);
    PortDefaultsTo22("", host);
    assert UserPart("") + host == host;
  }

  /** `s` has the form of a user, if any, a host and digits behind a colon, if any. */
  predicate Shaped(s: string, user: string, host: string, digits: string) {
    && s == UserPart(user) + host + PortPart(digits)
    && '@' !in user
    && host != "" && ':' !in host
    && AllDigits(digits)
  }

  /** The same with a port in range, if one is written. */
  predicate Reads(s: string, user: string, host: string, digits: string) {
    Shaped(s, user, host, digits) && (digits != "" ==> 1 <= Value(digits) <= 65535)
  }

  /** The accepted texts are exactly those with some such reading, however ambiguous. */
  lemma AcceptsExactlyReadableTexts(s: string)
    ensures ParseTunnelSpec(s).Ok? <==> exists user, host, digits :: Reads(s, user, host, digits)
  {
    ParseUsesScan(s);
    ScanCovers(s);
    if ParseTunnelSpec(s).Ok? {
      var (u, h, d) := Scan(s).value;
      if d != "" { AtoiOfDigits(d); }
      assert Reads(s, u, h, d);
    }
    forall user, host, digits | Reads(s, user, host, digits)
      ensures ParseTunnelSpec(s).Ok?
    {
      ReadableIsAccepted(s, user, host, digits);
    }
  }

  lemma ReadableIsAccepted(s: string, user: string, host: string, digits: string)
    requires Reads(s, user, host, digits)
    ensures ParseTunnelSpec(s).Ok?
  {
    ParseUsesScan(s);
    ScanReads(user, host, digits);
    ScanCovers(s);
    if digits != "" {
      AtoiOfDigits(digits);
    }
  }

  /** Whatever else the scan makes of such a text, it finds the same port. */
  lemma ScanReads(user: string, host: string, digits: string)
    requires '@' !in user && host != "" && ':' !in host && AllDigits(digits)
    ensures var g := Scan(UserPart(user) + host + PortPart(digits)); g.Some? && g.value.2 == digits
  {
    var suffix := PortPart(digits);
    assert suffix != "" ==> suffix[1..] == digits;
    if user != "" {
      ScanWithUser(user, host, suffix);
    } else {
      assert UserPart(user) + host == host;
      ScanWithoutUser(host, suffix);
    }
  }

  /** What is read, exactly: the one way to take the text apart in which a host without a user
      before it stands alone, with port 22 if none is written. */
  lemma ParsesExactly(s: string, x: Spec)
    ensures ParseTunnelSpec(s) == Ok(x) <==>
      exists digits: string ::
        && Reads(s, x.user, x.host, digits) && (x.user == "" ==> StandsAlone(x.host))
        && x.port == if digits == "" then 22 else Value(digits)
  {
    ParseUsesScan(s);
    if ParseTunnelSpec(s) == Ok(x) {
      ScanCovers(s);
      ParsedIsCanonical(s);
      var (u, h, d) := Scan(s).value;
      if d != "" { AtoiOfDigits(d); }
      assert Reads(s, x.user, x.host, d);
    }
    forall digits: string | && Reads(s, x.user, x.host, digits) && (x.user == "" ==> StandsAlone(x.host))
                            && x.port == if digits == "" then 22 else Value(digits)
      ensures ParseTunnelSpec(s) == Ok(x)
    {
      ReadingIsParsed(s, x, digits);
    }
  }

  lemma PortPartIsSuffix(digits: string)
    requires AllDigits(digits)
    ensures IsSuffix(PortPart(digits)) && DigitsOf(PortPart(digits)) == digits
  {
    assert digits != "" ==> (":" + digits)[1..] == digits;
  }

  lemma ReadingIsParsed(s: string, x: Spec, digits: string)
    requires Reads(s, x.user, x.host, digits) && (x.user == "" ==> StandsAlone(x.host))
    requires x.port == if digits == "" then 22 else Value(digits)
    ensures ParseTunnelSpec(s) == Ok(x)
  {
    ParseUsesScan(s);
    PortPartIsSuffix(digits);
    ScanInvertsConcat(x.user, x.host, PortPart(digits));
    if digits != "" { AtoiOfDigits(digits); }
  }

  /** Why a text is refused: it has not the form at all, or the port written, the same in every
      such reading, is out of range.  The third error, a missing host, never comes up. */
  lemma RefusesExactly(s: string, port: string)
    ensures ParseTunnelSpec(s) == Error(NoMatch) <==> !exists u: string, h: string, d: string :: Shaped(s, u, h, d)
    ensures ParseTunnelSpec(s) == Error(BadTunnelPort(port)) <==>
      && (exists u: string, h: string :: Shaped(s, u, h, port))
      && port != "" && !(1 <= Value(port) <= 65535)
    ensures ParseTunnelSpec(s) != Error(HostRequired)
  {
    ParseUsesScan(s);
    ScanCovers(s);
    forall u: string, h: string, d: string | Shaped(s, u, h, d)
      ensures Scan(s).Some? && Scan(s).value.2 == d
    {
      ScanReads(u, h, d);
    }
    if Scan(s).Some? {
      var (u, h, d) := Scan(s).value;
      assert Shaped(s, u, h, d);
      if d != "" { AtoiOfDigits(d); }
    }
  }
}
