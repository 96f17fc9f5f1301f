/**
 Reading the runtime identity from the process environment.  The IP address parser is a
 parameter: it yields a version and the canonical spelling, or nothing.
 */
module Environment {
  import opened Options
  import opened Text
  import opened Identity
  import Networks

  /** The seven required variables, each possibly unset. */
  datatype Variables = Variables(event: Option<string>, release: Option<string>, target: Option<string>,
                                 network: Option<string>, imagePrefix: Option<string>, egress: Option<string>,
                                 bindIp: Option<string>)

  datatype Error = Unset | BadIdentifier | UnknownTarget | PlaceholderRelease | BadNetworkName | ForeignNetwork
                 | BadImagePrefix | UnknownEgress | UnprotectedEgress | NotAnAddress | NotVersion4

  type AddressParser = string -> Option<(nat, string)>

  predicate IdChar(c: char) { Alnum(c) || c == '.' || c == '_' || c == '-' }

  /** One to 64 lower-case identifier characters with alphanumeric ends. */
  predicate Identifier(s: string) {
    && 1 <= |s| <= 64 && Alnum(s[0]) && Alnum(s[|s| - 1])
    && forall i :: 0 <= i < |s| ==> IdChar(s[i])
  }

  predicate NetworkName(s: string) {
    && 1 <= |s| <= 128 && Alnum(LowerChar(s[0]))
    && forall i :: 0 <= i < |s| ==> IdChar(LowerChar(s[i]))
  }

  predicate RepositoryPrefix(s: string) {
    s != "" && !HasSpace(s) && !Quote(s[0]) && s[0] != '/' && s[|s| - 1] == '/'
  }

  const TARGETS: set<string> := {"local", "staging", "production"}
  const NON_RELEASES: set<string> := {"development", "dev", "latest", "local", "unreleased"}
  const ENFORCED := "worker-firewall-default-deny"

  /** The identities a process may run under. */
  predicate WellFormed(id: RuntimeIdentity) {
    && Identifier(id.event) && Identifier(id.release) && Identifier(id.target)
    && id.target in TARGETS
    && (id.target == "production" ==> id.release !in NON_RELEASES)
    && NetworkFor(id.network, id.event)
    && RepositoryPrefix(id.imagePrefix)
    && id.egress in {"not-enforced", ENFORCED}
    && (id.target != "local" ==> id.egress == ENFORCED)
  }

  function Required(v: Option<string>): string { if v.Some? then Trim(v.value) else "" }

  function FromEnvironment(parse: AddressParser, env: Variables): Result<RuntimeIdentity, Error> {
    var event, release, target := Required(env.event), Required(env.release), Required(env.target);
    var network, prefix := Required(env.network), Required(env.imagePrefix);
    var egress, ip := Required(env.egress), Required(env.bindIp);
    if "" in [event, release, target, network, prefix, egress, ip] then Err(Unset)
    else if !Identifier(event) || !Identifier(release) || !Identifier(target) then Err(BadIdentifier)
    else if target !in TARGETS then Err(UnknownTarget)
    else if target == "production" && release in NON_RELEASES then Err(PlaceholderRelease)
    else if !NetworkName(network) then Err(BadNetworkName)
    else if !(EventNetworkPrefix(event) <= Lower(network)) then Err(ForeignNetwork)
    else if !RepositoryPrefix(prefix) then Err(BadImagePrefix)
    else if egress !in {"not-enforced", ENFORCED} then Err(UnknownEgress)
    else if target in {"staging", "production"} && egress != ENFORCED then Err(UnprotectedEgress)
    else match parse(ip)
      case None => Err(NotAnAddress)
      case Some((version, canonical)) =>
        if version != 4 then Err(NotVersion4)
        else Ok(RuntimeIdentity(event, release, target, network, prefix, egress, canonical))
  }

  /** A bind address variable, as text without outer whitespace, that stands for a canonical IPv4 address. */
  predicate Resolves(parse: AddressParser, ip: string, canonical: string) {
    ip != "" && Trim(ip) == ip && parse(ip) == Some((4, canonical))
  }

  function Export(id: RuntimeIdentity, ip: string): Variables {
    Variables(Some(id.event), Some(id.release), Some(id.target), Some(id.network), Some(id.imagePrefix),
              Some(id.egress), Some(ip))
  }

  lemma IdentifierTrimmed(s: string)
    requires Identifier(s)
    ensures Trim(s) == s
  {
    TrimTrims(s);
  }

  lemma OthersTrimmed(id: RuntimeIdentity)
    requires WellFormed(id)
    ensures Trim(id.network) == id.network && Trim(id.imagePrefix) == id.imagePrefix && Trim(id.egress) == id.egress
  {
    TrimTrims(id.network);
    TrimTrims(id.egress);
    assert !IsSpace(id.imagePrefix[0]);
    TrimTrims(id.imagePrefix);
  }

  predicate Blank(v: Option<string>) { v.None? || Trim(v.value) == "" }

  /** An unset or blank variable is refused, whichever it is. */
  lemma UnsetRefused(parse: AddressParser, env: Variables)
    ensures FromEnvironment(parse, env) == Err(Unset) <==>
      || Blank(env.event) || Blank(env.release) || Blank(env.target) || Blank(env.network)
      || Blank(env.imagePrefix) || Blank(env.egress) || Blank(env.bindIp)
  {
    var all := [Required(env.event), Required(env.release), Required(env.target), Required(env.network),
                Required(env.imagePrefix), Required(env.egress), Required(env.bindIp)];
    assert "" in all <==> exists i :: 0 <= i < 7 && all[i] == "";
  }

  /** Each field of an accepted identity is its own variable, trimmed, and the address is the parsed one. */
  lemma FieldsAreVariables(parse: AddressParser, env: Variables)
    requires FromEnvironment(parse, env).Ok?
    ensures env.event.Some? && env.release.Some? && env.target.Some? && env.network.Some?
    ensures env.imagePrefix.Some? && env.egress.Some? && env.bindIp.Some?
    ensures var id := FromEnvironment(parse, env).value;
      && id.event == Trim(env.event.value) && id.release == Trim(env.release.value)
      && id.target == Trim(env.target.value) && id.network == Trim(env.network.value)
      && id.imagePrefix == Trim(env.imagePrefix.value) && id.egress == Trim(env.egress.value)
      && parse(Trim(env.bindIp.value)) == Some((4, id.bindIp))
  {
  }

  /** An identity can be read from some environment exactly if it is well formed and its address resolves. */
  lemma AcceptedExactly(parse: AddressParser, id: RuntimeIdentity)
    ensures (exists env :: FromEnvironment(parse, env) == Ok(id))
       <==> WellFormed(id) && exists ip :: Resolves(parse, ip, id.bindIp)
  {
    if env :| FromEnvironment(parse, env) == Ok(id) {
      AcceptedResolves(parse, env, id);
    }
    if WellFormed(id) {
      if ip :| Resolves(parse, ip, id.bindIp) {
        ExportAccepted(parse, id, ip);
      }
    }
  }

  lemma AcceptedResolves(parse: AddressParser, env: Variables, id: RuntimeIdentity)
    requires FromEnvironment(parse, env) == Ok(id)
    ensures WellFormed(id) && Resolves(parse, Required(env.bindIp), id.bindIp)
  {
    TrimTrims(if env.bindIp.Some? then env.bindIp.value else "");
    TrimTrims(Required(env.bindIp));
  }

  lemma ExportAccepted(parse: AddressParser, id: RuntimeIdentity, ip: string)
    requires WellFormed(id) && Resolves(parse, ip, id.bindIp)
    ensures FromEnvironment(parse, Export(id, ip)) == Ok(id)
  {
    IdentifierTrimmed(id.event);
    IdentifierTrimmed(id.release);
    IdentifierTrimmed(id.target);
    OthersTrimmed(id);
  }

  // ---- Which events can be given one network ----

  lemma {:induction false} JoinFits(s: string)
    ensures |Join(Runs(s))| <= |s|
    decreases |s|
  {
    if s != "" {
      if Alnum(s[0]) {
        var rest := s[Run(s)..];
        RunIsRun(s);
        if rest != "" {
          JoinFits(rest[1..]);
          JoinCons(s[..Run(s)], Runs(rest));
        }
      } else {
        JoinFits(s[1..]);
      }
    }
  }

  lemma {:induction false} JoinChars(runs: seq<string>)
    requires forall r :: r in runs ==> IsRun(r)
    ensures forall i :: 0 <= i < |Join(runs)| ==> Alnum(Join(runs)[i]) || Join(runs)[i] == '_'
  {
    if runs != [] {
      assert IsRun(runs[0]);
      JoinChars(runs[1..]);
    }
  }

  /** A network name that the guard accepts for the event. */
  predicate NetworkFor(network: string, event: string) {
    NetworkName(network) && EventNetworkPrefix(event) <= Lower(network)
  }

  /** An event's own prefix is such a name. */
  lemma OwnPrefixFits(event: string)
    requires Identifier(event)
    ensures NetworkFor(EventNetworkPrefix(event), event)
    ensures Lower(EventNetworkPrefix(event)) == EventNetworkPrefix(event)
  {
    PrefixJoinsRuns(event);
    RunsAreRuns(event);
    JoinFits(event);
    JoinChars(Runs(event));
    JoinEnds(Runs(event));
    var p := EventNetworkPrefix(event);
    forall i | 0 <= i < |p| ensures IdChar(p[i]) && LowerChar(p[i]) == p[i] {
      assert i < |Join(Runs(event))| ==> p[i] == Join(Runs(event))[i];
    }
  }

  lemma SpelledCons(runs: seq<string>)
    requires runs != []
    ensures Join(runs) + "_" == runs[0] + ("_" + if |runs| == 1 then "" else Join(runs[1..]) + "_")
  {
  }

  /** Joined runs extend each other exactly as the sequences of runs do. */
  lemma {:induction false} JoinNests(a: seq<string>, b: seq<string>)
    requires a != [] && b != [] && forall r :: r in a + b ==> IsRun(r)
    ensures Join(a) + "_" <= Join(b) + "_" <==> a <= b
  {
    var restA, restB := if |a| == 1 then "" else Join(a[1..]) + "_", if |b| == 1 then "" else Join(b[1..]) + "_";
    SpelledCons(a);
    SpelledCons(b);
    assert a[0] in a + b && b[0] in a + b;
    HeadsNest(a[0], restA, b[0], restB);
    assert a == [a[0]] + a[1..] && b == [b[0]] + b[1..];
    if |a| > 1 && |b| > 1 {
      assert forall r :: r in a[1..] + b[1..] ==> r in a + b;
      JoinNests(a[1..], b[1..]);
    }
  }

  /** Two texts that start with a run and an underscore nest exactly if the runs agree and the rests nest. */
  lemma HeadsNest(a: string, restA: string, b: string, restB: string)
    requires IsRun(a) && IsRun(b)
    ensures a + ("_" + restA) <= b + ("_" + restB) <==> a == b && restA <= restB
  {
    if a + ("_" + restA) <= b + ("_" + restB) {
      SameFirstRun(a, restA, b, restB);
    }
    if a == b {
      assert a + ("_" + restA) == (a + "_") + restA && b + ("_" + restB) == (a + "_") + restB;
      Cancel(a + "_", restA, restB);
    }
  }

  lemma Cancel(head: string, a: string, b: string)
    ensures head + a <= head + b <==> a <= b
  {
    assert (head + a)[|head|..] == a && (head + b)[|head|..] == b;
    if head + a <= head + b {
      assert a == (head + b)[|head|..|head| + |a|];
    }
  }

  lemma SameFirstRun(a: string, restA: string, b: string, restB: string)
    requires IsRun(a) && IsRun(b) && a + ("_" + restA) <= b + ("_" + restB)
    ensures a == b
  {
    var s, t := a + ("_" + restA), b + ("_" + restB);
    assert t[..|s|] == s;
    assert s[|a|] == '_' && t[|a|] == '_' && t[|b|] == '_';
    assert |a| == |b|;
    assert s[..|a|] == a && t[..|a|] == b;
  }

  lemma PrefixesNest(a: string, b: string)
    requires Identifier(a) && Identifier(b)
    ensures EventNetworkPrefix(a) <= EventNetworkPrefix(b) <==> Runs(a) <= Runs(b)
  {
    PrefixJoinsRuns(a);
    PrefixJoinsRuns(b);
    RunsAreRuns(a);
    RunsAreRuns(b);
    JoinNests(Runs(a), Runs(b));
  }

  /**
   Some network name passes the guard for both events exactly if the runs of one event id begin
   with those of the other.  For such pairs the name does not tell the events apart.
   */
  lemma SharedNetworkExactly(a: string, b: string)
    requires Identifier(a) && Identifier(b)
    ensures (exists n :: NetworkFor(n, a) && NetworkFor(n, b)) <==> Runs(a) <= Runs(b) || Runs(b) <= Runs(a)
  {
    var p, q := EventNetworkPrefix(a), EventNetworkPrefix(b);
    PrefixesNest(a, b);
    PrefixesNest(b, a);
    OwnPrefixFits(a);
    OwnPrefixFits(b);
    if n :| NetworkFor(n, a) && NetworkFor(n, b) {
      assert p == Lower(n)[..|p|] && q == Lower(n)[..|q|];
      assert if |p| <= |q| then p == q[..|p|] else q == p[..|q|];
    }
    if p <= q {
      assert NetworkFor(q, a) && NetworkFor(q, b);
    }
    if q <= p {
      assert NetworkFor(p, a) && NetworkFor(p, b);
    }
  }

  lemma {:induction false} WholeRun(r: string)
    requires IsRun(r)
    ensures Run(r) == |r| && Runs(r) == [r]
  {
    if |r| > 1 {
      WholeRun(r[1..]);
    }
    assert r[..|r|] == r && r[|r|..] == "";
  }

  lemma TwoRuns(a: string, b: string)
    requires IsRun(a) && IsRun(b)
    ensures Runs(a + ("-" + b)) == [a, b]
  {
    var s, rest := a + ("-" + b), "-" + b;
    RunThenGap(a, rest);
    assert s[..|a|] == a && s[|a|..] == rest && rest[1..] == b;
    WholeRun(b);
  }

  lemma PairOfIdentifiers()
    ensures Identifier("ctf") && Identifier("ctf-finals")
  {
  }

  lemma PairOfRuns()
    ensures Runs("ctf") == ["ctf"] && Runs("ctf-finals") == ["ctf", "finals"]
  {
    WholeRun("ctf");
    TwoRuns("ctf", "finals");
    assert "ctf" + ("-" + "finals") == "ctf-finals";
  }

  /**
   "ctf" and "ctf-finals" is such a pair.  The guard accepts one name for both, but the event label
   decides before every launch: no network serves processes of the two events.
   */
  lemma NameGuardIsNotEnough(a: RuntimeIdentity, b: RuntimeIdentity)
    requires a.event == "ctf" && b.event == "ctf-finals"
    ensures exists n :: NetworkFor(n, a.event) && NetworkFor(n, b.event)
    ensures !exists n :: Networks.Refusal(n, a).None? && Networks.Refusal(n, b).None?
  {
    PairOfIdentifiers();
    assert Runs(a.event) <= Runs(b.event) by { PairOfRuns(); }
    SharedNetworkExactly(a.event, b.event);
    assert |a.event| != |b.event|;
    DifferentEvents(a, b);
  }

  lemma DifferentEvents(a: RuntimeIdentity, b: RuntimeIdentity)
    requires a.event != b.event
    ensures !exists n :: Networks.Refusal(n, a).None? && Networks.Refusal(n, b).None?
  {
    Networks.LaunchNetworkShared(a, b);
  }
}
