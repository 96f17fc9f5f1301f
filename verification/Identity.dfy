/**
 The runtime identity of a CTFd process: the labels that mark its containers, the network prefix
 derived from its event id, the images it may launch, and the keys of its rate limiter.
 */
module Identity {
  import opened Options
  import opened Text

  type Labels = map<string, string>

  datatype RuntimeIdentity = RuntimeIdentity(event: string, release: string, target: string, network: string,
                                             imagePrefix: string, egress: string, bindIp: string)
  {
    function OwnLabels(): Labels {
      map["ctfd.event_id" := event, "ctfd.release_id" := release, "ctfd.target_id" := target,
          "ctfd.egress_policy" := egress, "ctfd.challenge_bind_ip" := bindIp]
    }

    /** The labels stamped on every container this process launches. */
    function LaunchLabels(challenge: string, scope: string, scopeId: string): Labels {
      map["ctfd.plugin" := "docker_per_team", "ctfd.challenge_id" := challenge,
          "ctfd.scope" := scope, "ctfd.scope_id" := scopeId] + OwnLabels()
    }

    /** Only the event and the target decide ownership, so a new release adopts old containers. */
    predicate Owns(labels: Labels) {
      && |labels| > 0
      && "ctfd.event_id" in labels && labels["ctfd.event_id"] == event
      && "ctfd.target_id" in labels && labels["ctfd.target_id"] == target
    }

    /** The label filter of the bulk listing. */
    predicate Lists(labels: Labels) {
      "ctfd.plugin" in labels && labels["ctfd.plugin"] == "docker_per_team" && Owns(labels)
    }

    predicate SameOwner(other: RuntimeIdentity) { event == other.event && target == other.target }
  }

  /** One process owns, and lists, another's launches exactly if they share event and target. */
  lemma OwnershipIsEventAndTarget(me: RuntimeIdentity, other: RuntimeIdentity,
                                  challenge: string, scope: string, scopeId: string)
    ensures me.Owns(other.LaunchLabels(challenge, scope, scopeId)) <==> me.SameOwner(other)
    ensures me.Lists(other.LaunchLabels(challenge, scope, scopeId)) <==> me.SameOwner(other)
  {
    var labels := other.LaunchLabels(challenge, scope, scopeId);
    assert "ctfd.plugin" in labels;
  }

  /** Labels count as the process's own exactly if they name its event and its target, whatever else they say. */
  lemma OwnsExactly(me: RuntimeIdentity, labels: Labels)
    ensures me.Owns(labels)
       <==> ("ctfd.event_id", me.event) in labels.Items && ("ctfd.target_id", me.target) in labels.Items
    ensures !me.Owns(map[])
  {
    if ("ctfd.event_id", me.event) in labels.Items {
      assert "ctfd.event_id" in labels && labels != map[];
    }
  }

  /** Launch labels name the plugin, the challenge and the account, besides the process. */
  lemma LaunchLabelsSay(id: RuntimeIdentity, challenge: string, scope: string, scopeId: string)
    ensures var labels := id.LaunchLabels(challenge, scope, scopeId);
      && ("ctfd.plugin", "docker_per_team") in labels.Items && ("ctfd.challenge_id", challenge) in labels.Items
      && ("ctfd.scope", scope) in labels.Items && ("ctfd.scope_id", scopeId) in labels.Items
      && ("ctfd.release_id", id.release) in labels.Items && ("ctfd.egress_policy", id.egress) in labels.Items
      && ("ctfd.challenge_bind_ip", id.bindIp) in labels.Items
  {
  }

  // ---- The network prefix of an event ----

  predicate Alnum(c: char) { 'a' <= c <= 'z' || '0' <= c <= '9' }

  /** The length of the alphanumeric run, or of the gap, that the text starts with. */
  function Run(s: string): (n: nat)
    ensures n <= |s|
  {
    if s != "" && Alnum(s[0]) then 1 + Run(s[1..]) else 0
  }

  function Gap(s: string): (n: nat)
    ensures n <= |s|
  {
    if s != "" && !Alnum(s[0]) then 1 + Gap(s[1..]) else 0
  }

  /** Replace every maximal gap by one underscore. */
  function Collapse(s: string): string
    decreases |s|
  {
    if s == "" then ""
    else if Alnum(s[0]) then [s[0]] + Collapse(s[1..])
    else "_" + Collapse(s[Gap(s)..])
  }

  function StripLeft(s: string): string {
    if s != "" && s[0] == '_' then StripLeft(s[1..]) else s
  }

  function StripRight(s: string): string {
    if s != "" && s[|s| - 1] == '_' then StripRight(s[..|s| - 1]) else s
  }

  function EventNetworkPrefix(event: string): string {
    StripRight(StripLeft(Collapse(event))) + "_"
  }

  /** The maximal alphanumeric runs of a text, in order. */
  function Runs(s: string): seq<string>
    decreases |s|
  {
    if s == "" then []
    else if Alnum(s[0]) then [s[..Run(s)]] + Runs(s[Run(s)..])
    else Runs(s[1..])
  }

  function Join(runs: seq<string>): string {
    if |runs| == 0 then "" else if |runs| == 1 then runs[0] else runs[0] + "_" + Join(runs[1..])
  }

  predicate IsRun(r: string) { r != "" && forall i :: 0 <= i < |r| ==> Alnum(r[i]) }

  lemma {:induction false} RunIsRun(s: string)
    ensures forall i :: 0 <= i < Run(s) ==> Alnum(s[i])
    ensures Run(s) < |s| ==> !Alnum(s[Run(s)])
  {
    if s != "" && Alnum(s[0]) {
      RunIsRun(s[1..]);
      forall i | 0 <= i < Run(s) ensures Alnum(s[i]) {
        if i > 0 { assert s[i] == s[1..][i - 1]; }
      }
    }
  }

  lemma {:induction false} RunsAreRuns(s: string)
    ensures forall r :: r in Runs(s) ==> IsRun(r)
    decreases |s|
  {
    if s != "" {
      if Alnum(s[0]) {
        RunIsRun(s);
        RunsAreRuns(s[Run(s)..]);
      } else {
        RunsAreRuns(s[1..]);
      }
    }
  }

  lemma {:induction false} SkipGap(s: string)
    ensures Runs(s) == Runs(s[Gap(s)..])
    ensures Gap(s) < |s| ==> Alnum(s[Gap(s)])
  {
    if s != "" && !Alnum(s[0]) {
      SkipGap(s[1..]);
      assert s[1..][Gap(s[1..])..] == s[Gap(s)..];
    }
  }

  lemma {:induction false} CollapseRun(s: string)
    ensures Collapse(s) == s[..Run(s)] + Collapse(s[Run(s)..])
  {
    if s != "" && Alnum(s[0]) {
      CollapseRun(s[1..]);
      assert s[1..][Run(s[1..])..] == s[Run(s)..];
      assert [s[0]] + s[1..][..Run(s[1..])] == s[..Run(s)];
    }
  }

  function Lead(s: string): string { if s != "" && !Alnum(s[0]) then "_" else "" }

  function Trail(s: string): string { if s != "" && !Alnum(s[|s| - 1]) then "_" else "" }

  ghost predicate JoinsRuns(s: string) {
    Collapse(s) == if Runs(s) == [] then Lead(s) else Lead(s) + Join(Runs(s)) + Trail(s)
  }

  lemma JoinCons(r: string, runs: seq<string>)
    ensures Join([r] + runs) == if runs == [] then r else r + "_" + Join(runs)
  {
    assert ([r] + runs)[1..] == runs;
  }

  lemma Reassociate(r: string, j: string, t: string)
    ensures r + ("_" + j + t) == (r + "_" + j) + t
  {
  }

  /** One more run in front of text whose collapse is known. */
  lemma JoinsInFront(s: string, r: string, rest: string)
    requires Collapse(s) == r + Collapse(rest) && Runs(s) == [r] + Runs(rest) && Lead(s) == ""
    requires JoinsRuns(rest) && Trail(rest) == Trail(s)
    requires Lead(rest) == if rest == "" then "" else "_"
    requires Runs(rest) == [] ==> Trail(rest) == Lead(rest)
    ensures JoinsRuns(s)
  {
    JoinCons(r, Runs(rest));
    assert Lead(s) + Join(Runs(s)) == Join(Runs(s));
    if Runs(rest) != [] {
      Reassociate(r, Join(Runs(rest)), Trail(rest));
      assert Collapse(rest) == "_" + Join(Runs(rest)) + Trail(rest);
    }
  }

  /** A gap in front of text whose collapse is known. */
  lemma GapInFront(s: string, rest: string)
    requires Collapse(s) == "_" + Collapse(rest) && Runs(s) == Runs(rest) && Lead(s) == "_"
    requires JoinsRuns(rest) && Lead(rest) == "" && (Runs(rest) != [] ==> Trail(rest) == Trail(s))
    ensures JoinsRuns(s)
  {
    if Runs(rest) != [] {
      assert Collapse(rest) == Join(Runs(rest)) + Trail(rest);
      assert "_" + (Join(Runs(rest)) + Trail(rest)) == "_" + Join(Runs(rest)) + Trail(rest);
    }
  }

  lemma AfterRun(s: string)
    requires s != "" && Alnum(s[0])
    ensures var rest := s[Run(s)..];
      && Lead(rest) == (if rest == "" then "" else "_") && Trail(rest) == Trail(s)
      && Runs(s) == [s[..Run(s)]] + Runs(rest)
  {
    RunIsRun(s);
  }

  lemma JoinsAfterRun(s: string)
    requires s != "" && Alnum(s[0]) && JoinsRuns(s[Run(s)..])
    ensures JoinsRuns(s)
  {
    var rest := s[Run(s)..];
    AfterRun(s);
    CollapseRun(s);
    assert Runs(rest) == [] ==> Trail(rest) == Lead(rest) by { if Runs(rest) == [] { NoRuns(rest); } }
    JoinsInFront(s, s[..Run(s)], rest);
  }

  lemma AfterGap(s: string)
    requires s != "" && !Alnum(s[0])
    ensures var rest := s[Gap(s)..];
      Lead(rest) == "" && Runs(s) == Runs(rest) && (rest != "" ==> Trail(rest) == Trail(s))
  {
    SkipGap(s);
  }

  lemma JoinsAfterGap(s: string)
    requires s != "" && !Alnum(s[0]) && JoinsRuns(s[Gap(s)..])
    ensures JoinsRuns(s)
  {
    AfterGap(s);
    GapInFront(s, s[Gap(s)..]);
  }

  /** Collapsing joins the runs by underscores, with at most one more at either end. */
  lemma {:induction false} CollapseJoins(s: string)
    ensures JoinsRuns(s)
    decreases |s|
  {
    if s != "" {
      if Alnum(s[0]) {
        CollapseJoins(s[Run(s)..]);
        JoinsAfterRun(s);
      } else {
        CollapseJoins(s[Gap(s)..]);
        JoinsAfterGap(s);
      }
    }
  }

  lemma {:induction false} NoRuns(s: string)
    requires Runs(s) == []
    ensures forall i :: 0 <= i < |s| ==> !Alnum(s[i])
  {
    if s != "" {
      NoRuns(s[1..]);
      forall i | 0 <= i < |s| ensures !Alnum(s[i]) {
        if i > 0 { assert s[i] == s[1..][i - 1]; }
      }
    }
  }

  lemma {:induction false} JoinEnds(runs: seq<string>)
    requires runs != [] && forall r :: r in runs ==> IsRun(r)
    ensures var j := Join(runs); j != "" && Alnum(j[0]) && Alnum(j[|j| - 1])
  {
    assert IsRun(runs[0]);
    if |runs| > 1 {
      JoinEnds(runs[1..]);
    }
  }

  lemma StripJoined(lead: string, j: string, trail: string)
    requires lead in {"", "_"} && trail in {"", "_"} && j != "" && Alnum(j[0]) && Alnum(j[|j| - 1])
    ensures StripRight(StripLeft(lead + j + trail)) == j
  {
    var s := lead + j + trail;
    assert lead == "_" ==> s[1..] == j + trail;
    assert StripLeft(j + trail) == j + trail;
    assert lead == "" ==> s == j + trail;
    assert trail == "_" ==> (j + trail)[..|j + trail| - 1] == j;
    assert trail == "" ==> j + trail == j;
    assert StripRight(j) == j;
  }

  /** The prefix is the runs of the event id joined by underscores, and a final underscore. */
  lemma PrefixJoinsRuns(event: string)
    ensures EventNetworkPrefix(event) == Join(Runs(event)) + "_"
  {
    CollapseJoins(event);
    RunsAreRuns(event);
    if Runs(event) != [] {
      JoinEnds(Runs(event));
      StripJoined(Lead(event), Join(Runs(event)), Trail(event));
    } else {
      assert StripLeft("_") == "";
    }
  }

  lemma {:induction false} RunThenGap(r: string, rest: string)
    requires forall i :: 0 <= i < |r| ==> Alnum(r[i])
    requires rest != "" && !Alnum(rest[0])
    ensures Run(r + rest) == |r|
  {
    if r == "" {
      assert r + rest == rest;
    } else {
      RunThenGap(r[1..], rest);
      assert (r + rest)[1..] == r[1..] + rest;
    }
  }

  lemma {:induction false} RunsOfJoin(runs: seq<string>)
    requires forall r :: r in runs ==> IsRun(r)
    ensures Runs(Join(runs) + "_") == runs
  {
    if runs == [] {
      assert Join(runs) + "_" == "_";
      assert Runs("_") == Runs("");
    } else {
      var r := runs[0];
      assert IsRun(r);
      var tail := if |runs| == 1 then "_" else "_" + (Join(runs[1..]) + "_");
      var s := Join(runs) + "_";
      assert s == r + tail;
      RunThenGap(r, tail);
      assert s[..|r|] == r && s[|r|..] == tail;
      assert tail[1..] == if |runs| == 1 then "" else Join(runs[1..]) + "_";
      if |runs| > 1 { RunsOfJoin(runs[1..]); }
      assert Runs(tail) == runs[1..];
    }
  }

  /** Two event ids have the same network prefix exactly if they have the same runs. */
  lemma PrefixDeterminesRuns(a: string, b: string)
    ensures EventNetworkPrefix(a) == EventNetworkPrefix(b) <==> Runs(a) == Runs(b)
  {
    PrefixJoinsRuns(a);
    PrefixJoinsRuns(b);
    RunsAreRuns(a);
    RunsAreRuns(b);
    RunsOfJoin(Runs(a));
    RunsOfJoin(Runs(b));
  }

  lemma PrefixIdempotent(event: string)
    ensures EventNetworkPrefix(EventNetworkPrefix(event)) == EventNetworkPrefix(event)
  {
    PrefixJoinsRuns(event);
    PrefixJoinsRuns(EventNetworkPrefix(event));
    RunsAreRuns(event);
    RunsOfJoin(Runs(event));
  }

  // ---- Images ----

  predicate Quote(c: char) { c == '"' || c == '\'' || c == '\\' }

  predicate Hex(c: char) { '0' <= c <= '9' || 'a' <= c <= 'f' }

  const DIGEST := "@sha256:"

  /** The reference ends in a sha256 digest. */
  predicate Pinned(image: string) {
    && |image| >= |DIGEST| + 64
    && image[|image| - 64 - |DIGEST|..|image| - 64] == DIGEST
    && forall i :: |image| - 64 <= i < |image| ==> Hex(image[i])
  }

  predicate Launchable(id: RuntimeIdentity, image: string) {
    && image != "" && !HasSpace(image)
    && !Quote(image[0]) && !Quote(image[|image| - 1])
    && id.imagePrefix <= image
    && (id.target == "production" ==> Pinned(image))
  }

  datatype ImageError = Missing | StrayQuoting | OutsidePrefix | NotPinned

  function ValidateImageReference(image: string, id: RuntimeIdentity): Result<string, ImageError> {
    var value := Trim(image);
    if value == "" || HasSpace(value) then Err(Missing)
    else if Quote(value[0]) || Quote(value[|value| - 1]) then Err(StrayQuoting)
    else if !(id.imagePrefix <= value) then Err(OutsidePrefix)
    else if id.target == "production" && !Pinned(value) then Err(NotPinned)
    else Ok(value)
  }

  /** A reference is accepted exactly if it trims to a launchable one, which is then accepted as it is. */
  lemma ImageAccepted(image: string, id: RuntimeIdentity)
    ensures ValidateImageReference(image, id).Ok? <==> Launchable(id, Trim(image))
    ensures var r := ValidateImageReference(image, id);
      r.Ok? ==> r.value == Trim(image) && ValidateImageReference(r.value, id) == r
  {
    TrimTrims(image);
    TrimTrims(Trim(image));
  }

  /** A reference is accepted exactly if, without outer whitespace, it looks like this. */
  lemma AcceptedLooksLike(image: string, id: RuntimeIdentity)
    ensures var value := Trim(image);
      ValidateImageReference(image, id).Ok? <==>
        && value != "" && (forall i :: 0 <= i < |value| ==> !IsSpace(value[i]))
        && value[0] !in {'"', '\'', '\\'} && value[|value| - 1] !in {'"', '\'', '\\'}
        && |id.imagePrefix| <= |value| && value[..|id.imagePrefix|] == id.imagePrefix
        && (id.target == "production" ==>
              exists name, digest :: value == name + "@sha256:" + digest && IsDigest(digest))
  {
    PinnedExactly(Trim(image));
  }

  lemma PinnedExactly(value: string)
    ensures Pinned(value) <==> exists name, digest :: value == name + "@sha256:" + digest && IsDigest(digest)
  {
    if Pinned(value) {
      var cut := |value| - 64;
      assert value == value[..cut - |DIGEST|] + "@sha256:" + value[cut..];
      assert IsDigest(value[cut..]);
    }
    if name, digest :| value == name + "@sha256:" + digest && IsDigest(digest) {
      DigestEnds(name, digest);
    }
  }

  lemma DigestEnds(name: string, digest: string)
    requires IsDigest(digest)
    ensures Pinned(name + "@sha256:" + digest)
  {
    var value := name + "@sha256:" + digest;
    assert value[|value| - 64 - |DIGEST|..|value| - 64] == DIGEST;
    forall i | |value| - 64 <= i < |value| ensures Hex(value[i]) {
      assert value[i] == digest[i - (|value| - 64)];
    }
  }

  predicate IsDigest(d: string) { |d| == 64 && forall i :: 0 <= i < 64 ==> d[i] in "0123456789abcdef" }

  // ---- Rate-limit keys ----

  function Digit(d: int): char
    requires 0 <= d < 10
  {
    ('0' as int + d) as char
  }

  predicate IsDigit(c: char) { '0' <= c <= '9' }

  function Decimal(n: nat): string {
    if n < 10 then [Digit(n)] else Decimal(n / 10) + [Digit(n % 10)]
  }

  function Value(s: string): int {
    if s == "" then 0 else Value(s[..|s| - 1]) * 10 + (s[|s| - 1] as int - '0' as int)
  }

  lemma {:induction false} DecimalRoundTrip(n: nat)
    ensures Value(Decimal(n)) == n && Decimal(n) != "" && forall i :: 0 <= i < |Decimal(n)| ==> IsDigit(Decimal(n)[i])
  {
    if n >= 10 {
      DecimalRoundTrip(n / 10);
      assert Decimal(n)[..|Decimal(n)| - 1] == Decimal(n / 10);
    }
  }

  const KEY_PREFIX := "docker-per-team:rate-v2:"

  datatype KeyError = NotPositive | NoEndpoint

  function AccountRateLimitKey(scopeId: int, isTeam: bool, endpoint: string): Result<string, KeyError> {
    if scopeId <= 0 then Err(NotPositive)
    else if Trim(endpoint) == "" then Err(NoEndpoint)
    else Ok(KEY_PREFIX + (if isTeam then "team:" else "user:") + Decimal(scopeId) + ":" + Trim(endpoint))
  }

  function DigitsOf(s: string): (n: nat)
    ensures n <= |s|
  {
    if s != "" && IsDigit(s[0]) then 1 + DigitsOf(s[1..]) else 0
  }

  /** Read a key back: the account kind, the account id and the endpoint. */
  function ParseKey(key: string): Option<(bool, int, string)> {
    var start := |KEY_PREFIX| + 5;
    if |key| < start then None
    else
      var n := DigitsOf(key[start..]);
      if |key| <= start + n then None
      else Some((key[|KEY_PREFIX|] == 't', Value(key[start..start + n]), key[start + n + 1..]))
  }

  lemma {:induction false} DigitsThenColon(digits: string, rest: string)
    requires forall i :: 0 <= i < |digits| ==> IsDigit(digits[i])
    requires rest != "" && !IsDigit(rest[0])
    ensures DigitsOf(digits + rest) == |digits|
  {
    if digits == "" {
      assert digits + rest == rest;
    } else {
      DigitsThenColon(digits[1..], rest);
      assert (digits + rest)[1..] == digits[1..] + rest;
    }
  }

  lemma KeyRoundTrip(scopeId: int, isTeam: bool, endpoint: string)
    requires AccountRateLimitKey(scopeId, isTeam, endpoint).Ok?
    ensures ParseKey(AccountRateLimitKey(scopeId, isTeam, endpoint).value) == Some((isTeam, scopeId, Trim(endpoint)))
  {
    var head := KEY_PREFIX + if isTeam then "team:" else "user:";
    var digits := Decimal(scopeId);
    var rest := ":" + Trim(endpoint);
    var key := AccountRateLimitKey(scopeId, isTeam, endpoint).value;
    DecimalRoundTrip(scopeId);
    DigitsThenColon(digits, rest);
    assert key == head + (digits + rest);
    assert key[|head|..] == digits + rest;
    assert key[|head|..|head| + |digits|] == digits;
    assert key[|head| + |digits| + 1..] == Trim(endpoint);
    assert key[|KEY_PREFIX|] == head[|KEY_PREFIX|];
  }

  /** Two requests share a counter exactly if they agree on account kind, id and trimmed endpoint. */
  lemma KeyInjective(id1: int, team1: bool, endpoint1: string, id2: int, team2: bool, endpoint2: string)
    requires AccountRateLimitKey(id1, team1, endpoint1).Ok? && AccountRateLimitKey(id2, team2, endpoint2).Ok?
    ensures AccountRateLimitKey(id1, team1, endpoint1) == AccountRateLimitKey(id2, team2, endpoint2)
       <==> id1 == id2 && team1 == team2 && Trim(endpoint1) == Trim(endpoint2)
  {
    KeyRoundTrip(id1, team1, endpoint1);
    KeyRoundTrip(id2, team2, endpoint2);
  }
}
