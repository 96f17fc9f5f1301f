/**
 The settings: what the admin form accepts, what the launcher makes of it, and how defaults are
 seeded.  Python's `int` and `float` are parameters, so every statement holds for any parser.
 */
module Settings {
  import opened Options
  import opened Text
  import Identity

  datatype Float = NaN | Infinite(positive: bool) | Finite(value: real)

  datatype Parsers = Parsers(toInt: string -> Option<int>, toFloat: string -> Option<Float>)

  /** The keys of the settings table. */
  datatype Key =
    | DockerBaseUrl | DockerHostname | DockerApiTimeout | ChallengeNetwork | ContainerExpiration
    | ContainerMaxMemory | ContainerMaxCpu | ContainerPidsLimit | ContainerTmpfsSizeMb
    | ContainerLogMaxSize | ContainerLogMaxFiles | ContainerStartTimeoutSeconds | MaxContainers
    | AllowChallengeVolumes | AllowedCapabilities

  type Form = map<Key, string>

  datatype Error = Required(field: Key) | NotInteger(field: Key) | NotNumber(field: Key)
                 | NotAboveZero(field: Key) | BadSize(field: Key) | BadSwitch(field: Key)

  const FIELDS: seq<Key> := [
    DockerBaseUrl, DockerHostname, DockerApiTimeout, ChallengeNetwork, ContainerExpiration,
    ContainerMaxMemory, ContainerMaxCpu, ContainerPidsLimit, ContainerTmpfsSizeMb,
    ContainerLogMaxSize, ContainerLogMaxFiles, ContainerStartTimeoutSeconds, MaxContainers,
    AllowChallengeVolumes, AllowedCapabilities]

  const REQUIRED: seq<Key> := [
    DockerBaseUrl, DockerApiTimeout, ChallengeNetwork, ContainerExpiration, ContainerMaxMemory,
    ContainerMaxCpu, ContainerPidsLimit, ContainerTmpfsSizeMb, ContainerLogMaxSize,
    ContainerLogMaxFiles, ContainerStartTimeoutSeconds, MaxContainers]

  const INTEGERS: seq<Key> := [
    ContainerExpiration, ContainerMaxMemory, ContainerPidsLimit, ContainerTmpfsSizeMb,
    ContainerLogMaxFiles, ContainerStartTimeoutSeconds, MaxContainers, DockerApiTimeout]

  predicate IsRequired(k: Key) {
    !k.DockerHostname? && !k.AllowChallengeVolumes? && !k.AllowedCapabilities?
  }

  predicate IsInteger(k: Key) {
    || k.ContainerExpiration? || k.ContainerMaxMemory? || k.ContainerPidsLimit? || k.ContainerTmpfsSizeMb?
    || k.ContainerLogMaxFiles? || k.ContainerStartTimeoutSeconds? || k.MaxContainers? || k.DockerApiTimeout?
  }

  lemma FieldsAreAll(k: Key)
    ensures k in FIELDS
  {
    match k
    case DockerBaseUrl => assert FIELDS[0] == k;
    case DockerHostname => assert FIELDS[1] == k;
    case DockerApiTimeout => assert FIELDS[2] == k;
    case ChallengeNetwork => assert FIELDS[3] == k;
    case ContainerExpiration => assert FIELDS[4] == k;
    case ContainerMaxMemory => assert FIELDS[5] == k;
    case ContainerMaxCpu => assert FIELDS[6] == k;
    case ContainerPidsLimit => assert FIELDS[7] == k;
    case ContainerTmpfsSizeMb => assert FIELDS[8] == k;
    case ContainerLogMaxSize => assert FIELDS[9] == k;
    case ContainerLogMaxFiles => assert FIELDS[10] == k;
    case ContainerStartTimeoutSeconds => assert FIELDS[11] == k;
    case MaxContainers => assert FIELDS[12] == k;
    case AllowChallengeVolumes => assert FIELDS[13] == k;
    case AllowedCapabilities => assert FIELDS[14] == k;
  }

  lemma RequiredList(k: Key)
    ensures k in REQUIRED <==> IsRequired(k)
  {
  }

  lemma IntegerList(k: Key)
    ensures k in INTEGERS <==> IsInteger(k)
  {
  }

  // ---- What the form validator accepts ----

  /** The submitted value of a field, else the current one, without outer whitespace. */
  function Field(form: Form, defaults: Form, field: Key): string {
    Trim(if field in form then form[field] else if field in defaults then defaults[field] else "")
  }

  predicate PositiveInteger(p: Parsers, s: string) { p.toInt(s).Some? && p.toInt(s).value > 0 }

  /** The form's CPU test, `float(x) <= 0` rejected: NaN and positive infinity pass it. */
  predicate CpuPasses(p: Parsers, s: string) {
    match p.toFloat(s)
    case None => false
    case Some(NaN) => true
    case Some(Infinite(positive)) => positive
    case Some(Finite(v)) => v > 0.0
  }

  predicate Size(s: string, units: set<char>) {
    && |s| >= 2 && '1' <= s[0] <= '9' && s[|s| - 1] in units
    && forall i :: 1 <= i < |s| - 1 ==> '0' <= s[i] <= '9'
  }

  lemma {:induction false} DecimalLeads(n: nat)
    requires n > 0
    ensures Identity.Decimal(n) != "" && Identity.Decimal(n)[0] != '0'
  {
    if n >= 10 {
      DecimalLeads(n / 10);
    }
  }

  lemma {:induction false} DigitsAreDecimal(s: string)
    requires s != "" && s[0] != '0' && forall i :: 0 <= i < |s| ==> Identity.IsDigit(s[i])
    ensures Identity.Value(s) > 0 && Identity.Decimal(Identity.Value(s)) == s
  {
    var most, last := s[..|s| - 1], s[|s| - 1] as int - '0' as int;
    assert Identity.Value(s) == Identity.Value(most) * 10 + last;
    assert s == most + [s[|s| - 1]] && Identity.Digit(last) == s[|s| - 1];
    if most != "" {
      DigitsAreDecimal(most);
    }
  }

  /** A size is a positive decimal number, without leading zeros, and a unit. */
  lemma SizeIsNumberAndUnit(s: string, units: set<char>)
    ensures Size(s, units) <==> exists n: nat, u :: n > 0 && u in units && s == Identity.Decimal(n) + [u]
  {
    if Size(s, units) {
      var digits := s[..|s| - 1];
      DigitsAreDecimal(digits);
      assert s == Identity.Decimal(Identity.Value(digits)) + [s[|s| - 1]];
    }
    if n: nat, u :| n > 0 && u in units && s == Identity.Decimal(n) + [u] {
      DecimalLeads(n);
      Identity.DecimalRoundTrip(n);
    }
  }

  const ANY_CASE: set<char> := {'k', 'K', 'm', 'M', 'g', 'G'}
  const LOWER_CASE: set<char> := {'k', 'm', 'g'}

  ghost predicate Acceptable(p: Parsers, payload: Form) {
    && (forall f: Key :: f in payload)
    && (forall f :: IsRequired(f) ==> payload[f] != "")
    && (forall f :: IsInteger(f) ==> PositiveInteger(p, payload[f]))
    && CpuPasses(p, payload[ContainerMaxCpu])
    && Size(payload[ContainerLogMaxSize], ANY_CASE)
    && payload[AllowChallengeVolumes] in {"disabled", "enabled"}
  }

  /** The error names a field that really fails the check it reports. */
  predicate Blames(p: Parsers, payload: Form, e: Error) {
    && e.field in payload
    && var v := payload[e.field];
       match e
       case Required(f) => IsRequired(f) && v == ""
       case NotInteger(f) => IsInteger(f) && p.toInt(v).None?
       case NotNumber(f) => f == ContainerMaxCpu && p.toFloat(v).None?
       case NotAboveZero(f) =>
         || (IsInteger(f) && p.toInt(v).Some? && p.toInt(v).value <= 0)
         || (f == ContainerMaxCpu && p.toFloat(v).Some? && !CpuPasses(p, v))
       case BadSize(f) => f == ContainerLogMaxSize && !Size(v, ANY_CASE)
       case BadSwitch(f) => f == AllowChallengeVolumes && v !in {"disabled", "enabled"}
  }

  function Payload(form: Form, defaults: Form): Form { map f: Key | true :: Field(form, defaults, f) }

  /** The payload dictionary: one trimmed entry per listed field. */
  method ReadFields(form: Form, defaults: Form, fields: seq<Key>) returns (payload: Form)
    ensures payload == map f | f in fields :: Field(form, defaults, f)
  {
    payload := map[];
    for i := 0 to |fields|
      invariant payload == map f | f in fields[..i] :: Field(form, defaults, f)
    {
      payload := payload[fields[i] := Field(form, defaults, fields[i])];
    }
  }

  method CheckPresent(payload: Form, fields: seq<Key>) returns (missing: Option<Key>)
    requires forall f :: f in fields ==> f in payload
    ensures missing.None? <==> forall f :: f in fields ==> payload[f] != ""
    ensures missing.Some? ==> missing.value in fields && payload[missing.value] == ""
  {
    for i := 0 to |fields|
      invariant forall f :: f in fields[..i] ==> payload[f] != ""
    {
      if payload[fields[i]] == "" {
        return Some(fields[i]);
      }
    }
    missing := None;
  }

  /** Empty values never get here: every integer field is a required one. */
  method CheckIntegers(p: Parsers, payload: Form, fields: seq<Key>) returns (failure: Option<Error>)
    requires forall f :: f in fields ==> f in payload && payload[f] != ""
    ensures failure.None? <==> forall f :: f in fields ==> PositiveInteger(p, payload[f])
    ensures failure.Some? ==>
      && failure.value.field in fields
      && var parsed := p.toInt(payload[failure.value.field]);
         && failure.value == (if parsed.None? then NotInteger(failure.value.field)
                              else NotAboveZero(failure.value.field))
         && (parsed.Some? ==> parsed.value <= 0)
  {
    for i := 0 to |fields|
      invariant forall f :: f in fields[..i] ==> PositiveInteger(p, payload[f])
    {
      var parsed := p.toInt(payload[fields[i]]);
      if parsed.None? {
        return Some(NotInteger(fields[i]));
      }
      if parsed.value <= 0 {
        return Some(NotAboveZero(fields[i]));
      }
    }
    failure := None;
  }

  /** The checks of single fields: the CPU limit, the log size and the volume switch. */
  method CheckOthers(p: Parsers, payload: Form) returns (failure: Option<Error>)
    requires ContainerMaxCpu in payload && ContainerLogMaxSize in payload && AllowChallengeVolumes in payload
    ensures failure.None? <==>
      && CpuPasses(p, payload[ContainerMaxCpu])
      && Size(payload[ContainerLogMaxSize], ANY_CASE)
      && payload[AllowChallengeVolumes] in {"disabled", "enabled"}
    ensures failure.Some? ==> Blames(p, payload, failure.value)
  {
    var cpu := p.toFloat(payload[ContainerMaxCpu]);
    if cpu.None? {
      return Some(NotNumber(ContainerMaxCpu));
    }
    if !CpuPasses(p, payload[ContainerMaxCpu]) {
      return Some(NotAboveZero(ContainerMaxCpu));
    }
    if !Size(payload[ContainerLogMaxSize], ANY_CASE) {
      return Some(BadSize(ContainerLogMaxSize));
    }
    if payload[AllowChallengeVolumes] !in {"disabled", "enabled"} {
      return Some(BadSwitch(AllowChallengeVolumes));
    }
    failure := None;
  }

  method CheckPayload(p: Parsers, payload: Form, required: seq<Key>, integers: seq<Key>)
    returns (failure: Option<Error>)
    requires forall k: Key :: k in payload
    requires forall k :: k in required <==> IsRequired(k)
    requires forall k :: k in integers <==> IsInteger(k)
    ensures failure.None? <==> Acceptable(p, payload)
    ensures failure.Some? ==> Blames(p, payload, failure.value)
  {
    var missing := CheckPresent(payload, required);
    if missing.Some? {
      assert IsRequired(missing.value);
      return Some(Required(missing.value));
    }
    failure := CheckIntegers(p, payload, integers);
    if failure.Some? {
      assert IsInteger(failure.value.field);
      return;
    }
    failure := CheckOthers(p, payload);
  }

  /** What an acceptable payload holds, field by field. */
  lemma AcceptableHolds(p: Parsers, payload: Form)
    requires Acceptable(p, payload)
    ensures forall f: Key :: f !in {DockerHostname, AllowChallengeVolumes, AllowedCapabilities} ==> payload[f] != ""
    ensures forall f :: f in {ContainerExpiration, ContainerMaxMemory, ContainerPidsLimit, ContainerTmpfsSizeMb,
                              ContainerLogMaxFiles, ContainerStartTimeoutSeconds, MaxContainers, DockerApiTimeout} ==>
              p.toInt(payload[f]).Some? && p.toInt(payload[f]).value > 0
    ensures p.toFloat(payload[ContainerMaxCpu]).Some?
    ensures match p.toFloat(payload[ContainerMaxCpu]).value
            case Finite(v) => v > 0.0
            case Infinite(positive) => positive
            case NaN => true
    ensures payload[AllowChallengeVolumes] == "disabled" || payload[AllowChallengeVolumes] == "enabled"
    ensures exists n: nat, u :: n > 0 && u in ANY_CASE && payload[ContainerLogMaxSize] == Identity.Decimal(n) + [u]
  {
    SizeIsNumberAndUnit(payload[ContainerLogMaxSize], ANY_CASE);
    forall f: Key | f !in {DockerHostname, AllowChallengeVolumes, AllowedCapabilities} ensures payload[f] != "" {
      assert IsRequired(f);
    }
  }

  /** A refused CPU limit is no number, or one that is zero, negative or minus infinity. */
  lemma CpuRefused(p: Parsers, s: string)
    ensures !CpuPasses(p, s) <==>
      || p.toFloat(s).None? || p.toFloat(s) == Some(Infinite(false))
      || (p.toFloat(s).value.Finite? && p.toFloat(s).value.value <= 0.0)
  {
  }

  /** The trimmed form is accepted exactly if it is acceptable, and an error blames a field at fault. */
  method NormalizeSettingsPayload(p: Parsers, form: Form, defaults: Form) returns (r: Result<Form, Error>)
    ensures var payload := Payload(form, defaults);
      if Acceptable(p, payload) then r == Ok(payload) else r.Err? && Blames(p, payload, r.error)
    ensures r.Ok? ==> forall f: Key ::
      && f in r.value
      && (f in form ==> r.value[f] == Trim(form[f]))
      && (f !in form && f in defaults ==> r.value[f] == Trim(defaults[f]))
      && (f !in form && f !in defaults ==> r.value[f] == "")
  {
    forall k: Key ensures k in FIELDS { FieldsAreAll(k); }
    forall k: Key ensures k in REQUIRED <==> IsRequired(k) { RequiredList(k); }
    forall k: Key ensures k in INTEGERS <==> IsInteger(k) { IntegerList(k); }
    var payload := ReadFields(form, defaults, FIELDS);
    assert payload == Payload(form, defaults);
    var failure := CheckPayload(p, payload, REQUIRED, INTEGERS);
    r := if failure.Some? then Err(failure.value) else Ok(payload);
  }

  // ---- What the launcher builds ----

  /** The limits every challenge container gets; the constant controls are left implicit. */
  datatype Profile = Profile(memoryMb: int, cpuQuota: int, pids: int, tmpfsMb: int, logSize: string, logFiles: int)

  function PositiveInt(p: Parsers, settings: Form, key: Key, default: int): Result<int, Error> {
    if key !in settings then Ok(default)
    else match p.toInt(settings[key])
      case None => Err(NotInteger(key))
      case Some(n) => if n <= 0 then Err(NotAboveZero(key)) else Ok(n)
  }

  function PositiveFloat(p: Parsers, settings: Form, key: Key, default: real): Result<real, Error> {
    if key !in settings then Ok(default)
    else match p.toFloat(settings[key])
      case None => Err(NotNumber(key))
      case Some(Finite(v)) => if v <= 0.0 then Err(NotAboveZero(key)) else Ok(v)
      case Some(_) => Err(NotAboveZero(key))
  }

  /** `int` truncates towards zero. */
  function Truncate(r: real): int { if r >= 0.0 then r.Floor else -((-r).Floor) }

  function BuildHardeningProfile(p: Parsers, settings: Form): Result<Profile, Error> {
    var memory := PositiveInt(p, settings, ContainerMaxMemory, 1024);
    var cpu := PositiveFloat(p, settings, ContainerMaxCpu, 1.0);
    var pids := PositiveInt(p, settings, ContainerPidsLimit, 512);
    var tmpfs := PositiveInt(p, settings, ContainerTmpfsSizeMb, 256);
    var files := PositiveInt(p, settings, ContainerLogMaxFiles, 3);
    var key := ContainerLogMaxSize;
    var size := Lower(Trim(if key in settings then settings[key] else "10m"));
    if memory.Err? then Err(memory.error)
    else if cpu.Err? then Err(cpu.error)
    else if pids.Err? then Err(pids.error)
    else if tmpfs.Err? then Err(tmpfs.error)
    else if files.Err? then Err(files.error)
    else if !Size(size, LOWER_CASE) then Err(BadSize(key))
    else Ok(Profile(memory.value, Truncate(cpu.value * 100000.0), pids.value, tmpfs.value, size, files.value))
  }

  /** Whatever settings it is given, a profile that builds has every limit switched on. */
  lemma ProfileEnforcesLimits(p: Parsers, settings: Form)
    requires BuildHardeningProfile(p, settings).Ok?
    ensures var limits := BuildHardeningProfile(p, settings).value;
      limits.memoryMb > 0 && limits.pids > 0 && limits.tmpfsMb > 0 && limits.logFiles > 0
      && limits.cpuQuota >= 0 && Size(limits.logSize, LOWER_CASE)
  {
  }

  /** A number that follows its setting, and the documented default where there is none. */
  predicate FollowsInt(p: Parsers, settings: Form, key: Key, default: int, limit: int) {
    if key in settings then p.toInt(settings[key]) == Some(limit) else limit == default
  }

  /** Every limit of a profile is what its own setting parses to, or the documented default. */
  lemma ProfileFollowsSettings(p: Parsers, settings: Form)
    requires BuildHardeningProfile(p, settings).Ok?
    ensures var limits := BuildHardeningProfile(p, settings).value;
      && FollowsInt(p, settings, ContainerMaxMemory, 1024, limits.memoryMb)
      && FollowsInt(p, settings, ContainerPidsLimit, 512, limits.pids)
      && FollowsInt(p, settings, ContainerTmpfsSizeMb, 256, limits.tmpfsMb)
      && FollowsInt(p, settings, ContainerLogMaxFiles, 3, limits.logFiles)
      && limits.logSize == (if ContainerLogMaxSize in settings then Lower(Trim(settings[ContainerLogMaxSize]))
                            else "10m")
      && if ContainerMaxCpu in settings then
           && p.toFloat(settings[ContainerMaxCpu]).Some? && p.toFloat(settings[ContainerMaxCpu]).value.Finite?
           && var cpu := p.toFloat(settings[ContainerMaxCpu]).value.value;
              limits.cpuQuota as real <= 100000.0 * cpu < limits.cpuQuota as real + 1.0
         else limits.cpuQuota == 100000
  {
    assert Trim("10m") == "10m" by { TrimTrims("10m"); }
    assert Lower("10m") == "10m";
  }

  lemma SizeLowers(s: string)
    requires Size(s, ANY_CASE)
    ensures Size(Lower(s), LOWER_CASE)
  {
  }

  lemma AcceptableBuilds(p: Parsers, payload: Form)
    requires Acceptable(p, payload) && Trim(payload[ContainerLogMaxSize]) == payload[ContainerLogMaxSize]
    ensures BuildHardeningProfile(p, payload).Ok? <==> p.toFloat(payload[ContainerMaxCpu]).value.Finite?
    ensures var cpu := p.toFloat(payload[ContainerMaxCpu]).value; var profile := BuildHardeningProfile(p, payload);
      profile.Ok? ==> profile.value.cpuQuota as real <= 100000.0 * cpu.value < profile.value.cpuQuota as real + 1.0
    ensures PositiveInt(p, payload, ContainerStartTimeoutSeconds, 60).Ok?
    ensures PositiveInt(p, payload, ContainerExpiration, 0).Ok? && PositiveInt(p, payload, MaxContainers, 3).Ok?
  {
    SizeLowers(payload[ContainerLogMaxSize]);
  }

  /**
   The two validators agree on everything but the CPU limit's finiteness: a payload the form
   accepts makes the profile build exactly if its CPU limit is a finite number, and then the
   quota is that limit in units of 1/100000, rounded down.
   */
  lemma {:induction false} AcceptedPayloadBuilds(p: Parsers, form: Form, defaults: Form)
    requires Acceptable(p, Payload(form, defaults))
    ensures var payload := Payload(form, defaults); var profile := BuildHardeningProfile(p, payload);
      profile.Ok? ==>
        && p.toInt(payload[ContainerMaxMemory]) == Some(profile.value.memoryMb)
        && p.toInt(payload[ContainerPidsLimit]) == Some(profile.value.pids)
        && p.toInt(payload[ContainerTmpfsSizeMb]) == Some(profile.value.tmpfsMb)
        && p.toInt(payload[ContainerLogMaxFiles]) == Some(profile.value.logFiles)
        && profile.value.logSize == Lower(payload[ContainerLogMaxSize])
    ensures var payload := Payload(form, defaults);
      var cpu := p.toFloat(payload[ContainerMaxCpu]).value; var profile := BuildHardeningProfile(p, payload);
      && (profile.Ok? <==> cpu.Finite?)
      && (profile.Ok? ==> profile.value.cpuQuota as real <= 100000.0 * cpu.value < profile.value.cpuQuota as real + 1.0)
      && PositiveInt(p, payload, ContainerStartTimeoutSeconds, 60).Ok?
      && PositiveInt(p, payload, ContainerExpiration, 0).Ok?
      && PositiveInt(p, payload, MaxContainers, 3).Ok?
  {
    var size := if ContainerLogMaxSize in form then form[ContainerLogMaxSize]
                else if ContainerLogMaxSize in defaults then defaults[ContainerLogMaxSize] else "";
    TrimTrims(size);
    TrimTrims(Trim(size));
    AcceptableBuilds(p, Payload(form, defaults));
    if BuildHardeningProfile(p, Payload(form, defaults)).Ok? {
      ProfileFollowsSettings(p, Payload(form, defaults));
    }
  }

  lemma NaNRefused(p: Parsers, payload: Form)
    requires Acceptable(p, payload) && p.toFloat(payload[ContainerMaxCpu]) == Some(NaN)
    ensures BuildHardeningProfile(p, payload) == Err(NotAboveZero(ContainerMaxCpu))
  {
    assert IsInteger(ContainerMaxMemory);
  }

  /** A parser of two texts, and a form that uses only those. */
  const TWO_TEXTS := Parsers(s => if s == "3" then Some(3) else None, s => if s == "nan" then Some(NaN) else None)

  function NaNField(k: Key): string {
    match k
    case ContainerMaxCpu => "nan"
    case ContainerLogMaxSize => "3m"
    case AllowChallengeVolumes => "disabled"
    case _ => "3"
  }

  lemma NaNFieldPasses(k: Key)
    ensures Trim(NaNField(k)) == NaNField(k) && NaNField(k) != ""
    ensures IsInteger(k) ==> PositiveInteger(TWO_TEXTS, NaNField(k))
  {
    TrimTrims(NaNField(k));
  }

  lemma NaNFormAcceptable(payload: Form)
    requires forall k: Key :: k in payload && payload[k] == NaNField(k)
    ensures Acceptable(TWO_TEXTS, payload) && TWO_TEXTS.toFloat(payload[ContainerMaxCpu]) == Some(NaN)
  {
    forall k: Key ensures payload[k] != "" && (IsInteger(k) ==> PositiveInteger(TWO_TEXTS, payload[k])) {
      NaNFieldPasses(k);
    }
    assert payload[ContainerMaxCpu] == "nan" && payload[ContainerLogMaxSize] == "3m";
    assert payload[AllowChallengeVolumes] == "disabled";
  }

  /** The form's check lets a CPU limit of "nan" through, which the launcher then refuses. */
  lemma FormAcceptsNaN() returns (form: Form)
    ensures Acceptable(TWO_TEXTS, Payload(form, map[]))
    ensures BuildHardeningProfile(TWO_TEXTS, Payload(form, map[])) == Err(NotAboveZero(ContainerMaxCpu))
  {
    form := map k: Key | true :: NaNField(k);
    var payload := Payload(form, map[]);
    forall k: Key ensures payload[k] == NaNField(k) {
      NaNFieldPasses(k);
    }
    NaNFormAcceptable(payload);
    NaNRefused(TWO_TEXTS, payload);
  }

  // ---- Seeding defaults ----

  /** Values earlier versions used for "unlimited"; they are replaced for the safety controls. */
  predicate Sentinel(v: string) { Trim(v) in {"", "0", "0.0"} }

  /** The stored rows after seeding: missing defaults added, unsafe sentinels replaced. */
  function SeededValue(rows: Form, defaults: Form, secure: set<Key>, key: Key): string
    requires key in rows || key in defaults
  {
    if key in defaults && (key !in rows || (key in secure && Sentinel(rows[key]))) then defaults[key] else rows[key]
  }

  function Seeded(rows: Form, defaults: Form, secure: set<Key>): Form {
    map key | key in rows.Keys + defaults.Keys :: SeededValue(rows, defaults, secure, key)
  }

  /** The settings that environment variables override. */
  predicate Overridable(k: Key) { k.DockerBaseUrl? || k.DockerHostname? || k.ChallengeNetwork? }

  function Overrides(environment: Form): Form {
    map key | key in environment && Overridable(key) && Trim(environment[key]) != "" :: Trim(environment[key])
  }

  /** Stored rows over defaults, and non-blank process environment over both. */
  function Merged(rows: Form, defaults: Form, environment: Form): Form { defaults + rows + Overrides(environment) }

  /** The environment decides on its three settings where it says anything, then the stored row, then the default. */
  lemma MergedPrecedence(rows: Form, defaults: Form, environment: Form, key: Key)
    ensures var merged := Merged(rows, defaults, environment);
      if (key.DockerBaseUrl? || key.DockerHostname? || key.ChallengeNetwork?)
         && key in environment && Trim(environment[key]) != ""
      then key in merged && merged[key] == Trim(environment[key])
      else if key in rows then key in merged && merged[key] == rows[key]
      else if key in defaults then key in merged && merged[key] == defaults[key]
      else key !in merged
  {
  }

  datatype UpdateError = FormRefused(error: Error) | ProfileRefused | RemoteRefused

  class Store {
    const defaults: Form
    const secure: set<Key>
    var rows: Form

    constructor (defaults: Form, secure: set<Key>)
      ensures this.defaults == defaults && this.secure == secure && rows == map[]
    {
      this.defaults, this.secure, rows := defaults, secure, map[];
    }

    method SeedDefaultSettings(environment: Form) returns (merged: Form)
      modifies this
      ensures rows == Seeded(old(rows), defaults, secure)
      ensures merged == Merged(rows, defaults, environment)
    {
      var existing := rows;
      var missing: Form := map[];
      var todo := defaults.Keys;
      while todo != {}
        invariant todo <= defaults.Keys
        invariant rows.Keys == existing.Keys
        invariant missing.Keys == (defaults.Keys - todo) - existing.Keys
        invariant forall key :: key in missing ==> missing[key] == defaults[key]
        invariant forall key :: key in existing ==>
          rows[key] == if key in todo then existing[key] else SeededValue(existing, defaults, secure, key)
        decreases todo
      {
        var key :| key in todo;
        if key !in existing {
          missing := missing[key := defaults[key]];
        } else if key in secure && Sentinel(existing[key]) {
          rows := rows[key := defaults[key]];
        }
        todo := todo - {key};
      }
      SeedingComplete(existing, defaults, secure, rows, missing);
      rows := rows + missing;
      merged := defaults + rows + Overrides(environment);
    }

    /** The rows once the payload's fields have been stored one by one. */
    method StorePayload(payload: Form)
      requires forall k: Key :: k in payload
      modifies this
      ensures rows == payload
    {
      for i := 0 to |FIELDS|
        invariant forall k :: k in FIELDS[..i] ==> k in rows && rows[k] == payload[k]
      {
        rows := rows[FIELDS[i] := payload[FIELDS[i]]];
      }
      assert FIELDS[..|FIELDS|] == FIELDS;
      forall k: Key ensures k in rows && rows[k] == payload[k] { FieldsAreAll(k); }
      assert rows == payload;
    }

    /**
     The settings endpoint.  It stores the normalised form exactly if the form's check passes, the
     profile builds and the remaining checks (`remote`: endpoint, network and daemon) pass.
     */
    method RouteUpdateSettings(p: Parsers, form: Form, environment: Form, remote: Form -> bool)
      returns (r: Result<Form, UpdateError>)
      modifies this
      ensures var payload := Payload(form, Merged(old(rows), defaults, environment));
        && (r.Ok? <==> Acceptable(p, payload) && Validated(p, payload) && remote(payload))
        && rows == (if r.Ok? then payload else old(rows))
        && (r.Ok? ==> r.value == Merged(payload, defaults, environment))
    {
      var current := Merged(rows, defaults, environment);
      var normalized := NormalizeSettingsPayload(p, form, current);
      if normalized.Err? {
        return Err(FormRefused(normalized.error));
      }
      var payload := normalized.value;
      if !Validated(p, payload) {
        return Err(ProfileRefused);
      }
      if !remote(payload) {
        return Err(RemoteRefused);
      }
      StorePayload(payload);
      r := Ok(Merged(rows, defaults, environment));
    }
  }

  /** The part of the endpoint's second validation that concerns the limits. */
  predicate Validated(p: Parsers, settings: Form) {
    BuildHardeningProfile(p, settings).Ok? && PositiveInt(p, settings, ContainerStartTimeoutSeconds, 60).Ok?
  }

  /** Settings the endpoint stores build, unchanged, in every process that later loads them. */
  lemma StoredSettingsBuild(p: Parsers, payload: Form, defaults: Form, environment: Form)
    requires (forall k: Key :: k in payload) && Validated(p, payload)
    ensures Validated(p, Merged(payload, defaults, environment))
    ensures BuildHardeningProfile(p, Merged(payload, defaults, environment)) == BuildHardeningProfile(p, payload)
  {
    SameLimits(p, payload, Merged(payload, defaults, environment));
  }

  /** The profile depends on no setting that the environment overrides. */
  lemma SameLimits(p: Parsers, a: Form, b: Form)
    requires forall k: Key :: k in a && k in b && (!Overridable(k) ==> b[k] == a[k])
    ensures BuildHardeningProfile(p, b) == BuildHardeningProfile(p, a)
    ensures Validated(p, b) == Validated(p, a)
  {
  }

  /** So the endpoint refuses an acceptable form because of its limits exactly if its CPU limit is not finite. */
  lemma EndpointRefusesNaN(p: Parsers, form: Form, defaults: Form)
    requires Acceptable(p, Payload(form, defaults))
    ensures Validated(p, Payload(form, defaults)) <==> p.toFloat(Payload(form, defaults)[ContainerMaxCpu]).value.Finite?
  {
    AcceptedPayloadBuilds(p, form, defaults);
  }

  lemma SeedingComplete(existing: Form, defaults: Form, secure: set<Key>, updated: Form, missing: Form)
    requires updated.Keys == existing.Keys && missing.Keys == defaults.Keys - existing.Keys
    requires forall key :: key in missing ==> missing[key] == defaults[key]
    requires forall key :: key in existing ==> updated[key] == SeededValue(existing, defaults, secure, key)
    ensures updated + missing == Seeded(existing, defaults, secure)
  {
  }

  /** Seeding again changes nothing, and an operator's explicit value is never replaced. */
  lemma SeedingIsStable(rows: Form, defaults: Form, secure: set<Key>)
    ensures Seeded(Seeded(rows, defaults, secure), defaults, secure) == Seeded(rows, defaults, secure)
    ensures forall key :: key in rows && !Sentinel(rows[key]) ==> Seeded(rows, defaults, secure)[key] == rows[key]
    ensures Seeded(rows, defaults, secure).Keys == rows.Keys + defaults.Keys
    ensures forall key :: key in defaults && key !in rows ==> Seeded(rows, defaults, secure)[key] == defaults[key]
    ensures forall key :: key in rows && Seeded(rows, defaults, secure)[key] != rows[key] ==>
              && key in secure && Trim(rows[key]) in {"", "0", "0.0"}
              && key in defaults && Seeded(rows, defaults, secure)[key] == defaults[key]
    ensures (forall key :: key in secure ==> key in defaults && !Sentinel(defaults[key])) ==>
              forall key :: key in secure ==> !Sentinel(Seeded(rows, defaults, secure)[key])
  {
    var once := Seeded(rows, defaults, secure);
    var twice := Seeded(once, defaults, secure);
    forall key | key in once
      ensures twice[key] == once[key]
    {
    }
    assert twice == once;
  }

  // ---- The shipped defaults ----

  const DEFAULTS: Form := map[
    DockerBaseUrl := "unix:///var/run/docker.sock", DockerHostname := "", DockerApiTimeout := "15",
    ChallengeNetwork := "", ContainerExpiration := "30", ContainerMaxMemory := "1024", ContainerMaxCpu := "1.0",
    ContainerPidsLimit := "512", ContainerTmpfsSizeMb := "256", ContainerLogMaxSize := "10m",
    ContainerLogMaxFiles := "3", ContainerStartTimeoutSeconds := "60", MaxContainers := "3",
    AllowChallengeVolumes := "disabled", AllowedCapabilities := ""]

  /** The safety controls whose sentinels are replaced. */
  const SECURE: set<Key> := {
    ContainerExpiration, ContainerMaxMemory, ContainerMaxCpu, ContainerPidsLimit, ContainerTmpfsSizeMb,
    ContainerLogMaxFiles, ContainerStartTimeoutSeconds, MaxContainers}

  lemma ShippedDefault(key: Key)
    requires key in SECURE
    ensures key in DEFAULTS && !Sentinel(DEFAULTS[key])
  {
    var value := DEFAULTS[key];
    assert Trimmed(value) && value !in {"", "0", "0.0"};
    TrimTrims(value);
  }

  /** Whatever an installation has stored, seeding leaves no safety control at a sentinel. */
  lemma SeededControlsAreSafe(rows: Form, key: Key)
    requires key in SECURE
    ensures key in Seeded(rows, DEFAULTS, SECURE)
    ensures Trim(Seeded(rows, DEFAULTS, SECURE)[key]) !in {"", "0", "0.0"}
  {
    ShippedDefault(key);
  }
}
