/** Linux capabilities: parsing, the check when a challenge is saved and the check at launch. */
module Capabilities {
  import opened Options
  import opened Text

  /** What `json.loads` makes of a text, with array items already turned into strings. */
  datatype Json = Invalid | NotArray | Array(items: seq<string>)

  datatype Error = BadJson | NotAnArray | Disabled | Disallowed

  /** `split(",")`. */
  function Split(s: string): seq<string> {
    if s == "" then [""]
    else if s[0] == ',' then [""] + Split(s[1..])
    else var rest := Split(s[1..]); [[s[0]] + rest[0]] + rest[1..]
  }

  function Cleaned(items: seq<string>): seq<string> {
    if items == [] then []
    else (if Trim(items[0]) == "" then [] else [Upper(Trim(items[0]))]) + Cleaned(items[1..])
  }

  function ParseCapabilities(json: string -> Json, value: string): Result<seq<string>, Error> {
    var raw := Trim(value);
    if raw == "" then Ok([])
    else if raw[0] == '[' then
      match json(raw)
      case Invalid => Err(BadJson)
      case NotArray => Err(NotAnArray)
      case Array(items) => Ok(Cleaned(items))
    else Ok(Cleaned(Split(raw)))
  }

  /** The pieces of a text between its commas. */
  function Commas(pieces: seq<string>): string {
    if |pieces| == 0 then "" else if |pieces| == 1 then pieces[0] else pieces[0] + "," + Commas(pieces[1..])
  }

  lemma CommasCons(first: string, rest: seq<string>)
    ensures Commas([first] + rest) == if rest == [] then first else first + "," + Commas(rest)
  {
    assert ([first] + rest)[1..] == rest;
  }

  /** Another character in front belongs to the first piece. */
  lemma CommasFront(c: char, first: string, rest: seq<string>)
    ensures Commas([[c] + first] + rest) == [c] + Commas([first] + rest)
  {
    CommasCons(first, rest);
    CommasCons([c] + first, rest);
    if rest != [] {
      assert ([c] + first) + "," + Commas(rest) == [c] + (first + "," + Commas(rest));
    }
  }

  /** `Split` yields comma-free pieces that join to the text. */
  lemma {:induction false} SplitJoins(s: string)
    ensures Split(s) != [] && Commas(Split(s)) == s
  {
    if s != "" {
      SplitJoins(s[1..]);
      var rest := Split(s[1..]);
      assert s == [s[0]] + s[1..];
      if s[0] == ',' {
        CommasCons("", rest);
        assert "" + "," + s[1..] == s;
      } else {
        assert rest == [rest[0]] + rest[1..];
        CommasFront(s[0], rest[0], rest[1..]);
      }
    }
  }

  lemma {:induction false} SplitIsCommaFree(s: string)
    ensures forall piece :: piece in Split(s) ==> ',' !in piece
  {
    if s != "" {
      SplitIsCommaFree(s[1..]);
    }
  }

  /** The upper-cased, trimmed, non-blank items, and all of them. */
  lemma {:induction false} CleanedItems(items: seq<string>, x: string)
    ensures x in Cleaned(items) <==> exists item :: item in items && Trim(item) != "" && x == Upper(Trim(item))
  {
    if items != [] {
      CleanedItems(items[1..], x);
      assert items == [items[0]] + items[1..];
    }
  }

  /** A comma-separated list names exactly its non-blank pieces; a JSON array exactly its non-blank items. */
  lemma ParsedNames(json: string -> Json, value: string, x: string)
    requires ParseCapabilities(json, value).Ok?
    ensures var raw := Trim(value);
      x in ParseCapabilities(json, value).value <==>
        && raw != ""
        && exists item ::
             && item in (if raw[0] == '[' then json(raw).items else Split(raw))
             && Trim(item) != "" && x == Upper(Trim(item))
  {
    var raw := Trim(value);
    if raw != "" {
      CleanedItems(if raw[0] == '[' then json(raw).items else Split(raw), x);
    }
  }

  // ---- sorted(set(...)) ----

  /** Python's order on strings. */
  predicate Less(a: string, b: string) {
    b != "" && (a == "" || a[0] < b[0] || (a[0] == b[0] && Less(a[1..], b[1..])))
  }

  /** The texts agree up to their `k`-th characters, which are in order. */
  predicate DiffersAt(a: string, b: string, k: nat) {
    k < |a| && k < |b| && a[..k] == b[..k] && a[k] < b[k]
  }

  lemma TailsDiffer(a: string, b: string, k: nat)
    requires a != "" && b != "" && a[0] == b[0]
    ensures DiffersAt(a, b, k + 1) <==> DiffersAt(a[1..], b[1..], k)
    ensures !DiffersAt(a, b, 0)
    ensures a <= b <==> a[1..] <= b[1..]
  {
    assert a == [a[0]] + a[1..] && b == [b[0]] + b[1..];
    if k + 1 < |a| && k + 1 < |b| {
      var x, y := a[1..][..k], b[1..][..k];
      assert a[..k + 1] == [a[0]] + x && b[..k + 1] == [b[0]] + y;
      assert x == a[..k + 1][1..] && y == b[..k + 1][1..];
      assert a[k + 1] == a[1..][k] && b[k + 1] == b[1..][k];
    }
  }

  /** The first difference decides, and a proper prefix comes first. */
  lemma {:induction false} LessIsLexicographic(a: string, b: string)
    ensures Less(a, b) <==> (a <= b && a != b) || exists k: nat :: DiffersAt(a, b, k)
  {
    if a != "" && b != "" && a[0] == b[0] {
      LessIsLexicographic(a[1..], b[1..]);
      TailsDiffer(a, b, 0);
      if k: nat :| DiffersAt(a, b, k) {
        TailsDiffer(a, b, k - 1);
      }
      if k: nat :| DiffersAt(a[1..], b[1..], k) {
        TailsDiffer(a, b, k);
      }
      assert a == [a[0]] + a[1..] && b == [b[0]] + b[1..];
    } else if a != "" && b != "" {
      assert DiffersAt(a, b, 0) <==> a[0] < b[0];
      assert forall k: nat :: k > 0 && k <= |a| && k <= |b| ==> a[..k][0] == a[0] && b[..k][0] == b[0];
    }
  }

  lemma {:induction false} LessTransitive(a: string, b: string, c: string)
    requires Less(a, b) && Less(b, c)
    ensures Less(a, c)
  {
    if a != "" && a[0] == b[0] && b[0] == c[0] {
      LessTransitive(a[1..], b[1..], c[1..]);
    }
  }

  lemma {:induction false} LessTotal(a: string, b: string)
    ensures Less(a, b) || a == b || Less(b, a)
  {
    if a != "" && b != "" && a[0] == b[0] {
      LessTotal(a[1..], b[1..]);
      assert a == [a[0]] + a[1..] && b == [b[0]] + b[1..];
    }
  }

  lemma {:induction false} LessIrreflexive(a: string)
    ensures !Less(a, a)
  {
    if a != "" {
      LessIrreflexive(a[1..]);
    }
  }

  function Insert(x: string, xs: seq<string>): seq<string> {
    if xs == [] || Less(x, xs[0]) then [x] + xs
    else if x == xs[0] then xs
    else [xs[0]] + Insert(x, xs[1..])
  }

  function SortedSet(xs: seq<string>): seq<string> {
    if xs == [] then [] else Insert(xs[0], SortedSet(xs[1..]))
  }

  predicate StrictlySorted(xs: seq<string>) { forall i, j :: 0 <= i < j < |xs| ==> Less(xs[i], xs[j]) }

  predicate NoDuplicates(xs: seq<string>) { forall i, j :: 0 <= i < j < |xs| ==> xs[i] != xs[j] }

  lemma SortedIsDistinct(xs: seq<string>)
    requires StrictlySorted(xs)
    ensures NoDuplicates(xs)
  {
    forall i, j | 0 <= i < j < |xs|
      ensures xs[i] != xs[j]
    {
      LessIrreflexive(xs[i]);
    }
  }

  lemma {:induction false} InsertSorts(x: string, xs: seq<string>)
    requires StrictlySorted(xs)
    ensures StrictlySorted(Insert(x, xs))
    ensures forall y :: y in Insert(x, xs) <==> y == x || y in xs
  {
    if xs != [] {
      assert xs == [xs[0]] + xs[1..];
      if Less(x, xs[0]) {
        forall k | 0 <= k < |xs| ensures Less(x, xs[k]) {
          if k > 0 { LessTransitive(x, xs[0], xs[k]); }
        }
      } else if x != xs[0] {
        LessTotal(x, xs[0]);
        InsertSorts(x, xs[1..]);
        forall y | y in Insert(x, xs[1..]) ensures Less(xs[0], y) {
        }
      }
    }
  }

  /** The sorted list of a set: strictly increasing, so without duplicates, and with the same members. */
  lemma {:induction false} SortedSetSorts(xs: seq<string>)
    ensures StrictlySorted(SortedSet(xs))
    ensures forall y :: y in SortedSet(xs) <==> y in xs
  {
    if xs != [] {
      SortedSetSorts(xs[1..]);
      InsertSorts(xs[0], SortedSet(xs[1..]));
      assert xs == [xs[0]] + xs[1..];
    }
  }

  /** A strictly sorted list is determined by its members, so sorting it again is harmless. */
  lemma {:induction false} SortedSetIdempotent(xs: seq<string>)
    requires StrictlySorted(xs)
    ensures SortedSet(xs) == xs
  {
    if xs != [] {
      assert xs[1..] == [] || Less(xs[0], xs[1..][0]);
      SortedSetIdempotent(xs[1..]);
      assert xs == [xs[0]] + xs[1..];
    }
  }

  // ---- The two checks ----

  predicate AllAllowed(requested: seq<string>, allowed: seq<string>) { forall c :: c in requested ==> c in allowed }

  /** The launcher's `cap_add`; `None` if the challenge asks for nothing. */
  function LaunchCapabilities(json: string -> Json, wanted: string, allowlist: string)
    : Result<Option<seq<string>>, Error>
  {
    if Trim(wanted) == "" then Ok(None)
    else
      var requested := ParseCapabilities(json, Trim(wanted));
      var allowed := ParseCapabilities(json, allowlist);
      if requested.Err? then Err(requested.error)
      else if allowed.Err? then Err(allowed.error)
      else if !AllAllowed(requested.value, allowed.value) then Err(Disallowed)
      else Ok(Some(SortedSet(SortedSet(requested.value))))
  }

  /** The check when a challenge is created or updated. */
  function SaveCapabilities(json: string -> Json, wanted: string, allowlist: string): Result<string, Error> {
    var value := Trim(wanted);
    if value == "" then Ok(value)
    else if value[0] == '[' && json(value).Invalid? then Err(BadJson)
    else if value[0] == '[' && json(value).NotArray? then Err(NotAnArray)
    else
      var requested := ParseCapabilities(json, value);
      var allowed := ParseCapabilities(json, allowlist);
      if requested.Err? then Err(requested.error)
      else if allowed.Err? then Err(allowed.error)
      else if allowed.value == [] then Err(Disabled)
      else if !AllAllowed(requested.value, allowed.value) then Err(Disallowed)
      else Ok(value)
  }

  /** A launch is refused exactly if a field cannot be read, or something requested is not in the allowlist. */
  lemma LaunchAllowedExactly(json: string -> Json, wanted: string, allowlist: string)
    ensures LaunchCapabilities(json, wanted, allowlist).Ok? <==>
      || Trim(wanted) == ""
      || (ParseCapabilities(json, wanted).Ok? && ParseCapabilities(json, allowlist).Ok?
          && forall x :: x in ParseCapabilities(json, wanted).value ==> x in ParseCapabilities(json, allowlist).value)
    ensures LaunchCapabilities(json, wanted, allowlist) == Ok(None) <==> Trim(wanted) == ""
  {
    TrimTrims(wanted);
    TrimTrims(Trim(wanted));
  }

  /** Every launch adds capabilities in order, without duplicates, and only from the allowlist. */
  lemma LaunchedCapabilitiesAllowed(json: string -> Json, wanted: string, allowlist: string)
    requires LaunchCapabilities(json, wanted, allowlist).Ok? && LaunchCapabilities(json, wanted, allowlist).value.Some?
    ensures var added := LaunchCapabilities(json, wanted, allowlist).value.value;
      && StrictlySorted(added) && NoDuplicates(added)
      && ParseCapabilities(json, allowlist).Ok? && AllAllowed(added, ParseCapabilities(json, allowlist).value)
      && ParseCapabilities(json, wanted).Ok?
      && (forall c :: c in added <==> c in ParseCapabilities(json, wanted).value)
  {
    TrimTrims(Trim(wanted));
    TrimTrims(wanted);
    var requested := ParseCapabilities(json, Trim(wanted)).value;
    SortedSetSorts(requested);
    SortedSetIdempotent(SortedSet(requested));
    SortedIsDistinct(SortedSet(requested));
  }

  /**
   Under an unchanged allowlist a challenge that could be saved can be launched.  The checks
   differ in one case: a non-blank value that names no capability is launched but not saved
   while the allowlist is empty.
   */
  lemma SavedCapabilitiesLaunch(json: string -> Json, wanted: string, allowlist: string)
    ensures SaveCapabilities(json, wanted, allowlist).Ok? <==>
      && LaunchCapabilities(json, wanted, allowlist).Ok?
      && (Trim(wanted) != "" ==> ParseCapabilities(json, allowlist) != Ok([]))
  {
    TrimTrims(wanted);
  }

  /** That case: a lone comma and an empty allowlist. */
  lemma NamelessListLaunchesOnly(json: string -> Json)
    ensures LaunchCapabilities(json, ",", "") == Ok(Some([]))
    ensures SaveCapabilities(json, ",", "") == Err(Disabled)
  {
    TrimTrims(",");
    assert Split(",") == ["", ""] by { assert ","[1..] == ""; }
    assert Cleaned(["", ""]) == [] by { assert ["", ""][1..] == [""] && [""][1..] == []; }
  }
}
