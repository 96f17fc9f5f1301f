/**
 The per-account rate limiter.  On Redis a key is a fixed window opened by its first request; the
 development fallback stores the counter in a local cache and refreshes its timeout on every
 request.  A stored counter counts as gone from its expiry instant on.
 */
module RateLimiter {
  import opened Options
  import opened Sets
  import opened Identity

  datatype Counter = Counter(count: nat, until: real)

  predicate Alive(c: Option<Counter>, now: real) { c.Some? && now < c.value.until }

  /** INCR, and EXPIRE only for the request that created the key. */
  function RedisStep(c: Option<Counter>, now: real, interval: nat): Counter {
    if Alive(c, now) then c.value.(count := c.value.count + 1) else Counter(1, now + interval as real)
  }

  /** Read, add one, store with a fresh timeout. */
  function CacheStep(c: Option<Counter>, now: real, interval: nat): Counter {
    Counter((if Alive(c, now) then c.value.count else 0) + 1, now + interval as real)
  }

  function Get(store: map<string, Counter>, key: string): Option<Counter> {
    if key in store then Some(store[key]) else None
  }

  datatype Decision = Admitted | TooMany | BadRequest

  /** The decorator's arguments on one route. */
  datatype Policy = Policy(limit: nat, interval: nat)

  /** One HTTP request to a decorated route; `limited` says that it uses the limited method. */
  datatype Call = Call(limited: bool, account: Option<int>, isTeam: bool, endpoint: string, policy: Policy, time: real)
  {
    /** The key it is counted under, if it is counted. */
    function Key(): Option<string> {
      if !limited || account.None? then None
      else match AccountRateLimitKey(account.value, isTeam, endpoint)
        case Ok(key) => Some(key)
        case Err(_) => None
    }
  }

  datatype Request = Request(key: Option<string>, policy: Policy, time: real)

  type Stepper = (Option<Counter>, real, nat) -> Counter

  /** A store after a mixed trace of requests, each counted under its own key. */
  function Replay(step: Stepper, prefix: string, trace: seq<Request>): map<string, Counter> {
    if trace == [] then map[]
    else
      var before, r := Replay(step, prefix, trace[..|trace| - 1]), trace[|trace| - 1];
      if r.key.None? then before
      else before[prefix + r.key.value := step(Get(before, prefix + r.key.value), r.time, r.policy.interval)]
  }

  /** The updated counter that the `i`-th request of a trace is judged by. */
  function CountAt(step: Stepper, prefix: string, trace: seq<Request>, i: nat): nat
    requires i < |trace| && trace[i].key.Some?
  {
    var r := trace[i];
    step(Get(Replay(step, prefix, trace[..i]), prefix + r.key.value), r.time, r.policy.interval).count
  }

  function TraceOf(calls: seq<Call>): seq<Request> {
    seq(|calls|, i requires 0 <= i < |calls| => Request(calls[i].Key(), calls[i].policy, calls[i].time))
  }

  /** What the decorator decides about the `i`-th call of a sequence. */
  function Judged(step: Stepper, prefix: string, calls: seq<Call>, i: nat): Decision
    requires i < |calls|
  {
    if !calls[i].limited then Admitted
    else if calls[i].Key().None? then BadRequest
    else if CountAt(step, prefix, TraceOf(calls), i) > calls[i].policy.limit then TooMany
    else Admitted
  }

  lemma TraceGrows(calls: seq<Call>, n: nat)
    requires n < |calls|
    ensures TraceOf(calls[..n + 1]) == TraceOf(calls[..n]) + [Request(calls[n].Key(), calls[n].policy, calls[n].time)]
    ensures TraceOf(calls)[..n] == TraceOf(calls[..n])
  {
  }

  class Limiter {
    const onRedis: bool
    const keyPrefix: string
    var redis: map<string, Counter>
    var cache: map<string, Counter>

    constructor (onRedis: bool, keyPrefix: string)
      ensures this.onRedis == onRedis && this.keyPrefix == keyPrefix && redis == map[] && cache == map[]
    {
      this.onRedis, this.keyPrefix, redis, cache := onRedis, keyPrefix, map[], map[];
    }

    /** Only the requested key's counter changes, and only in the store in use. */
    method Increment(key: string, interval: nat, now: real) returns (current: nat)
      modifies this
      ensures onRedis ==>
        && redis == old(redis)[keyPrefix + key := RedisStep(Get(old(redis), keyPrefix + key), now, interval)]
        && cache == old(cache) && current == redis[keyPrefix + key].count
      ensures !onRedis ==>
        && cache == old(cache)[key := CacheStep(Get(old(cache), key), now, interval)]
        && redis == old(redis) && current == cache[key].count
    {
      if onRedis {
        var name := keyPrefix + key;
        if name in redis && now < redis[name].until {
          redis := redis[name := redis[name].(count := redis[name].count + 1)];
        } else {
          redis := redis[name := Counter(1, now + interval as real)];
        }
        current := redis[name].count;
      } else {
        current := 0;
        if key in cache && now < cache[key].until {
          current := cache[key].count;
        }
        current := current + 1;
        cache := cache[key := Counter(current, now + interval as real)];
      }
    }

    /** The decorator: requests by another method pass uncounted, the rest need a valid key. */
    method Check(limited: bool, account: Option<int>, isTeam: bool, endpoint: string,
                 limit: nat, interval: nat, now: real)
      returns (d: Decision)
      modifies this
      ensures !limited ==> d.Admitted? && redis == old(redis) && cache == old(cache)
      ensures limited && (account.None? || AccountRateLimitKey(account.value, isTeam, endpoint).Err?) ==>
        d.BadRequest? && redis == old(redis) && cache == old(cache)
      ensures limited && account.Some? && AccountRateLimitKey(account.value, isTeam, endpoint).Ok? ==>
        var key := AccountRateLimitKey(account.value, isTeam, endpoint).value;
        if onRedis then
          var next := RedisStep(Get(old(redis), keyPrefix + key), now, interval);
          redis == old(redis)[keyPrefix + key := next] && cache == old(cache)
          && d == if next.count > limit then TooMany else Admitted
        else
          var next := CacheStep(Get(old(cache), key), now, interval);
          cache == old(cache)[key := next] && redis == old(redis)
          && d == if next.count > limit then TooMany else Admitted
    {
      if !limited {
        return Admitted;
      }
      if account.None? {
        return BadRequest;
      }
      var key := AccountRateLimitKey(account.value, isTeam, endpoint);
      if key.Err? {
        return BadRequest;
      }
      var current := Increment(key.value, interval, now);
      d := if current > limit then TooMany else Admitted;
    }

    function Step(): Stepper { if onRedis then RedisStep else CacheStep }

    function Prefix(): string { if onRedis then keyPrefix else "" }

    /** A fresh limiter serves any mixture of calls; each is judged by its own key's counter. */
    method Serve(calls: seq<Call>) returns (decisions: seq<Decision>)
      requires redis == map[] && cache == map[]
      modifies this
      ensures |decisions| == |calls|
      ensures forall i :: 0 <= i < |calls| ==> decisions[i] == Judged(Step(), Prefix(), calls, i)
    {
      decisions := [];
      for n := 0 to |calls|
        invariant |decisions| == n
        invariant (if onRedis then redis else cache) == Replay(Step(), Prefix(), TraceOf(calls[..n]))
        invariant forall i :: 0 <= i < n ==> decisions[i] == Judged(Step(), Prefix(), calls, i)
      {
        var call := calls[n];
        TraceGrows(calls, n);
        assert call.Key().Some? ==> "" + call.Key().value == call.Key().value;
        var d := Check(call.limited, call.account, call.isTeam, call.endpoint,
                       call.policy.limit, call.policy.interval, call.time);
        assert d == Judged(Step(), Prefix(), calls, n);
        decisions := decisions + [d];
      }
    }
  }

  // ---- One key over a whole trace of requests ----

  ghost predicate Ordered(times: seq<real>) { forall i, j :: 0 <= i < j < |times| ==> times[i] <= times[j] }

  /** The key's counter after the first `n` requests of the trace. */
  function RedisAfter(times: seq<real>, interval: nat, n: nat): Option<Counter>
    requires n <= |times|
  {
    if n == 0 then None else Some(RedisStep(RedisAfter(times, interval, n - 1), times[n - 1], interval))
  }

  function CacheAfter(times: seq<real>, interval: nat, n: nat): Option<Counter>
    requires n <= |times|
  {
    if n == 0 then None else Some(CacheStep(CacheAfter(times, interval, n - 1), times[n - 1], interval))
  }

  function RedisCount(times: seq<real>, interval: nat, i: nat): nat
    requires i < |times|
  {
    RedisAfter(times, interval, i + 1).value.count
  }

  function CacheCount(times: seq<real>, interval: nat, i: nat): nat
    requires i < |times|
  {
    CacheAfter(times, interval, i + 1).value.count
  }

  /** The requests among the first `n` that Redis admits at or after time `a`. */
  function RedisAdmits(times: seq<real>, interval: nat, limit: nat, a: real, n: nat): set<nat>
    requires n <= |times|
  {
    set i: nat | i < n && times[i] >= a && RedisCount(times, interval, i) <= limit
  }

  /** How many windows open at or after `a` among the first `n` requests. */
  function Opened(times: seq<real>, interval: nat, a: real, n: nat): nat
    requires n <= |times|
  {
    if n == 0 then 0
    else
      Opened(times, interval, a, n - 1) + if RedisCount(times, interval, n - 1) == 1 && times[n - 1] >= a then 1 else 0
  }

  /** The length of `k` intervals, and the requests `m` full windows admit. */
  function Span(k: nat, interval: nat): real {
    if k == 0 then 0.0 else Span(k - 1, interval) + interval as real
  }

  function Quota(m: nat, limit: nat): nat {
    if m == 0 then 0 else Quota(m - 1, limit) + limit
  }

  lemma {:induction false} SpanIsProduct(k: nat, interval: nat)
    ensures Span(k, interval) == (k * interval) as real && Quota(k, interval) == k * interval
  {
    if k > 0 {
      SpanIsProduct(k - 1, interval);
      assert k * interval == (k - 1) * interval + interval;
    }
  }

  lemma {:induction false} SpanMonotone(j: nat, k: nat, interval: nat)
    requires j <= k
    ensures Span(j, interval) <= Span(k, interval) && Quota(j, interval) <= Quota(k, interval)
    decreases k
  {
    if j < k {
      SpanMonotone(j, k - 1, interval);
    }
  }

  function Min(a: nat, b: nat): nat { if a < b then a else b }

  /** The current window opened no earlier than the windows counted since `a` force it to. */
  lemma {:induction false} WindowsSpread(times: seq<real>, interval: nat, a: real, n: nat)
    requires Ordered(times) && interval > 0 && 0 < n <= |times|
    ensures var c := RedisAfter(times, interval, n).value; var m := Opened(times, interval, a, n);
      && 1 <= c.count
      && c.until <= times[n - 1] + interval as real
      && (m >= 1 ==> c.until >= a + Span(m, interval))
      && (m == 0 ==> c.until < a + interval as real)
  {
    if n > 1 {
      WindowsSpread(times, interval, a, n - 1);
    }
  }

  /** The last request of the first `n` is admitted by itself or not at all. */
  lemma OneMore(times: seq<real>, interval: nat, limit: nat, a: real, n: nat)
    requires 0 < n <= |times|
    ensures |RedisAdmits(times, interval, limit, a, n)| == |RedisAdmits(times, interval, limit, a, n - 1)|
              + if times[n - 1] >= a && RedisCount(times, interval, n - 1) <= limit then 1 else 0
  {
    var before := RedisAdmits(times, interval, limit, a, n - 1);
    assert RedisAdmits(times, interval, limit, a, n) ==
      if times[n - 1] >= a && RedisCount(times, interval, n - 1) <= limit then before + {n - 1} else before;
  }

  lemma NoneBefore(times: seq<real>, interval: nat, limit: nat, a: real, n: nat)
    requires Ordered(times) && 0 < n <= |times| && times[n - 1] < a
    ensures RedisAdmits(times, interval, limit, a, n) == {}
  {
  }

  /**
   All windows counted since `a` are full at most, except that one opened before `a` has spent
   its first request there.
   */
  lemma {:induction false} AdmittedByWindows(times: seq<real>, interval: nat, limit: nat, a: real, n: nat)
    requires Ordered(times) && interval > 0 && limit > 0 && 0 < n <= |times|
    ensures |RedisAdmits(times, interval, limit, a, n)|
         <= Quota(Opened(times, interval, a, n), limit) + Min(RedisCount(times, interval, n - 1), limit) - 1
  {
    WindowsSpread(times, interval, a, n);
    OneMore(times, interval, limit, a, n);
    if n > 1 {
      WindowsSpread(times, interval, a, n - 1);
      AdmittedByWindows(times, interval, limit, a, n - 1);
    }
    if times[n - 1] < a {
      NoneBefore(times, interval, limit, a, n);
    }
  }

  lemma {:induction false} CutAt(times: seq<real>, b: real) returns (n: nat)
    requires Ordered(times)
    ensures n <= |times| && forall i :: 0 <= i < |times| ==> (times[i] < b <==> i < n)
  {
    n := 0;
    while n < |times| && times[n] < b
      invariant n <= |times| && forall i :: 0 <= i < n ==> times[i] < b
    {
      n := n + 1;
    }
  }

  /** The requests admitted by Redis in the half-open span from `a` to `b`. */
  function RedisAdmitsWithin(times: seq<real>, interval: nat, limit: nat, a: real, b: real): set<nat> {
    set i: nat | i < |times| && a <= times[i] < b && RedisCount(times, interval, i) <= limit
  }

  lemma AdmittedWithin(times: seq<real>, interval: nat, limit: nat, a: real, k: nat)
    requires Ordered(times) && interval > 0 && limit > 0
    ensures |RedisAdmitsWithin(times, interval, limit, a, a + Span(k, interval))| <= Quota(k, limit) + limit - 1
  {
    var n := CutAt(times, a + Span(k, interval));
    assert RedisAdmitsWithin(times, interval, limit, a, a + Span(k, interval))
        == RedisAdmits(times, interval, limit, a, n);
    if n > 0 {
      AdmittedByWindows(times, interval, limit, a, n);
      WindowsSpread(times, interval, a, n);
      var m := Opened(times, interval, a, n);
      if m > k {
        SpanMonotone(k + 1, m, interval);
      }
      SpanMonotone(if m <= k then m else k, k, limit);
    }
  }

  /**
   Redis form: any half-open span of `k` intervals admits fewer than `(k + 1) * limit` requests,
   so a single interval admits fewer than twice the limit.
   */
  lemma RedisBound(times: seq<real>, interval: nat, limit: nat, a: real, k: nat)
    requires Ordered(times) && interval > 0
    ensures var admitted := RedisAdmitsWithin(times, interval, limit, a, a + (k * interval) as real);
      if limit == 0 then admitted == {} else |admitted| <= (k + 1) * limit - 1
  {
    SpanIsProduct(k, interval);
    if limit == 0 {
      forall i: nat | i < |times|
        ensures RedisCount(times, interval, i) >= 1
      {
        WindowsSpread(times, interval, a, i + 1);
      }
    } else {
      SpanIsProduct(k, limit);
      AdmittedWithin(times, interval, limit, a, k);
      assert (k + 1) * limit == k * limit + limit;
    }
  }

  // ---- The bound is reached ----

  /** Later requests leave the counters before them as they were. */
  lemma {:induction false} RedisPrefix(times: seq<real>, longer: seq<real>, interval: nat, n: nat)
    requires times <= longer && n <= |times|
    ensures RedisAfter(longer, interval, n) == RedisAfter(times, interval, n)
  {
    if n > 0 {
      RedisPrefix(times, longer, interval, n - 1);
    }
  }

  /** The trace's last counter, and how many requests it admits since `a`. */
  ghost predicate Reaches(times: seq<real>, interval: nat, limit: nat, a: real, c: Counter, admitted: nat) {
    && Ordered(times) && |times| > 0
    && RedisAfter(times, interval, |times|) == Some(c)
    && |RedisAdmits(times, interval, limit, a, |times|)| == admitted
  }

  lemma ReachesNext(times: seq<real>, interval: nat, limit: nat, a: real, c: Counter, admitted: nat, t: real)
    requires Reaches(times, interval, limit, a, c, admitted) && times[|times| - 1] <= t
    ensures var next := RedisStep(Some(c), t, interval);
      Reaches(times + [t], interval, limit, a, next, admitted + if t >= a && next.count <= limit then 1 else 0)
  {
    var longer := times + [t];
    forall n: nat | n <= |times| ensures RedisAfter(longer, interval, n) == RedisAfter(times, interval, n) {
      RedisPrefix(times, longer, interval, n);
    }
    forall i: nat | i < |times| ensures RedisCount(longer, interval, i) == RedisCount(times, interval, i) {
      assert RedisAfter(longer, interval, i + 1) == RedisAfter(times, interval, i + 1);
    }
    assert RedisAdmits(longer, interval, limit, a, |times|) == RedisAdmits(times, interval, limit, a, |times|);
    OneMore(longer, interval, limit, a, |longer|);
  }

  /** `n` more requests at once, all within the window and the limit. */
  lemma {:induction false} Burst(times: seq<real>, interval: nat, limit: nat, a: real, c: Counter, admitted: nat,
                                 t: real, n: nat)
    returns (longer: seq<real>)
    requires Reaches(times, interval, limit, a, c, admitted) && times[|times| - 1] <= t && a <= t < c.until
    requires c.count + n <= limit
    ensures Reaches(longer, interval, limit, a, c.(count := c.count + n), admitted + n)
    ensures longer[|longer| - 1] <= t
  {
    longer := times;
    if n > 0 {
      longer := Burst(times, interval, limit, a, c, admitted, t, n - 1);
      ReachesNext(longer, interval, limit, a, c.(count := c.count + n - 1), admitted + n - 1, t);
      longer := longer + [t];
    }
  }

  lemma FirstRequest(interval: nat, limit: nat)
    requires interval > 0
    ensures Reaches([0.0], interval, limit, interval as real / 2.0, Counter(1, Span(1, interval)), 0)
  {
    assert Span(1, interval) == Span(0, interval) + interval as real;
    assert RedisAfter([0.0], interval, 1) == Some(Counter(1, Span(1, interval)));
    assert RedisAdmits([0.0], interval, limit, interval as real / 2.0, 1) == {};
  }

  /**
   One request, the rest of its window's quota half an interval later, and then a full quota at
   the start of each of `m` further windows.
   */
  lemma {:induction false} Packed(interval: nat, limit: nat, m: nat) returns (times: seq<real>)
    requires interval > 0 && limit > 0
    ensures Reaches(times, interval, limit, interval as real / 2.0,
                    Counter(limit, Span(m + 1, interval)), Quota(m, limit) + limit - 1)
    ensures times[|times| - 1] <= interval as real / 2.0 + Span(m, interval)
    ensures m > 0 ==> times[|times| - 1] <= Span(m, interval)
  {
    var half := interval as real / 2.0;
    if m == 0 {
      FirstRequest(interval, limit);
      times := Burst([0.0], interval, limit, half, Counter(1, Span(1, interval)), 0, half, limit - 1);
    } else {
      times := Packed(interval, limit, m - 1);
      var start := Span(m, interval);
      SpanMonotone(1, m, interval);
      ReachesNext(times, interval, limit, half, Counter(limit, start), Quota(m - 1, limit) + limit - 1, start);
      times := times + [start];
      times := Burst(times, interval, limit, half, Counter(1, Span(m + 1, interval)), Quota(m - 1, limit) + limit,
                     start, limit - 1);
    }
  }

  /** For every limit, interval and number of intervals some trace reaches the bound. */
  lemma RedisBoundIsTight(interval: nat, limit: nat, k: nat) returns (times: seq<real>, a: real)
    requires interval > 0 && limit > 0 && k > 0
    ensures Ordered(times)
    ensures |RedisAdmitsWithin(times, interval, limit, a, a + (k * interval) as real)| == (k + 1) * limit - 1
  {
    a := interval as real / 2.0;
    times := Packed(interval, limit, k);
    SpanIsProduct(k, interval);
    SpanIsProduct(k, limit);
    assert (k + 1) * limit == k * limit + limit;
    assert RedisAdmitsWithin(times, interval, limit, a, a + (k * interval) as real)
        == RedisAdmits(times, interval, limit, a, |times|);
  }

  // ---- The fallback ----

  /** A pause of a whole interval before request `j`. */
  predicate Quiet(times: seq<real>, interval: nat, j: nat)
    requires j < |times|
  {
    j == 0 || times[j] >= times[j - 1] + interval as real
  }

  /** The fallback counts the requests since the last quiet pause. */
  lemma {:induction false} CacheCountsBusyRun(times: seq<real>, interval: nat, i: nat) returns (start: nat)
    requires i < |times|
    ensures start <= i && Quiet(times, interval, start)
    ensures forall j: nat :: start < j <= i ==> !Quiet(times, interval, j)
    ensures CacheCount(times, interval, i) == i - start + 1
    ensures CacheAfter(times, interval, i + 1).value.until == times[i] + interval as real
  {
    if i == 0 {
      start := 0;
    } else {
      start := CacheCountsBusyRun(times, interval, i - 1);
      if Quiet(times, interval, i) {
        start := i;
      }
    }
  }

  /** The fallback admits a request exactly if there was a quiet pause within the last `limit` requests. */
  lemma CacheAdmitsExactly(times: seq<real>, interval: nat, limit: nat, i: nat)
    requires i < |times|
    ensures CacheCount(times, interval, i) <= limit
       <==> exists j: nat :: i - limit < j <= i && Quiet(times, interval, j)
  {
    var start := CacheCountsBusyRun(times, interval, i);
  }

  function CacheAdmitsWithin(times: seq<real>, interval: nat, limit: nat, a: real, b: real): set<nat> {
    set i: nat | i < |times| && a <= times[i] < b && CacheCount(times, interval, i) <= limit
  }

  /** Fallback form: any half-open span of one interval admits at most `limit` requests. */
  lemma CacheBound(times: seq<real>, interval: nat, limit: nat, a: real)
    requires Ordered(times) && interval > 0
    ensures |CacheAdmitsWithin(times, interval, limit, a, a + interval as real)| <= limit
  {
    var first := CutAt(times, a);
    var admitted := CacheAdmitsWithin(times, interval, limit, a, a + interval as real);
    forall i | i in admitted
      ensures first <= i < first + limit
    {
      var start := CacheCountsBusyRun(times, interval, i);
    }
    RangeIs(first, limit);
    SubsetCard(admitted, Range(first, limit));
  }

  /** On the same trace the fallback's counter is never below Redis's and never expires earlier. */
  lemma {:induction false} CacheDominates(times: seq<real>, interval: nat, n: nat)
    requires Ordered(times) && 0 < n <= |times|
    ensures RedisAfter(times, interval, n).value.count <= CacheAfter(times, interval, n).value.count
    ensures RedisAfter(times, interval, n).value.until <= CacheAfter(times, interval, n).value.until
  {
    if n > 1 {
      CacheDominates(times, interval, n - 1);
      var start := CacheCountsBusyRun(times, interval, n - 2);
    }
  }

  /** So the fallback admits a subset of what Redis admits. */
  lemma CacheAdmitsSubset(times: seq<real>, interval: nat, limit: nat, i: nat)
    requires Ordered(times) && i < |times| && CacheCount(times, interval, i) <= limit
    ensures RedisCount(times, interval, i) <= limit
  {
    CacheDominates(times, interval, i + 1);
  }

  // ---- Many keys ----

  function TimesOf(trace: seq<Request>, key: string): seq<real> {
    if trace == [] then []
    else
      var before, r := TimesOf(trace[..|trace| - 1], key), trace[|trace| - 1];
      if r.key == Some(key) then before + [r.time] else before
  }

  /** All requests counted under a key come from the one route the key names. */
  ghost predicate OneRoute(trace: seq<Request>, key: string, policy: Policy) {
    forall i :: 0 <= i < |trace| && trace[i].key == Some(key) ==> trace[i].policy == policy
  }

  ghost predicate InOrder(trace: seq<Request>) {
    forall i, j :: 0 <= i < j < |trace| ==> trace[i].time <= trace[j].time
  }

  lemma {:induction false} CachePrefix(times: seq<real>, longer: seq<real>, interval: nat, n: nat)
    requires times <= longer && n <= |times|
    ensures CacheAfter(longer, interval, n) == CacheAfter(times, interval, n)
  {
    if n > 0 {
      CachePrefix(times, longer, interval, n - 1);
    }
  }

  lemma PrefixedKeys(prefix: string, a: string, b: string)
    ensures prefix + a == prefix + b <==> a == b
  {
    assert (prefix + a)[|prefix|..] == a && (prefix + b)[|prefix|..] == b;
  }

  /** Whatever other accounts and endpoints do in between, a key's counter is that of its own requests. */
  lemma {:induction false} KeysAreIndependent(prefix: string, trace: seq<Request>, key: string, policy: Policy)
    requires OneRoute(trace, key, policy)
    ensures var times := TimesOf(trace, key);
      && Get(Replay(RedisStep, prefix, trace), prefix + key) == RedisAfter(times, policy.interval, |times|)
      && Get(Replay(CacheStep, prefix, trace), prefix + key) == CacheAfter(times, policy.interval, |times|)
  {
    if trace != [] {
      var before, r := trace[..|trace| - 1], trace[|trace| - 1];
      KeysAreIndependent(prefix, before, key, policy);
      var times := TimesOf(before, key);
      RedisPrefix(times, times + [r.time], policy.interval, |times|);
      CachePrefix(times, times + [r.time], policy.interval, |times|);
      if r.key.Some? {
        PrefixedKeys(prefix, r.key.value, key);
      }
    }
  }

  /** A key's own requests are in order if the whole trace is. */
  lemma {:induction false} TimesOrdered(trace: seq<Request>, key: string)
    requires InOrder(trace)
    ensures Ordered(TimesOf(trace, key))
    ensures forall t :: t in TimesOf(trace, key) ==> trace != [] && t <= trace[|trace| - 1].time
  {
    if trace != [] {
      var before, last := trace[..|trace| - 1], trace[|trace| - 1].time;
      TimesOrdered(before, key);
      forall t | t in TimesOf(before, key) ensures t <= last {
        assert t <= before[|before| - 1].time;
      }
      OrderedAppend(TimesOf(before, key), last);
    }
  }

  lemma OrderedAppend(times: seq<real>, t: real)
    requires Ordered(times) && forall u :: u in times ==> u <= t
    ensures Ordered(times + [t])
  {
    forall i, j | 0 <= i < j < |times + [t]|
      ensures (times + [t])[i] <= (times + [t])[j]
    {
      assert times[i] in times;
    }
  }

  /** How many requests of the key came before the `i`-th request of the trace. */
  function Position(trace: seq<Request>, key: string, i: nat): nat
    requires i <= |trace|
  {
    |TimesOf(trace[..i], key)|
  }

  lemma {:induction false} TimesPrefix(trace: seq<Request>, key: string, n: nat)
    requires n <= |trace|
    ensures TimesOf(trace[..n], key) <= TimesOf(trace, key)
    decreases |trace|
  {
    if n < |trace| {
      TimesPrefix(trace[..|trace| - 1], key, n);
      assert trace[..|trace| - 1][..n] == trace[..n];
    } else {
      assert trace[..n] == trace;
    }
  }

  /** A request of the key is the one at its position among the key's own requests. */
  lemma PositionIs(trace: seq<Request>, key: string, i: nat)
    requires i < |trace| && trace[i].key == Some(key)
    ensures Position(trace, key, i) < |TimesOf(trace, key)|
    ensures Position(trace, key, i + 1) == Position(trace, key, i) + 1
    ensures TimesOf(trace, key)[Position(trace, key, i)] == trace[i].time
  {
    TimesPrefix(trace, key, i + 1);
    assert trace[..i + 1][..i] == trace[..i];
  }

  lemma PositionsGrow(trace: seq<Request>, key: string, i: nat, j: nat)
    requires i < j < |trace| && trace[i].key == Some(key)
    ensures Position(trace, key, i) < Position(trace, key, j)
  {
    PositionIs(trace, key, i);
    TimesPrefix(trace[..j], key, i + 1);
    assert trace[..j][..i + 1] == trace[..i + 1];
  }

  /** What a request of the mixed trace is compared with is its count among the key's own requests. */
  lemma CountIsOwn(prefix: string, trace: seq<Request>, i: nat, key: string, policy: Policy)
    requires i < |trace| && trace[i].key == Some(key) && OneRoute(trace, key, policy)
    ensures Position(trace, key, i) < |TimesOf(trace, key)|
    ensures var times, k := TimesOf(trace, key), Position(trace, key, i);
      && CountAt(RedisStep, prefix, trace, i) == RedisCount(times, policy.interval, k)
      && CountAt(CacheStep, prefix, trace, i) == CacheCount(times, policy.interval, k)
  {
    var times, before := TimesOf(trace, key), TimesOf(trace[..i], key);
    PositionIs(trace, key, i);
    TimesPrefix(trace, key, i);
    KeysAreIndependent(prefix, trace[..i], key, policy);
    RedisPrefix(before, times, policy.interval, |before|);
    CachePrefix(before, times, policy.interval, |before|);
  }

  /** The requests of a key that a mixed trace admits in the half-open span from `a` to `b`. */
  function KeyAdmits(step: Stepper, prefix: string, trace: seq<Request>, key: string, limit: nat, a: real, b: real)
    : set<nat>
  {
    set i: nat | i < |trace| && trace[i].key == Some(key) && a <= trace[i].time < b
                 && CountAt(step, prefix, trace, i) <= limit
  }

  function PositionOrZero(trace: seq<Request>, key: string, i: nat): nat {
    if i <= |trace| then Position(trace, key, i) else 0
  }

  lemma KeyAdmitsCard(step: Stepper, prefix: string, trace: seq<Request>, key: string, limit: nat, a: real, b: real,
                      own: set<nat>)
    requires forall i :: i in KeyAdmits(step, prefix, trace, key, limit, a, b) ==> Position(trace, key, i) in own
    ensures |KeyAdmits(step, prefix, trace, key, limit, a, b)| <= |own|
  {
    var admitted := KeyAdmits(step, prefix, trace, key, limit, a, b);
    forall i, j | i in admitted && j in admitted && PositionOrZero(trace, key, i) == PositionOrZero(trace, key, j)
      ensures i == j
    {
      if i < j { PositionsGrow(trace, key, i, j); }
      if j < i { PositionsGrow(trace, key, j, i); }
    }
    ImageCard<nat, nat>(admitted, own, (i: nat) => PositionOrZero(trace, key, i));
  }

  /** In any mixed trace Redis admits, of one key in `k` intervals, fewer than `(k + 1) * limit` requests. */
  lemma MixedRedisBound(prefix: string, trace: seq<Request>, key: string, policy: Policy, a: real, k: nat)
    requires InOrder(trace) && OneRoute(trace, key, policy) && policy.interval > 0
    ensures var b := a + (k * policy.interval) as real;
      var admitted := KeyAdmits(RedisStep, prefix, trace, key, policy.limit, a, b);
      if policy.limit == 0 then admitted == {} else |admitted| <= (k + 1) * policy.limit - 1
  {
    var times, b := TimesOf(trace, key), a + (k * policy.interval) as real;
    TimesOrdered(trace, key);
    RedisBound(times, policy.interval, policy.limit, a, k);
    var own := RedisAdmitsWithin(times, policy.interval, policy.limit, a, b);
    forall i | i in KeyAdmits(RedisStep, prefix, trace, key, policy.limit, a, b)
      ensures Position(trace, key, i) in own
    {
      CountIsOwn(prefix, trace, i, key, policy);
      PositionIs(trace, key, i);
    }
    KeyAdmitsCard(RedisStep, prefix, trace, key, policy.limit, a, b, own);
  }

  /** The fallback admits, of one key in one interval, at most `limit` requests. */
  lemma MixedCacheBound(prefix: string, trace: seq<Request>, key: string, policy: Policy, a: real)
    requires InOrder(trace) && OneRoute(trace, key, policy) && policy.interval > 0
    ensures |KeyAdmits(CacheStep, prefix, trace, key, policy.limit, a, a + policy.interval as real)| <= policy.limit
  {
    var times, b := TimesOf(trace, key), a + policy.interval as real;
    TimesOrdered(trace, key);
    CacheBound(times, policy.interval, policy.limit, a);
    var own := CacheAdmitsWithin(times, policy.interval, policy.limit, a, b);
    forall i | i in KeyAdmits(CacheStep, prefix, trace, key, policy.limit, a, b)
      ensures Position(trace, key, i) in own
    {
      CountIsOwn(prefix, trace, i, key, policy);
      PositionIs(trace, key, i);
    }
    KeyAdmitsCard(CacheStep, prefix, trace, key, policy.limit, a, b, own);
  }

  /** The calls under one key, in the half-open span from `a` to `b`, that `Limiter.Serve` admits. */
  function Served(step: Stepper, prefix: string, calls: seq<Call>, key: string, a: real, b: real): set<nat> {
    set i: nat | i < |calls| && calls[i].Key() == Some(key) && a <= calls[i].time < b
                 && Judged(step, prefix, calls, i).Admitted?
  }

  lemma ServedIsAdmitted(step: Stepper, prefix: string, calls: seq<Call>, key: string, policy: Policy, a: real, b: real)
    requires forall i :: 0 <= i < |calls| && calls[i].Key() == Some(key) ==> calls[i].policy == policy
    ensures Served(step, prefix, calls, key, a, b) == KeyAdmits(step, prefix, TraceOf(calls), key, policy.limit, a, b)
    ensures OneRoute(TraceOf(calls), key, policy)
  {
  }

  /** Both bounds, for what a limiter that serves any mixture of calls admits of one account and route. */
  lemma ServedWithinBound(prefix: string, calls: seq<Call>, key: string, policy: Policy, a: real, k: nat)
    requires forall i, j :: 0 <= i < j < |calls| ==> calls[i].time <= calls[j].time
    requires forall i :: 0 <= i < |calls| && calls[i].Key() == Some(key) ==> calls[i].policy == policy
    requires policy.limit > 0 && policy.interval > 0
    ensures |Served(RedisStep, prefix, calls, key, a, a + (k * policy.interval) as real)| <= (k + 1) * policy.limit - 1
    ensures |Served(CacheStep, "", calls, key, a, a + policy.interval as real)| <= policy.limit
  {
    ServedIsAdmitted(RedisStep, prefix, calls, key, policy, a, a + (k * policy.interval) as real);
    ServedIsAdmitted(CacheStep, "", calls, key, policy, a, a + policy.interval as real);
    MixedRedisBound(prefix, TraceOf(calls), key, policy, a, k);
    MixedCacheBound("", TraceOf(calls), key, policy, a);
  }
}
