/**
 What sessions act on, in every interleaving: a sweep on the leases that were over when it read the
 tables, and a create request on the containers that ran when it looked at each of them.
 */
module ProtocolOrigins {
  import opened Options
  import opened Tables
  import opened Protocol
  import opened ProtocolInvariant

  // ---- Sweeps ----

  /** The containers that a sweep in this phase has yet to deal with. */
  function Doomed(ph: Phase): set<Cid> {
    match ph
    case Sweeping(todo) => todo
    case Targeting(k, Some(rest)) => rest + {k}
    case Killing(k, _, Some(rest)) => rest + {k}
    case Deleting(k, Some(rest)) => rest + {k}
    case _ => {}
  }

  /** The session of a sweep reads the tables in the `m`-th step of the run. */
  ghost predicate ScansAt(c: Params, run: seq<State>, m: nat, p: Pid) {
    m + 1 < |run| && CanSweep(run[m], p, Scan) && run[m + 1] == DoSweep(c, run[m], p, Scan)
  }

  /** After its scan a sweep has to deal with exactly the instances whose lease is over. */
  lemma ScanTakesOverdue(c: Params, s: State, p: Pid, k: Cid)
    requires CanSweep(s, p, Scan)
    ensures k in Doomed(PhaseOf(DoSweep(c, s, p, Scan), p))
       <==> k in Seen(s, p).instances && Seen(s, p).instances[k].expires <= s.now.Floor
  {
  }

  lemma ServeDoomed(c: Params, s: State, p: Pid, step: ServeStep, q: Pid)
    requires CanServe(c, s, p, step)
    ensures Doomed(PhaseOf(DoServe(c, s, p, step), q)) <= Doomed(PhaseOf(s, q))
  {
    ServeFrame(c, s, p, step);
  }

  lemma SweepDoomed(c: Params, s: State, p: Pid, step: SweepStep, q: Pid)
    requires CanSweep(s, p, step) && !(step.Scan? && p == q)
    ensures Doomed(PhaseOf(DoSweep(c, s, p, step), q)) <= Doomed(PhaseOf(s, q))
  {
    SweepFrame(c, s, p, step);
  }

  lemma CreateDoomed(c: Params, s: State, p: Pid, step: CreateStep, q: Pid)
    requires CanCreate(c, s, p, step)
    ensures Doomed(PhaseOf(DoCreate(c, s, p, step), q)) <= Doomed(PhaseOf(s, q))
  {
    CreateFrame(c, s, p, step);
    if p == q {
      CreateNotSweep(c, s, p, step);
    }
  }

  lemma CreateNotSweep(c: Params, s: State, p: Pid, step: CreateStep)
    requires CanCreate(c, s, p, step)
    ensures Doomed(PhaseOf(DoCreate(c, s, p, step), p)) == {}
  {
  }

  /** Nothing but a scan gives a sweep anything to deal with. */
  lemma NextDoomed(c: Params, s: State, t: State, p: Pid)
    requires Next(c, s, t)
    ensures Doomed(PhaseOf(t, p)) <= Doomed(PhaseOf(s, p)) || (CanSweep(s, p, Scan) && t == DoSweep(c, s, p, Scan))
  {
    var step :| Enabled(c, s, step) && t == Do(c, s, step);
    match step
    case Create(q, create) => CreateDoomed(c, s, q, create, p);
    case Serve(q, serve) => ServeDoomed(c, s, q, serve, p);
    case Sweep(q, sweep) => if !(sweep.Scan? && q == p) { SweepDoomed(c, s, q, sweep, p); }
    case _ =>
  }

  /**
   Whatever a sweep targets, at any point of any run, had a lease that was over when the sweep read
   the tables, and the sweep has been in its body ever since.
   */
  lemma {:induction false} SweepTargetsOverdue(c: Params, run: seq<State>, n: nat, p: Pid) returns (m: nat)
    requires IsRun(c, run) && n < |run| && Doomed(PhaseOf(run[n], p)) != {}
    ensures m < n && ScansAt(c, run, m, p)
    ensures forall k :: k in Doomed(PhaseOf(run[n], p)) ==>
      k in Seen(run[m], p).instances && Seen(run[m], p).instances[k].expires <= run[m].now.Floor
    ensures forall j :: m < j <= n ==> SweepBody(PhaseOf(run[j], p))
  {
    if n > 0 {
      assert StepAt(c, run, n - 1);
      NextDoomed(c, run[n - 1], run[n], p);
      if Doomed(PhaseOf(run[n], p)) <= Doomed(PhaseOf(run[n - 1], p)) {
        m := SweepTargetsOverdue(c, run, n - 1, p);
      } else {
        m := n - 1;
        forall k | k in Doomed(PhaseOf(run[n], p))
          ensures k in Seen(run[m], p).instances && Seen(run[m], p).instances[k].expires <= run[m].now.Floor
        {
          ScanTakesOverdue(c, run[m], p, k);
        }
      }
    }
  }

  // ---- Creates ----

  /** A create request lists its account's rows in the `m`-th step of the run. */
  ghost predicate ListsAt(c: Params, run: seq<State>, m: nat, p: Pid, ph: Phase, rows: map<Cid, Instance>)
    requires ph.Pruning? || ph.Pruned?
  {
    && m + 1 < |run| && PhaseOf(run[m], p) == Checked(ph.account, ph.challenge)
    && rows == OwnedBy(c.cfg, View(run[m], p), ph.account)
  }

  /** The containers that ran when the request looked at them, at `when[k]`. */
  function Hits(run: seq<State>, when: map<Cid, nat>): set<Cid> {
    set k | k in when && when[k] < |run| && k in run[when[k]].running
  }

  /** The containers that did not. */
  function Missed(run: seq<State>, when: map<Cid, nat>): set<Cid> {
    set k | k in when && when[k] < |run| && k !in run[when[k]].running
  }

  function Kept(rows: map<Cid, Instance>, hits: set<Cid>): map<Cid, Instance> {
    map k | k in rows && k in hits :: rows[k]
  }

  /** How far the request has got with looking at the listed rows, in states after `m` and before `n`. */
  ghost predicate Counted(run: seq<State>, m: nat, n: nat, rows: map<Cid, Instance>, when: map<Cid, nat>, ph: Phase)
    requires n < |run| && (ph.Pruning? || ph.Pruned?)
  {
    && when.Keys <= rows.Keys && (forall k :: k in when ==> m < when[k] < n)
    && ph.active == Kept(rows, Hits(run, when))
    && (ph.Pruning? ==> ph.unchecked == rows - when.Keys && ph.stale == when.Keys - Hits(run, when))
    && (ph.Pruned? ==> when.Keys == rows.Keys)
  }

  /** The phases through which a request counts. */
  ghost predicate Counts(c: Params, s: State, t: State, p: Pid) {
    var ph, next := PhaseOf(s, p), PhaseOf(t, p);
    || next == ph
    || (ph.Checked? && next == Pruning(ph.account, ph.challenge, OwnedBy(c.cfg, View(s, p), ph.account), map[], {}))
    || (ph.Pruning? && ph.unchecked == map[] && next == Pruned(ph.account, ph.challenge, ph.active))
    || LooksAtOne(s, ph, next)
  }

  /** One look at container `k`. */
  predicate Looks(s: State, ph: Phase, next: Phase, k: Cid) {
    && ph.Pruning? && k in ph.unchecked
    && next == Pruning(ph.account, ph.challenge, ph.unchecked - {k},
                       if k in s.running then ph.active[k := ph.unchecked[k]] else ph.active,
                       if k in s.running then ph.stale else ph.stale + {k})
  }

  ghost predicate LooksAtOne(s: State, ph: Phase, next: Phase) { exists k: Cid :: Looks(s, ph, next, k) }

  lemma CreateCounts(c: Params, s: State, p: Pid, step: CreateStep)
    requires CanCreate(c, s, p, step)
    requires PhaseOf(DoCreate(c, s, p, step), p).Pruning? || PhaseOf(DoCreate(c, s, p, step), p).Pruned?
    ensures Counts(c, s, DoCreate(c, s, p, step), p)
  {
    match step
    case ListRows =>
    case CheckRow(k) => assert Looks(s, PhaseOf(s, p), PhaseOf(DoCreate(c, s, p, step), p), k);
    case CommitPrune =>
    case _ =>
  }

  lemma ServeCountsNot(c: Params, s: State, p: Pid, step: ServeStep)
    requires CanServe(c, s, p, step)
    ensures !PhaseOf(DoServe(c, s, p, step), p).Pruning? && !PhaseOf(DoServe(c, s, p, step), p).Pruned?
  {
  }

  lemma SweepCountsNot(c: Params, s: State, p: Pid, step: SweepStep)
    requires CanSweep(s, p, step)
    ensures !PhaseOf(DoSweep(c, s, p, step), p).Pruning? && !PhaseOf(DoSweep(c, s, p, step), p).Pruned?
  {
  }

  lemma NextCounts(c: Params, s: State, t: State, p: Pid)
    requires Next(c, s, t) && (PhaseOf(t, p).Pruning? || PhaseOf(t, p).Pruned?)
    ensures Counts(c, s, t, p)
  {
    var step :| Enabled(c, s, step) && t == Do(c, s, step);
    match step
    case Create(q, create) =>
      CreateFrame(c, s, q, create);
      if q == p { CreateCounts(c, s, p, create); }
    case Serve(q, serve) =>
      ServeFrame(c, s, q, serve);
      if q == p { ServeCountsNot(c, s, p, serve); }
    case Sweep(q, sweep) =>
      SweepFrame(c, s, q, sweep);
      if q == p { SweepCountsNot(c, s, p, sweep); }
    case _ =>
  }

  lemma HitsNext(run: seq<State>, when: map<Cid, nat>, k: Cid, n: nat)
    requires k !in when && n < |run|
    ensures Hits(run, when[k := n]) == Hits(run, when) + if k in run[n].running then {k} else {}
  {
  }

  lemma KeptNext(rows: map<Cid, Instance>, hits: set<Cid>, k: Cid)
    requires k in rows
    ensures Kept(rows, hits + {k}) == Kept(rows, hits)[k := rows[k]]
  {
  }

  lemma UncheckedNext(rows: map<Cid, Instance>, seen: set<Cid>, k: Cid)
    ensures rows - (seen + {k}) == (rows - seen) - {k}
  {
  }

  lemma StaleNext(when: map<Cid, nat>, k: Cid, n: nat, hits: set<Cid>, hit: bool)
    requires k !in when && hits <= when.Keys
    ensures when[k := n].Keys - (hits + if hit then {k} else {}) == (when.Keys - hits) + if hit then {} else {k}
  {
  }

  lemma LookCounted(run: seq<State>, m: nat, n: nat, rows: map<Cid, Instance>, when: map<Cid, nat>,
                    ph: Phase, next: Phase, k: Cid)
    requires n + 1 < |run| && m < n && ph.Pruning? && Counted(run, m, n, rows, when, ph)
    requires Looks(run[n], ph, next, k)
    ensures Counted(run, m, n + 1, rows, when[k := n], next)
  {
    HitsNext(run, when, k, n);
    KeptNext(rows, Hits(run, when), k);
    UncheckedNext(rows, when.Keys, k);
    StaleNext(when, k, n, Hits(run, when), k in run[n].running);
    assert when[k := n].Keys == when.Keys + {k};
    assert next.unchecked == rows - when[k := n].Keys;
  }

  /** Every request that counts has listed its account's rows and looked at them one by one since. */
  lemma {:induction false} CountedSince(c: Params, run: seq<State>, n: nat, p: Pid)
    returns (m: nat, rows: map<Cid, Instance>, when: map<Cid, nat>)
    requires IsRun(c, run) && n < |run| && (PhaseOf(run[n], p).Pruning? || PhaseOf(run[n], p).Pruned?)
    ensures m < n && ListsAt(c, run, m, p, PhaseOf(run[n], p), rows)
    ensures Counted(run, m, n, rows, when, PhaseOf(run[n], p))
  {
    if n > 0 {
      assert StepAt(c, run, n - 1);
      NextCounts(c, run[n - 1], run[n], p);
      var ph, next := PhaseOf(run[n - 1], p), PhaseOf(run[n], p);
      if ph.Checked? {
        m, rows, when := n - 1, OwnedBy(c.cfg, View(run[n - 1], p), ph.account), map[];
        FirstCounted(run, m, n, rows, next);
      } else {
        m, rows, when := CountedSince(c, run, n - 1, p);
        if LooksAtOne(run[n - 1], ph, next) {
          var k: Cid :| Looks(run[n - 1], ph, next, k);
          LookCounted(run, m, n - 1, rows, when, ph, next, k);
          when := when[k := n - 1];
        } else {
          StillCounted(run, m, n - 1, rows, when, ph, next);
        }
      }
    }
  }

  lemma FirstCounted(run: seq<State>, m: nat, n: nat, rows: map<Cid, Instance>, next: Phase)
    requires n < |run| && next.Pruning? && next.unchecked == rows && next.active == map[] && next.stale == {}
    ensures Counted(run, m, n, rows, map[], next)
  {
    var none: map<Cid, nat> := map[];
    assert Kept(rows, Hits(run, none)) == map[];
    assert rows - none.Keys == rows;
  }

  lemma StillCounted(run: seq<State>, m: nat, n: nat, rows: map<Cid, Instance>, when: map<Cid, nat>,
                     ph: Phase, next: Phase)
    requires n + 1 < |run| && (ph.Pruning? || ph.Pruned?) && Counted(run, m, n, rows, when, ph)
    requires next == ph || (ph.Pruning? && ph.unchecked == map[] && next == Pruned(ph.account, ph.challenge, ph.active))
    ensures Counted(run, m, n + 1, rows, when, next)
  {
    if ph.Pruning? && ph.unchecked == map[] {
      AllSeen(rows, when.Keys);
    }
  }

  lemma AllSeen(rows: map<Cid, Instance>, seen: set<Cid>)
    requires seen <= rows.Keys && rows - seen == map[]
    ensures seen == rows.Keys
  {
    assert (rows - seen).Keys == rows.Keys - seen;
    assert forall k :: k in rows && k !in seen ==> k in (rows - seen).Keys;
  }

  lemma KeptSize(rows: map<Cid, Instance>, hits: set<Cid>)
    requires hits <= rows.Keys
    ensures Kept(rows, hits).Keys == hits && |Kept(rows, hits)| == |hits|
  {
    assert Kept(rows, hits).Keys == hits;
  }

  /**
   A create request is let through exactly if, of the account's rows it has listed, fewer than
   `max_containers` had a running container when it looked, none of them of this challenge.
   */
  lemma LetThroughExactly(c: Params, run: seq<State>, n: nat, p: Pid)
    returns (m: nat, rows: map<Cid, Instance>, when: map<Cid, nat>)
    requires IsRun(c, run) && n + 1 < |run| && PhaseOf(run[n], p).Pruned?
    requires run[n + 1] == DoCreate(c, run[n], p, Decide)
    ensures m < n && ListsAt(c, run, m, p, PhaseOf(run[n], p), rows)
    ensures when.Keys == rows.Keys && forall k :: k in when ==> m < when[k] < n
    ensures var found := set k | k in when && k in run[when[k]].running;
      PhaseOf(run[n + 1], p).Launching?
      <==> |found| < c.max && forall k :: k in found ==> rows[k].challenge != PhaseOf(run[n], p).challenge
  {
    m, rows, when := CountedSince(c, run, n, p);
    assert Hits(run, when) == set k | k in when && k in run[when[k]].running;
    KeptSize(rows, Hits(run, when));
    DecideOn(c, run[n], p, rows, Hits(run, when));
  }

  lemma DecideOn(c: Params, s: State, p: Pid, rows: map<Cid, Instance>, found: set<Cid>)
    requires PhaseOf(s, p).Pruned? && PhaseOf(s, p).active == Kept(rows, found)
    requires found <= rows.Keys && |Kept(rows, found)| == |found|
    ensures PhaseOf(DoCreate(c, s, p, Decide), p).Launching?
       <==> |found| < c.max && forall k :: k in found ==> rows[k].challenge != PhaseOf(s, p).challenge
  {
    var active := PhaseOf(s, p).active;
    assert forall k :: k in active <==> k in found;
    assert forall k :: k in found ==> active[k] == rows[k];
  }

  /** The prune forgets exactly the listed rows whose container did not run when the request looked. */
  lemma PruneForgetsStopped(c: Params, run: seq<State>, n: nat, p: Pid)
    returns (m: nat, rows: map<Cid, Instance>, when: map<Cid, nat>)
    requires IsRun(c, run) && n + 1 < |run| && CanCreate(c, run[n], p, CommitPrune)
    requires run[n + 1] == DoCreate(c, run[n], p, CommitPrune)
    ensures m < n && ListsAt(c, run, m, p, PhaseOf(run[n], p), rows)
    ensures when.Keys == rows.Keys && forall k :: k in when ==> m < when[k] < n
    ensures run[n + 1].db == Teardown(c.cfg, run[n].db, Missed(run, when))
  {
    m, rows, when := CountedSince(c, run, n, p);
    ForgetsOn(c, run, m, n, p, rows, when);
  }

  lemma ForgetsOn(c: Params, run: seq<State>, m: nat, n: nat, p: Pid, rows: map<Cid, Instance>, when: map<Cid, nat>)
    requires n < |run| && CanCreate(c, run[n], p, CommitPrune)
    requires Counted(run, m, n, rows, when, PhaseOf(run[n], p))
    ensures when.Keys == rows.Keys
    ensures DoCreate(c, run[n], p, CommitPrune).db
         == Teardown(c.cfg, run[n].db, Missed(run, when))
  {
    AllSeen(rows, when.Keys);
    StoppedAre(run, when);
    PruneOn(c, run[n], p, PhaseOf(run[n], p).stale);
  }

  lemma StoppedAre(run: seq<State>, when: map<Cid, nat>)
    requires forall k :: k in when ==> when[k] < |run|
    ensures when.Keys - Hits(run, when) == Missed(run, when)
  {
  }

  lemma PruneOn(c: Params, s: State, p: Pid, stale: set<Cid>)
    requires CanCreate(c, s, p, CommitPrune) && stale == PhaseOf(s, p).stale
    ensures DoCreate(c, s, p, CommitPrune).db == Teardown(c.cfg, s.db, stale)
  {
    if PhaseOf(s, p).stale == {} {
      TeardownNothing(c.cfg, s.db, {});
    }
  }
}
