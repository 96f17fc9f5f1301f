/**
 Where leases come from: every lease in the table is a clock reading that some request took
 earlier in the run, which decides exactly when overlapping renewals shorten one.
 */
module ProtocolLeases {
  import opened Tables
  import opened Protocol
  import opened ProtocolInvariant

  /** A session in this phase is about to read the clock for container `k`. */
  predicate AboutToRead(ph: Phase, k: Cid) { ph == Stamping(k) || (ph.Starting? && ph.cid == k) }

  /** A session in this phase has yet to commit the lease end `e` that it has computed for `k`. */
  predicate Carries(ph: Phase, k: Cid, e: int, lease: nat) {
    ph == Renewing(k, e) || (ph.Ready? && ph.cid == k && ph.timestamp + lease == e)
  }

  ghost predicate Carried(c: Params, s: State, k: Cid, e: int) { exists p :: Carries(PhaseOf(s, p), k, e, c.lease) }

  /** In the `w`-th step of the run some request reads the clock and computes the lease end `e` for `k`. */
  ghost predicate StampedBy(c: Params, run: seq<State>, w: nat, k: Cid, e: int) {
    && w + 1 < |run|
    && e == run[w].now.Floor + c.lease
    && exists p :: AboutToRead(PhaseOf(run[w], p), k) && Carries(PhaseOf(run[w + 1], p), k, e, c.lease)
  }

  ghost predicate Stamped(c: Params, run: seq<State>, n: nat, k: Cid, e: int) {
    exists w: nat :: w < n && StampedBy(c, run, w, k, e)
  }

  // ---- One step ----

  /** Only `Healthy` and `Stamp` read the clock; no other step of a session gives it anything to carry. */
  lemma CreateCarries(c: Params, s: State, p: Pid, step: CreateStep, q: Pid, k: Cid, e: int)
    requires CanCreate(c, s, p, step) && Carries(PhaseOf(DoCreate(c, s, p, step), q), k, e, c.lease)
    ensures Carries(PhaseOf(s, q), k, e, c.lease) || (AboutToRead(PhaseOf(s, q), k) && e == s.now.Floor + c.lease)
  {
    if q != p {
      CreateFrame(c, s, p, step);
    } else if !step.Healthy? {
      CreateTakesNothing(c, s, p, step);
    }
  }

  lemma CreateTakesNothing(c: Params, s: State, p: Pid, step: CreateStep)
    requires CanCreate(c, s, p, step) && !step.Healthy?
    ensures var ph := PhaseOf(DoCreate(c, s, p, step), p); !ph.Renewing? && !ph.Ready?
  {
  }

  lemma ServeCarries(c: Params, s: State, p: Pid, step: ServeStep, q: Pid, k: Cid, e: int)
    requires CanServe(c, s, p, step) && Carries(PhaseOf(DoServe(c, s, p, step), q), k, e, c.lease)
    ensures Carries(PhaseOf(s, q), k, e, c.lease) || (AboutToRead(PhaseOf(s, q), k) && e == s.now.Floor + c.lease)
  {
  }

  lemma SweepCarries(c: Params, s: State, p: Pid, step: SweepStep, q: Pid, k: Cid, e: int)
    requires CanSweep(s, p, step) && Carries(PhaseOf(DoSweep(c, s, p, step), q), k, e, c.lease)
    ensures Carries(PhaseOf(s, q), k, e, c.lease)
  {
  }

  /** A session carries on, reads the clock, or carries nothing. */
  lemma StepCarries(c: Params, s: State, step: Step, q: Pid, k: Cid, e: int)
    requires Enabled(c, s, step) && Carries(PhaseOf(Do(c, s, step), q), k, e, c.lease)
    ensures Carries(PhaseOf(s, q), k, e, c.lease) || (AboutToRead(PhaseOf(s, q), k) && e == s.now.Floor + c.lease)
  {
    match step
    case Create(p, create) => CreateCarries(c, s, p, create, q, k, e);
    case Serve(p, serve) => ServeCarries(c, s, p, serve, q, k, e);
    case Sweep(p, sweep) => SweepCarries(c, s, p, sweep, q, k, e);
    case _ =>
  }

  lemma NextCarries(c: Params, s: State, t: State, q: Pid, k: Cid, e: int)
    requires Next(c, s, t) && Carries(PhaseOf(t, q), k, e, c.lease)
    ensures Carries(PhaseOf(s, q), k, e, c.lease) || (AboutToRead(PhaseOf(s, q), k) && e == s.now.Floor + c.lease)
  {
    var step :| Enabled(c, s, step) && t == Do(c, s, step);
    StepCarries(c, s, step, q, k, e);
  }

  /** A lease end in the table was there before the step, or the acting session carried it. */
  lemma CreateRecords(c: Params, s: State, p: Pid, step: CreateStep, k: Cid)
    requires CanCreate(c, s, p, step) && k in DoCreate(c, s, p, step).db.instances
    ensures var e := DoCreate(c, s, p, step).db.instances[k].expires;
      (k in s.db.instances && s.db.instances[k].expires == e) || Carries(PhaseOf(s, p), k, e, c.lease)
  {
  }

  lemma ServeRecords(c: Params, s: State, p: Pid, step: ServeStep, k: Cid)
    requires CanServe(c, s, p, step) && k in DoServe(c, s, p, step).db.instances
    ensures var e := DoServe(c, s, p, step).db.instances[k].expires;
      (k in s.db.instances && s.db.instances[k].expires == e) || Carries(PhaseOf(s, p), k, e, c.lease)
  {
    ServeRows(c, s, p, step);
  }

  lemma StepRecords(c: Params, s: State, step: Step, k: Cid)
    requires Enabled(c, s, step) && k in Do(c, s, step).db.instances
    ensures var e := Do(c, s, step).db.instances[k].expires;
      (k in s.db.instances && s.db.instances[k].expires == e) || Carried(c, s, k, e)
  {
    match step
    case Create(p, create) => CreateRecords(c, s, p, create, k);
    case Serve(p, serve) => ServeRecords(c, s, p, serve, k);
    case _ =>
  }

  lemma NextRecords(c: Params, s: State, t: State, k: Cid)
    requires Next(c, s, t) && k in t.db.instances
    ensures var e := t.db.instances[k].expires;
      (k in s.db.instances && s.db.instances[k].expires == e) || Carried(c, s, k, e)
  {
    var step :| Enabled(c, s, step) && t == Do(c, s, step);
    StepRecords(c, s, step, k);
  }

  lemma CreateKeepsTime(c: Params, s: State, p: Pid, step: CreateStep)
    requires CanCreate(c, s, p, step)
    ensures DoCreate(c, s, p, step).now == s.now
  {
  }

  lemma ClockStep(c: Params, s: State, step: Step)
    requires Enabled(c, s, step)
    ensures s.now <= Do(c, s, step).now
  {
    match step
    case Create(p, create) => CreateKeepsTime(c, s, p, create);
    case Serve(p, serve) => ServeFrame(c, s, p, serve);
    case Sweep(p, sweep) => SweepFrame(c, s, p, sweep);
    case _ =>
  }

  lemma ClockNext(c: Params, s: State, t: State)
    requires Next(c, s, t)
    ensures s.now <= t.now
  {
    var step :| Enabled(c, s, step) && t == Do(c, s, step);
    ClockStep(c, s, step);
  }

  // ---- Whole runs ----

  lemma {:induction false} ClockAdvances(c: Params, run: seq<State>, i: nat, j: nat)
    requires IsRun(c, run) && i <= j < |run|
    ensures run[i].now <= run[j].now
    decreases j
  {
    if i < j {
      ClockAdvances(c, run, i, j - 1);
      assert StepAt(c, run, j - 1);
      ClockNext(c, run[j - 1], run[j]);
    }
  }

  /** What a session carries it has read from the clock. */
  lemma {:induction false} CarriedWasStamped(c: Params, run: seq<State>, n: nat, p: Pid, k: Cid, e: int)
    requires IsRun(c, run) && n < |run| && Carries(PhaseOf(run[n], p), k, e, c.lease)
    ensures Stamped(c, run, n, k, e)
  {
    if n > 0 {
      assert StepAt(c, run, n - 1);
      NextCarries(c, run[n - 1], run[n], p, k, e);
      if Carries(PhaseOf(run[n - 1], p), k, e, c.lease) {
        CarriedWasStamped(c, run, n - 1, p, k, e);
      } else {
        assert StampedBy(c, run, n - 1, k, e);
      }
    }
  }

  /** A lease end that was not in the table before the last step has been read from the clock. */
  lemma LastStepRecords(c: Params, run: seq<State>, n: nat, k: Cid)
    requires IsRun(c, run) && n + 1 < |run| && k in run[n + 1].db.instances
    ensures (k in run[n].db.instances && run[n].db.instances[k].expires == run[n + 1].db.instances[k].expires)
         || Stamped(c, run, n, k, run[n + 1].db.instances[k].expires)
  {
    var s, t := run[n], run[n + 1];
    var e := t.db.instances[k].expires;
    assert StepAt(c, run, n);
    NextRecords(c, s, t, k);
    if Carried(c, s, k, e) {
      var p :| Carries(PhaseOf(s, p), k, e, c.lease);
      CarriedWasStamped(c, run, n, p, k, e);
    }
  }

  /** Every lease in the table ends a full length after a clock reading taken for its container. */
  lemma {:induction false} LeaseWasStamped(c: Params, run: seq<State>, n: nat, k: Cid)
    requires IsRun(c, run) && n < |run| && k in run[n].db.instances
    ensures Stamped(c, run, n, k, run[n].db.instances[k].expires)
  {
    if n > 0 {
      LastStepRecords(c, run, n - 1, k);
      if !Stamped(c, run, n - 1, k, run[n].db.instances[k].expires) {
        LeaseWasStamped(c, run, n - 1, k);
      }
    }
  }

  /**
   A renewal that reads the clock at `i` and commits from state `j` shortens the lease exactly if
   the lease in the table was computed meanwhile, from a later second of the clock.
   */
  lemma RenewalShortensExactly(c: Params, run: seq<State>, i: nat, j: nat, p: Pid)
    requires IsRun(c, run) && i < j < |run|
    requires PhaseOf(run[i], p).Stamping? && run[i + 1] == Do(c, run[i], Serve(p, Stamp))
    requires PhaseOf(run[j], p) == PhaseOf(run[i + 1], p) && PhaseOf(run[i], p).target in run[j].db.instances
    ensures var k := PhaseOf(run[i], p).target; var lease := run[j].db.instances[k].expires;
      DoServe(c, run[j], p, CommitRenew).db.instances[k].expires < lease
      <==> exists w: nat :: i < w < j && run[i].now.Floor < run[w].now.Floor && StampedBy(c, run, w, k, lease)
  {
    var k := PhaseOf(run[i], p).target;
    var lease := run[j].db.instances[k].expires;
    LeaseWasStamped(c, run, j, k);
    if run[i].now.Floor + c.lease < lease {
      var w: nat :| w < j && StampedBy(c, run, w, k, lease);
      if w <= i {
        ClockAdvances(c, run, w, i);
      }
    }
  }
}
