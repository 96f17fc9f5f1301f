/**
 Why the precautions are there: concrete interleavings that break a guarantee as soon as the
 named lock or the rollback inside it is missing, or when two renewals overlap.
 */
module ProtocolNecessity {
  import opened Options
  import opened Sets
  import opened Tables
  import opened Ledger
  import opened Protocol
  import opened ProtocolInvariant
  import opened ProtocolSafety
  import opened ProtocolRequests

  /** What a create request sees of the table once it reads its account's rows. */
  function Sees(c: Params, s: State, p: Pid): map<Cid, Instance> {
    if c.rollback then s.db.instances else View(s, p)
  }

  /** From there to the moment before launch, when the session sees an empty table. */
  lemma Count(c: Params, run: seq<State>, p: Pid) returns (longer: seq<State>)
    requires IsRun(c, run) && c.max >= 1
    requires PhaseOf(Last(run), p).Fresh? && PhaseOf(Last(run), p).challenge in c.cfg.challenges
    requires View(Last(run), p) == map[]
    ensures IsRun(c, longer) && OnlyMoved(Last(run), Last(longer), p)
    ensures PhaseOf(Last(longer), p) == Launching(PhaseOf(Last(run), p).account, PhaseOf(Last(run), p).challenge)
  {
    longer := List(c, run, p);
    assert OwnedBy(c.cfg, map[], PhaseOf(Last(run), p).account) == map[];
    longer := GrowCreate(c, longer, p, CommitPrune);
    longer := GrowCreate(c, longer, p, Decide);
  }

  lemma Prepare(c: Params, run: seq<State>, p: Pid, account: int, challenge: int) returns (longer: seq<State>)
    requires IsRun(c, run) && c.max >= 1 && challenge in c.cfg.challenges
    requires PhaseOf(Last(run), p).Idle? && Sees(c, Last(run), p) == map[]
    requires c.locking ==> account !in Last(run).locks
    ensures IsRun(c, longer) && PhaseOf(Last(longer), p) == Launching(account, challenge)
    ensures Others(Last(longer), p) == Others(Last(run), p)
    ensures Last(longer) == Last(run).(sessions := Last(longer).sessions,
                                       locks := if c.locking then Last(run).locks[account := p] else Last(run).locks)
  {
    longer := Enter(c, run, p, account, challenge);
    longer := Count(c, longer, p);
  }

  // ---- Runs that exceed the limit ----

  lemma {:induction false} Distinct<T>(from: set<T>, n: nat) returns (chosen: seq<T>)
    requires n <= |from|
    ensures |chosen| == n && forall i :: 0 <= i < n ==> chosen[i] in from
    ensures forall i, j :: 0 <= i < j < n ==> chosen[i] != chosen[j]
  {
    chosen := [];
    if n > 0 {
      var x :| x in from;
      chosen := Distinct(from - {x}, n - 1);
      chosen := chosen + [x];
    }
  }

  /**
   A session that will launch whatever the others record: without the rollback it has read the
   empty table before its request waits for the lock, and without the lock it has counted already.
   */
  ghost predicate Poised(c: Params, s: State, p: Pid, account: int, challenge: int) {
    if c.rollback then PhaseOf(s, p) == Launching(account, challenge) else Sess(s, p) == Session(Idle, Some(EMPTY))
  }

  lemma {:induction false} PoiseAll(c: Params, account: int, chosen: seq<int>, n: nat) returns (run: seq<State>)
    requires !Safe(c) && c.max >= 1 && n <= |chosen| && forall i :: 0 <= i < |chosen| ==> chosen[i] in c.cfg.challenges
    ensures IsRun(c, run) && Last(run) == START.(sessions := Last(run).sessions)
    ensures forall p: Pid :: p < n ==> Poised(c, Last(run), p, account, chosen[p])
    ensures forall p: Pid :: n <= p ==> Sess(Last(run), p) == Session(Idle, None)
  {
    if n == 0 {
      run := StartRun(c);
    } else {
      run := PoiseAll(c, account, chosen, n - 1);
      var before := Last(run);
      if c.rollback {
        run := Prepare(c, run, n - 1, account, chosen[n - 1]);
      } else {
        run := GrowServe(c, run, n - 1, Open);
      }
      OthersSame(before, Last(run), n - 1);
    }
  }

  /** The first `n` sessions have launched one container each, for different challenges. */
  ghost predicate LaunchedUpTo(c: Params, s: State, account: int, chosen: seq<int>, n: nat)
    requires n <= |chosen|
  {
    && (forall k: Cid :: k in s.db.instances <==> k < n)
    && (forall k: Cid :: k < n ==>
          s.db.instances[k].owner == OwnerOf(c.cfg, account) && s.db.instances[k].challenge == chosen[k])
    && (forall k: Cid :: k in s.launched ==> k < n)
    && account !in s.locks
  }

  /** One more of them does, although the others have recorded theirs meanwhile. */
  lemma LaunchNext(c: Params, run: seq<State>, account: int, chosen: seq<int>, n: nat) returns (longer: seq<State>)
    requires !Safe(c) && c.max >= 1 && n < |chosen| && chosen[n] in c.cfg.challenges
    requires forall i, j :: 0 <= i < j < |chosen| ==> chosen[i] != chosen[j]
    requires IsRun(c, run) && LaunchedUpTo(c, Last(run), account, chosen, n)
    requires Poised(c, Last(run), n, account, chosen[n])
    ensures IsRun(c, longer) && LaunchedUpTo(c, Last(longer), account, chosen, n + 1)
    ensures forall q :: q != n ==> Sess(Last(longer), q) == Sess(Last(run), q)
  {
    longer := run;
    if !c.rollback {
      longer := Prepare(c, run, n, account, chosen[n]);
    }
    longer := Boot(c, longer, n, n);
    longer := Record(c, longer, n);
    OthersSame(Last(run), Last(longer), n);
  }

  lemma {:induction false} LaunchAll(c: Params, account: int, chosen: seq<int>, n: nat) returns (run: seq<State>)
    requires !Safe(c) && c.max >= 1 && n <= |chosen| && forall i :: 0 <= i < |chosen| ==> chosen[i] in c.cfg.challenges
    requires forall i, j :: 0 <= i < j < |chosen| ==> chosen[i] != chosen[j]
    ensures IsRun(c, run) && LaunchedUpTo(c, Last(run), account, chosen, n)
    ensures forall p: Pid :: n <= p < |chosen| ==> Poised(c, Last(run), p, account, chosen[p])
  {
    if n == 0 {
      run := PoiseAll(c, account, chosen, |chosen|);
    } else {
      run := LaunchAll(c, account, chosen, n - 1);
      run := LaunchNext(c, run, account, chosen, n - 1);
    }
  }

  /**
   If the lock or the rollback inside it is missing and there are more challenges than an account
   may run, some run gets any given account past its limit.
   */
  lemma LimitExceeded(c: Params, account: int) returns (run: seq<State>)
    requires !Safe(c) && 1 <= c.max < |c.cfg.challenges|
    ensures IsRun(c, run) && |Rows(c, Last(run), account)| > c.max
  {
    var n := c.max + 1;
    var chosen := Distinct(c.cfg.challenges.Keys, n);
    run := LaunchAll(c, account, chosen, n);
    RangeIs(0, n);
    SubsetCard(Range(0, n), Rows(c, Last(run), account));
  }

  /**
   Without the rollback the lock is not enough: sessions that read the table before they waited
   for the lock count rows in their old snapshots and launch past the limit.
   */
  lemma RollbackIsNeeded(c: Params, account: int) returns (run: seq<State>)
    requires !c.rollback && 1 <= c.max < |c.cfg.challenges|
    ensures IsRun(c, run) && |Rows(c, Last(run), account)| > c.max
  {
    run := LimitExceeded(c, account);
  }

  /** Without the lock, requests for different challenges all pass the count. */
  lemma LockIsNeeded(c: Params, account: int) returns (run: seq<State>)
    requires !c.locking && 1 <= c.max < |c.cfg.challenges|
    ensures IsRun(c, run) && |Rows(c, Last(run), account)| > c.max
  {
    run := LimitExceeded(c, account);
  }

  // ---- The limit is reached ----

  /** `n` undisturbed creates for different challenges have launched one container each. */
  ghost predicate RunningUpTo(c: Params, s: State, account: int, chosen: seq<int>, n: nat)
    requires n <= |chosen|
  {
    && LaunchedUpTo(c, s, account, chosen, n) && s.running == Range(0, n)
    && forall p :: Sess(s, p) == Session(Idle, None)
  }

  lemma RunNext(c: Params, run: seq<State>, account: int, chosen: seq<int>, n: nat) returns (longer: seq<State>)
    requires IsRun(c, run) && n < |chosen| && n < c.max && chosen[n] in c.cfg.challenges
    requires forall i, j :: 0 <= i < j < |chosen| ==> chosen[i] != chosen[j]
    requires RunningUpTo(c, Last(run), account, chosen, n)
    ensures IsRun(c, longer) && RunningUpTo(c, Last(longer), account, chosen, n + 1)
  {
    var s := Last(run);
    AliveUpTo(c, s, account, chosen, n);
    TeardownNothing(c.cfg, s.db, OwnedBy(c.cfg, s.db.instances, account).Keys - s.running);
    longer := CreateAlone(c, run, 0, account, chosen[n], n);
    var t := Last(longer);
    LaunchedNext(c, s, t, account, chosen, n, RowOf(c, s, account, chosen[n]));
    assert t.running == Range(0, n + 1);
    AllIdle(s, t, 0);
  }

  lemma AllIdle(s: State, t: State, p: Pid)
    requires (forall q :: Sess(s, q) == Session(Idle, None)) && Sess(t, p) == Session(Idle, None)
    requires Others(t, p) == Others(s, p)
    ensures forall q :: Sess(t, q) == Session(Idle, None)
  {
    OthersSame(s, t, p);
  }

  lemma LaunchedNext(c: Params, s: State, t: State, account: int, chosen: seq<int>, n: nat, inst: Instance)
    requires n < |chosen| && LaunchedUpTo(c, s, account, chosen, n)
    requires t.db.instances == s.db.instances[n := inst] && t.locks == s.locks
    requires inst.owner == OwnerOf(c.cfg, account) && inst.challenge == chosen[n]
    requires t.launched.Keys == s.launched.Keys + {n}
    ensures LaunchedUpTo(c, t, account, chosen, n + 1)
  {
  }

  lemma AliveUpTo(c: Params, s: State, account: int, chosen: seq<int>, n: nat)
    requires n < |chosen| && n < c.max && LaunchedUpTo(c, s, account, chosen, n) && s.running == Range(0, n)
    requires forall i, j :: 0 <= i < j < |chosen| ==> chosen[i] != chosen[j]
    ensures Admits(c, s, account, chosen[n])
    ensures OwnedBy(c.cfg, s.db.instances, account).Keys - s.running == {}
  {
    RangeIs(0, n);
    var alive := Alive(c, s, account);
    assert alive.Keys == Range(0, n);
    assert |alive| == |alive.Keys|;
  }

  lemma {:induction false} RunEach(c: Params, account: int, chosen: seq<int>, n: nat) returns (run: seq<State>)
    requires n <= |chosen| && n <= c.max && forall i :: 0 <= i < |chosen| ==> chosen[i] in c.cfg.challenges
    requires forall i, j :: 0 <= i < j < |chosen| ==> chosen[i] != chosen[j]
    ensures IsRun(c, run) && RunningUpTo(c, Last(run), account, chosen, n)
  {
    if n == 0 {
      run := StartRun(c);
    } else {
      run := RunEach(c, account, chosen, n - 1);
      run := RunNext(c, run, account, chosen, n - 1);
    }
  }

  /**
   Any number of instances up to the limit is granted, as long as there are challenges for them:
   the limit is not only kept but reached, by any account, lock or no lock.
   */
  lemma LimitIsReached(c: Params, account: int, n: nat) returns (run: seq<State>)
    requires n <= c.max && n <= |c.cfg.challenges|
    ensures IsRun(c, run) && |Rows(c, Last(run), account)| == n && Rows(c, Last(run), account) <= Last(run).running
  {
    var chosen := Distinct(c.cfg.challenges.Keys, n);
    run := RunEach(c, account, chosen, n);
    RangeIs(0, n);
    assert Rows(c, Last(run), account) == Range(0, n);
  }

  // ---- Exactly when the limit holds ----

  ghost predicate LimitHolds(c: Params) {
    forall run, n, account :: IsRun(c, run) && 0 <= n < |run| ==> |Rows(c, run[n], account)| <= AtLeastZero(c.max)
  }

  /** The unique constraint bounds an account's rows by the number of challenges, lock or no lock. */
  lemma RowsWithinChallenges(c: Params, run: seq<State>, n: nat, account: int)
    requires IsRun(c, run) && n < |run|
    ensures |Rows(c, run[n], account)| <= |c.cfg.challenges|
  {
    RunInv(c, run, n);
    SoundRowsCard(c, run[n], account);
  }

  lemma SoundRowsCard(c: Params, s: State, account: int)
    requires SoundInstances(c.cfg, s.db)
    ensures |Rows(c, s, account)| <= |c.cfg.challenges|
  {
    var of := (k: Cid) => if k in s.db.instances then s.db.instances[k].challenge else 0;
    ImageCard<Cid, int>(Rows(c, s, account), c.cfg.challenges.Keys, of);
  }

  /** A create that is about to launch has been let through, which a limit of zero never does. */
  ghost predicate NothingLaunched(s: State) {
    && s.db.instances == map[]
    && forall p :: !PhaseOf(s, p).Launching? && !PhaseOf(s, p).Starting? && !PhaseOf(s, p).Ready?
  }

  /** A step of one session keeps that, if the session itself does not get to launch. */
  lemma StaysUnlaunched(s: State, t: State, p: Pid)
    requires NothingLaunched(s) && t.db.instances == map[]
    requires forall q :: q != p ==> Sess(t, q) == Sess(s, q)
    requires !PhaseOf(t, p).Launching? && !PhaseOf(t, p).Starting? && !PhaseOf(t, p).Ready?
    ensures NothingLaunched(t)
  {
    forall q
      ensures !PhaseOf(t, q).Launching? && !PhaseOf(t, q).Starting? && !PhaseOf(t, q).Ready?
    {
      assert q != p ==> Sess(t, q) == Sess(s, q) && PhaseOf(t, q) == PhaseOf(s, q);
    }
  }

  lemma CreateLaunchesNothing(c: Params, s: State, p: Pid, step: CreateStep)
    requires c.max <= 0 && NothingLaunched(s) && CanCreate(c, s, p, step)
    ensures NothingLaunched(DoCreate(c, s, p, step))
  {
    var t := DoCreate(c, s, p, step);
    assert t.db.instances == map[];
    StaysUnlaunched(s, t, p);
  }

  lemma ServeLaunchesNothing(c: Params, s: State, p: Pid, step: ServeStep)
    requires NothingLaunched(s) && CanServe(c, s, p, step)
    ensures NothingLaunched(DoServe(c, s, p, step))
  {
    ServeFrame(c, s, p, step);
    ServeRows(c, s, p, step);
    var t := DoServe(c, s, p, step);
    assert t.db.instances.Keys == {};
    StaysUnlaunched(s, t, p);
  }

  lemma SweepLaunchesNothing(c: Params, s: State, p: Pid, step: SweepStep)
    requires NothingLaunched(s) && CanSweep(s, p, step)
    ensures NothingLaunched(DoSweep(c, s, p, step))
  {
    SweepFrame(c, s, p, step);
    StaysUnlaunched(s, DoSweep(c, s, p, step), p);
  }

  lemma SameSessionsLaunchNothing(s: State, t: State)
    requires NothingLaunched(s) && t.sessions == s.sessions && t.db == s.db
    ensures NothingLaunched(t)
  {
    assert forall p :: PhaseOf(t, p) == PhaseOf(s, p);
  }

  lemma StepLaunchesNothing(c: Params, s: State, step: Step)
    requires c.max <= 0 && NothingLaunched(s) && Enabled(c, s, step)
    ensures NothingLaunched(Do(c, s, step))
  {
    match step
    case Create(p, create) => CreateLaunchesNothing(c, s, p, create);
    case Serve(p, serve) => ServeLaunchesNothing(c, s, p, serve);
    case Sweep(p, sweep) => SweepLaunchesNothing(c, s, p, sweep);
    case _ => SameSessionsLaunchNothing(s, Do(c, s, step));
  }

  lemma NextLaunchesNothing(c: Params, s: State, t: State)
    requires c.max <= 0 && NothingLaunched(s) && Next(c, s, t)
    ensures NothingLaunched(t)
  {
    var step :| Enabled(c, s, step) && t == Do(c, s, step);
    StepLaunchesNothing(c, s, step);
  }

  lemma {:induction false} RunLaunchesNothing(c: Params, run: seq<State>, n: nat)
    requires IsRun(c, run) && n < |run| && c.max <= 0
    ensures NothingLaunched(run[n])
  {
    if n > 0 {
      RunLaunchesNothing(c, run, n - 1);
      assert StepAt(c, run, n - 1);
      NextLaunchesNothing(c, run[n - 1], run[n]);
    }
  }

  /**
   Every run of a deployment keeps every account within the limit exactly if it has the named
   lock with the rollback inside it, or no more challenges than the limit, or no launches at all.
   */
  lemma LimitHoldsExactly(c: Params)
    ensures LimitHolds(c) <==> Safe(c) || |c.cfg.challenges| <= c.max || c.max <= 0
  {
    if Safe(c) || |c.cfg.challenges| <= c.max || c.max <= 0 {
      forall run, n, account | IsRun(c, run) && 0 <= n < |run|
        ensures |Rows(c, run[n], account)| <= AtLeastZero(c.max)
      {
        if Safe(c) {
          CapacityHolds(c, run, n, account);
        } else if c.max <= 0 {
          RunLaunchesNothing(c, run, n);
          assert Rows(c, run[n], account) == {};
        } else {
          RowsWithinChallenges(c, run, n, account);
        }
      }
    } else {
      var run := LimitExceeded(c, 0);
      assert |Rows(c, run[|run| - 1], 0)| > AtLeastZero(c.max);
    }
  }

  // ---- Overlapping renewals ----

  const ONE_CHALLENGE := Params(Config(true, map[1 := Challenge(Random, "", None, "")]), 1, 60, true, true)

  /** Account 7's instance, with a lease of 60 seconds from time 0. */
  lemma OneInstance() returns (run: seq<State>)
    ensures IsRun(ONE_CHALLENGE, run)
    ensures var s := Last(run);
      && s.now == 0.0 && 0 in s.running
      && s.db == Launch(EMPTY, 0, Instance(1, OwnerOf(ONE_CHALLENGE.cfg, 7), "", "flag", 0, 60))
      && forall p :: Sess(s, p) == Session(Idle, None)
  {
    var c := ONE_CHALLENGE;
    run := StartRun(c);
    run := Prepare(c, run, 0, 7, 1);
    run := Boot(c, run, 0, 0);
    run := Record(c, run, 0);
    OthersSame(START, Last(run), 0);
  }

  /** Two overlapping renewals: the one stamped first commits last and shortens the lease. */
  lemma OverlappingRenewalsShorten() returns (run: seq<State>)
    ensures IsRun(ONE_CHALLENGE, run)
    ensures var c := ONE_CHALLENGE; var s := Last(run);
      && CanServe(c, s, 0, CommitRenew) && 0 in s.db.instances
      && DoServe(c, s, 0, CommitRenew).db.instances[0].expires < s.db.instances[0].expires
  {
    var c := ONE_CHALLENGE;
    var start := OneInstance();
    var first := StampRenewal(c, start, 0, 0);
    OthersSame(Last(start), Last(first), 0);
    assert Sess(Last(start), 1) == Session(Idle, None) && Sess(Last(first), 1) == Sess(Last(start), 1);
    var later := Grow(c, first, Tick(1.0));
    assert Sess(Last(later), 1) == Sess(Last(first), 1) && Sess(Last(later), 0) == Sess(Last(first), 0);
    var second := StampRenewal(c, later, 1, 0);
    OthersSame(Last(later), Last(second), 1);
    run := GrowServe(c, second, 1, CommitRenew);
    OthersSame(Last(second), Last(run), 1);
  }

  // ---- Overlapping submissions ----

  /** Account 8 submits account 7's flag, and reads the tables. */
  lemma ReadForeignFlag(run: seq<State>, p: Pid) returns (longer: seq<State>)
    requires IsRun(ONE_CHALLENGE, run) && Sess(Last(run), p) == Session(Idle, None)
    requires Last(run).db == Launch(EMPTY, 0, Instance(1, OwnerOf(ONE_CHALLENGE.cfg, 7), "", "flag", 0, 60))
    ensures IsRun(ONE_CHALLENGE, longer)
    ensures Sess(Last(longer), p) == Session(Submitting(8, 1, "flag", None, Reject(Some(0))), Some(Last(run).db))
    ensures forall q :: q != p ==> Sess(Last(longer), q) == Sess(Last(run), q)
    ensures Last(longer) == Last(run).(sessions := Last(longer).sessions)
  {
    var db, cfg := Last(run).db, ONE_CHALLENGE.cfg;
    assert FindsActive(db, 1, OwnerOf(cfg, 8), None);
    assert OwnedRows(db, 1, "flag", OwnerOf(cfg, 8)) == {};
    assert 0 in MatchingRows(db, 1, "flag");
    var r := ReportOf(cfg, db.flags[0], 8, 0);
    assert LooksUp(cfg, db, 1, 8, "flag", 0, None, Reject(Some(0)), FileReport(db, r));
    longer := Grow(ONE_CHALLENGE, run, Serve(p, Solve(8, 1, "flag", None, Reject(Some(0)))));
    assert forall q :: q != p ==> Sess(Last(longer), q) == Sess(Last(run), q);
  }

  /** Two overlapping submissions of one foreign flag by one account leave the same entry twice. */
  lemma OverlappingSubmissionsReportTwice() returns (run: seq<State>)
    ensures IsRun(ONE_CHALLENGE, run)
    ensures |Last(run).db.reports| == 2 && !Unique(Last(run).db.reports)
  {
    var c := ONE_CHALLENGE;
    run := OneInstance();
    run := ReadForeignFlag(run, 0);
    run := ReadForeignFlag(run, 1);
    run := Grow(c, run, Serve(0, CommitSolve));
    run := Grow(c, run, Serve(1, CommitSolve));
    var reports := Last(run).db.reports;
    assert |reports| == 2 && reports[0].Key() == reports[1].Key();
  }
}
