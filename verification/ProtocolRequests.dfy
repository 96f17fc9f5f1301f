/**
 Requests that nobody disturbs: from any state of any run, a session that runs a whole request by
 itself does what the request is for.
 */
module ProtocolRequests {
  import opened Options
  import opened Sets
  import opened Tables
  import opened Ledger
  import opened Protocol
  import opened ProtocolInvariant
  import opened ProtocolSubmissions

  // ---- Runs step by step ----

  function Last(run: seq<State>): State
    requires |run| > 0
  {
    run[|run| - 1]
  }

  lemma Grow(c: Params, run: seq<State>, step: Step) returns (longer: seq<State>)
    requires IsRun(c, run) && Enabled(c, Last(run), step)
    ensures IsRun(c, longer) && Last(longer) == Do(c, Last(run), step)
  {
    longer := run + [Do(c, Last(run), step)];
    forall i | 0 <= i < |longer| - 1
      ensures StepAt(c, longer, i)
    {
      if i < |run| - 1 {
        assert StepAt(c, run, i);
      } else {
        assert Enabled(c, longer[i], step);
      }
    }
  }

  const START := State(EMPTY, {}, map[], None, map[], 0.0, map[], {}, {})

  lemma StartRun(c: Params) returns (run: seq<State>)
    ensures IsRun(c, run) && Last(run) == START
  {
    run := [START];
  }

  /** The other sessions. */
  function Others(s: State, p: Pid): map<Pid, Session> { s.sessions - {p} }

  /** Nothing but session `p` is different. */
  ghost predicate OnlyMoved(s: State, t: State, p: Pid) {
    t == s.(sessions := t.sessions) && Others(t, p) == Others(s, p)
  }

  lemma OthersSame(s: State, t: State, p: Pid)
    requires Others(t, p) == Others(s, p)
    ensures forall q :: q != p ==> Sess(t, q) == Sess(s, q)
  {
    forall q | q != p ensures Sess(t, q) == Sess(s, q) {
      assert q in s.sessions <==> q in Others(s, p);
      assert q in t.sessions <==> q in Others(t, p);
    }
  }

  lemma UpdateOthers(s: State, t: State, p: Pid)
    requires t.sessions == s.sessions[p := Sess(t, p)]
    ensures Others(t, p) == Others(s, p)
  {
  }

  /** A step of a session puts the session elsewhere and no other. */
  lemma CreateMoves(c: Params, s: State, p: Pid, step: CreateStep)
    requires CanCreate(c, s, p, step)
    ensures var t := DoCreate(c, s, p, step); t.sessions == s.sessions[p := Sess(t, p)]
  {
  }

  lemma ServeMoves(c: Params, s: State, p: Pid, step: ServeStep)
    requires CanServe(c, s, p, step)
    ensures var t := DoServe(c, s, p, step); t.sessions == s.sessions[p := Sess(t, p)]
  {
  }

  lemma SweepMoves(c: Params, s: State, p: Pid, step: SweepStep)
    requires CanSweep(s, p, step)
    ensures var t := DoSweep(c, s, p, step); t.sessions == s.sessions[p := Sess(t, p)]
  {
  }

  lemma GrowCreate(c: Params, run: seq<State>, p: Pid, step: CreateStep) returns (longer: seq<State>)
    requires IsRun(c, run) && CanCreate(c, Last(run), p, step)
    ensures IsRun(c, longer) && Last(longer) == DoCreate(c, Last(run), p, step)
    ensures Others(Last(longer), p) == Others(Last(run), p)
  {
    longer := Grow(c, run, Create(p, step));
    CreateMoves(c, Last(run), p, step);
    UpdateOthers(Last(run), Last(longer), p);
  }

  lemma GrowServe(c: Params, run: seq<State>, p: Pid, step: ServeStep) returns (longer: seq<State>)
    requires IsRun(c, run) && CanServe(c, Last(run), p, step)
    ensures IsRun(c, longer) && Last(longer) == DoServe(c, Last(run), p, step)
    ensures Others(Last(longer), p) == Others(Last(run), p)
  {
    longer := Grow(c, run, Serve(p, step));
    ServeMoves(c, Last(run), p, step);
    UpdateOthers(Last(run), Last(longer), p);
  }

  lemma GrowSweep(c: Params, run: seq<State>, p: Pid, step: SweepStep) returns (longer: seq<State>)
    requires IsRun(c, run) && CanSweep(Last(run), p, step)
    ensures IsRun(c, longer) && Last(longer) == DoSweep(c, Last(run), p, step)
    ensures Others(Last(longer), p) == Others(Last(run), p)
  {
    longer := Grow(c, run, Sweep(p, step));
    SweepMoves(c, Last(run), p, step);
    UpdateOthers(Last(run), Last(longer), p);
  }

  // ---- Create ----

  /** From an idle session into the lock. */
  lemma Enter(c: Params, run: seq<State>, p: Pid, account: int, challenge: int) returns (longer: seq<State>)
    requires IsRun(c, run) && PhaseOf(Last(run), p).Idle?
    requires c.locking ==> account !in Last(run).locks
    ensures IsRun(c, longer)
    ensures Sess(Last(longer), p)
         == Session(Fresh(account, challenge), if c.rollback then None else Sess(Last(run), p).snap)
    ensures Others(Last(longer), p) == Others(Last(run), p)
    ensures Last(longer) == Last(run).(sessions := Last(longer).sessions,
                                       locks := if c.locking then Last(run).locks[account := p] else Last(run).locks)
  {
    longer := GrowCreate(c, run, p, Request(account, challenge));
    longer := GrowCreate(c, longer, p, Acquire);
    longer := GrowCreate(c, longer, p, Rollback);
  }

  /** The account's instances whose containers run. */
  function Alive(c: Params, s: State, account: int): map<Cid, Instance> {
    map k | k in OwnedBy(c.cfg, s.db.instances, account) && k in s.running :: s.db.instances[k]
  }

  /** The tables without the account's stopped instances. */
  function Forgotten(c: Params, s: State, account: int): Db {
    Teardown(c.cfg, s.db, OwnedBy(c.cfg, s.db.instances, account).Keys - s.running)
  }

  /** There is room for one more instance, and none for this challenge. */
  ghost predicate Admits(c: Params, s: State, account: int, challenge: int) {
    var alive := Alive(c, s, account);
    |alive| < c.max && forall k :: k in alive ==> alive[k].challenge != challenge
  }

  /** The session has listed its account's rows, and checked none of them yet. */
  lemma List(c: Params, run: seq<State>, p: Pid) returns (longer: seq<State>)
    requires IsRun(c, run) && PhaseOf(Last(run), p).Fresh? && PhaseOf(Last(run), p).challenge in c.cfg.challenges
    ensures IsRun(c, longer) && OnlyMoved(Last(run), Last(longer), p)
    ensures var s, ph := Last(run), PhaseOf(Last(run), p);
      PhaseOf(Last(longer), p)
      == Pruning(ph.account, ph.challenge, OwnedBy(c.cfg, View(s, p), ph.account), map[], {})
  {
    longer := GrowCreate(c, run, p, Probe);
    longer := GrowCreate(c, longer, p, ListRows);
  }

  /** The rows that are still unchecked, once their containers have been looked at. */
  function Found(unchecked: map<Cid, Instance>, running: set<Cid>): map<Cid, Instance> {
    map k | k in unchecked && k in running :: unchecked[k]
  }

  lemma FoundNext(active: map<Cid, Instance>, stale: set<Cid>, unchecked: map<Cid, Instance>, running: set<Cid>, k: Cid)
    requires k in unchecked && active.Keys !! unchecked.Keys
    ensures var active2 := if k in running then active[k := unchecked[k]] else active;
      active2 + Found(unchecked - {k}, running) == active + Found(unchecked, running)
    ensures var stale2 := if k in running then stale else stale + {k};
      stale2 + ((unchecked - {k}).Keys - running) == stale + (unchecked.Keys - running)
  {
  }

  lemma NoneLeft(active: map<Cid, Instance>, stale: set<Cid>, none: map<Cid, Instance>, running: set<Cid>)
    requires none == map[]
    ensures active + Found(none, running) == active && stale + (none.Keys - running) == stale
  {
  }

  lemma FewerLeft(unchecked: map<Cid, Instance>, k: Cid)
    requires k in unchecked
    ensures |unchecked - {k}| < |unchecked|
  {
    assert (unchecked - {k}).Keys == unchecked.Keys - {k};
  }

  lemma CheckOne(c: Params, run: seq<State>, p: Pid, k: Cid) returns (longer: seq<State>)
    requires IsRun(c, run) && PhaseOf(Last(run), p).Pruning? && k in PhaseOf(Last(run), p).unchecked
    ensures IsRun(c, longer) && OnlyMoved(Last(run), Last(longer), p)
    ensures var s, ph := Last(run), PhaseOf(Last(run), p);
      && Sess(Last(longer), p).snap == Sess(s, p).snap
      && PhaseOf(Last(longer), p) == Pruning(ph.account, ph.challenge, ph.unchecked - {k},
                                             if k in s.running then ph.active[k := ph.unchecked[k]] else ph.active,
                                             if k in s.running then ph.stale else ph.stale + {k})
  {
    longer := GrowCreate(c, run, p, CheckRow(k));
  }

  lemma {:induction false} CheckAll(c: Params, run: seq<State>, p: Pid) returns (longer: seq<State>)
    requires IsRun(c, run) && PhaseOf(Last(run), p).Pruning?
    requires PhaseOf(Last(run), p).active.Keys !! PhaseOf(Last(run), p).unchecked.Keys
    ensures IsRun(c, longer) && OnlyMoved(Last(run), Last(longer), p)
    ensures var s, ph := Last(run), PhaseOf(Last(run), p);
      PhaseOf(Last(longer), p) == Pruning(ph.account, ph.challenge, map[],
                                          ph.active + Found(ph.unchecked, s.running),
                                          ph.stale + (ph.unchecked.Keys - s.running))
    decreases |PhaseOf(Last(run), p).unchecked|
  {
    var s, ph := Last(run), PhaseOf(Last(run), p);
    longer := run;
    if ph.unchecked == map[] {
      NoneLeft(ph.active, ph.stale, ph.unchecked, s.running);
    } else {
      var k :| k in ph.unchecked;
      longer := CheckOne(c, run, p, k);
      FewerLeft(ph.unchecked, k);
      FoundNext(ph.active, ph.stale, ph.unchecked, s.running, k);
      longer := CheckAll(c, longer, p);
    }
  }

  lemma AliveIsFound(c: Params, s: State, account: int)
    ensures map[] + Found(OwnedBy(c.cfg, s.db.instances, account), s.running) == Alive(c, s, account)
  {
  }

  /** The session has looked at all of its account's rows. */
  lemma Look(c: Params, run: seq<State>, p: Pid) returns (longer: seq<State>)
    requires IsRun(c, run) && PhaseOf(Last(run), p).Fresh? && PhaseOf(Last(run), p).challenge in c.cfg.challenges
    requires Sess(Last(run), p).snap.None?
    ensures IsRun(c, longer) && OnlyMoved(Last(run), Last(longer), p)
    ensures var s, ph := Last(run), PhaseOf(Last(run), p);
      PhaseOf(Last(longer), p) == Pruning(ph.account, ph.challenge, map[], Alive(c, s, ph.account),
                                          OwnedBy(c.cfg, s.db.instances, ph.account).Keys - s.running)
  {
    var s, ph := Last(run), PhaseOf(Last(run), p);
    longer := List(c, run, p);
    longer := CheckAll(c, longer, p);
    AliveIsFound(c, s, ph.account);
    var stale := OwnedBy(c.cfg, s.db.instances, ph.account).Keys - s.running;
    assert {} + stale == stale;
  }

  /** Prune and decide. */
  lemma PruneAndDecide(c: Params, run: seq<State>, p: Pid) returns (longer: seq<State>)
    requires IsRun(c, run) && PhaseOf(Last(run), p).Pruning? && PhaseOf(Last(run), p).unchecked == map[]
    ensures IsRun(c, longer)
    ensures var s, t, ph := Last(run), Last(longer), PhaseOf(Last(run), p);
      && OnlyMoved(s.(db := t.db), t, p) && t.db == Teardown(c.cfg, s.db, ph.stale)
      && PhaseOf(t, p)
         == if |ph.active| < c.max && (forall k :: k in ph.active ==> ph.active[k].challenge != ph.challenge)
            then Launching(ph.account, ph.challenge) else Releasing(ph.account)
  {
    if PhaseOf(Last(run), p).stale == {} {
      TeardownNothing(c.cfg, Last(run).db, {});
    }
    longer := GrowCreate(c, run, p, CommitPrune);
    longer := GrowCreate(c, longer, p, Decide);
  }

  lemma CountAlone(c: Params, run: seq<State>, p: Pid) returns (longer: seq<State>)
    requires IsRun(c, run) && PhaseOf(Last(run), p).Fresh? && PhaseOf(Last(run), p).challenge in c.cfg.challenges
    requires Sess(Last(run), p).snap.None?
    ensures IsRun(c, longer)
    ensures var s, t, ph := Last(run), Last(longer), PhaseOf(Last(run), p);
      && OnlyMoved(s.(db := t.db), t, p) && t.db == Forgotten(c, s, ph.account)
      && PhaseOf(t, p) == if Admits(c, s, ph.account, ph.challenge) then Launching(ph.account, ph.challenge)
                          else Releasing(ph.account)
  {
    longer := Look(c, run, p);
    longer := PruneAndDecide(c, longer, p);
  }

  /** A flag that a launch of the challenge may carry. */
  function FlagFor(cfg: Config, challenge: int): string {
    if IsStatic(cfg, challenge) then ExpectedStaticFlag(cfg.challenges[challenge]) else "flag"
  }

  /** From launch to a healthy container. */
  lemma Boot(c: Params, run: seq<State>, p: Pid, cid: Cid) returns (longer: seq<State>)
    requires IsRun(c, run) && PhaseOf(Last(run), p).Launching? && cid !in Last(run).launched
    ensures IsRun(c, longer)
    ensures var s, ph := Last(run), PhaseOf(Last(run), p); var flag := FlagFor(c.cfg, ph.challenge);
      && PhaseOf(Last(longer), p) == Ready(ph.account, ph.challenge, cid, flag, s.now.Floor)
      && Others(Last(longer), p) == Others(s, p)
      && Last(longer) == s.(sessions := Last(longer).sessions, running := s.running + {cid},
                            launched := s.launched[cid := Started(ph.account, ph.challenge, flag)])
  {
    longer := GrowCreate(c, run, p, Run(cid, FlagFor(c.cfg, PhaseOf(Last(run), p).challenge)));
    longer := GrowCreate(c, longer, p, Healthy);
  }

  /** From there to the released lock, when no row conflicts. */
  lemma Record(c: Params, run: seq<State>, p: Pid) returns (longer: seq<State>)
    requires IsRun(c, run) && PhaseOf(Last(run), p).Ready?
    requires var ph := PhaseOf(Last(run), p); !Conflicts(Last(run).db, ph.cid, ph.challenge, OwnerOf(c.cfg, ph.account))
    ensures IsRun(c, longer) && Sess(Last(longer), p) == Session(Idle, None)
    ensures var s, t, ph := Last(run), Last(longer), PhaseOf(Last(run), p);
      && Others(t, p) == Others(s, p)
      && t.db == Launch(s.db, ph.cid, Launched(c, ph, ""))
      && t == s.(sessions := t.sessions, db := t.db, recorded := t.recorded,
                 locks := ReleaseLock(s.locks, ph.account, p))
  {
    longer := GrowCreate(c, run, p, CommitLaunch(""));
    longer := GrowCreate(c, longer, p, Release);
  }

  /** With room for it, a launch meets no conflict. */
  lemma NoConflict(c: Params, s: State, account: int, challenge: int, cid: Cid)
    requires Inv(c, s) && Admits(c, s, account, challenge) && cid !in s.launched
    ensures !Conflicts(Forgotten(c, s, account), cid, challenge, OwnerOf(c.cfg, account))
  {
    var after := Forgotten(c, s, account);
    forall k | k in after.instances
      ensures !Collides(after.instances[k], challenge, OwnerOf(c.cfg, account))
    {
      assert Launchable(c.cfg, s.db.instances[k]);
      if s.db.instances[k].owner == OwnerOf(c.cfg, account) {
        assert k in OwnedBy(c.cfg, s.db.instances, account);
        assert k in Alive(c, s, account);
      }
    }
  }

  /** The row of an undisturbed launch. */
  function RowOf(c: Params, s: State, account: int, challenge: int): Instance {
    Instance(challenge, OwnerOf(c.cfg, account), "", FlagFor(c.cfg, challenge), s.now.Floor, s.now.Floor + c.lease)
  }

  /** What an undisturbed create request leaves in `t`. */
  ghost predicate CreatedFrom(c: Params, s: State, t: State, p: Pid, account: int, challenge: int, cid: Cid) {
    && Sess(t, p) == Session(Idle, None) && Others(t, p) == Others(s, p)
    && t.now == s.now && t.locks == s.locks && t.sweeper == s.sweeper
    && if Admits(c, s, account, challenge) then
         && t.db == Launch(Forgotten(c, s, account), cid, RowOf(c, s, account, challenge))
         && t.running == s.running + {cid}
         && t.launched == s.launched[cid := Started(account, challenge, FlagFor(c.cfg, challenge))]
       else t.db == Forgotten(c, s, account) && t.running == s.running && t.launched == s.launched
  }

  /** Inside the lock, with the decision made. */
  lemma Decided(c: Params, run: seq<State>, p: Pid, account: int, challenge: int) returns (longer: seq<State>)
    requires IsRun(c, run) && Sess(Last(run), p) == Session(Idle, None) && account !in Last(run).locks
    requires challenge in c.cfg.challenges
    ensures IsRun(c, longer)
    ensures var s, t := Last(run), Last(longer);
      && Others(t, p) == Others(s, p)
      && t == s.(sessions := t.sessions, db := Forgotten(c, s, account), locks := t.locks)
      && ReleaseLock(t.locks, account, p) == s.locks
      && PhaseOf(t, p) == if Admits(c, s, account, challenge) then Launching(account, challenge) else Releasing(account)
  {
    longer := Enter(c, run, p, account, challenge);
    LockReleased(Last(run).locks, account, p);
    longer := CountAlone(c, longer, p);
  }

  lemma LockReleased(locks: map<int, Pid>, account: int, p: Pid)
    requires account !in locks
    ensures ReleaseLock(locks[account := p], account, p) == locks && ReleaseLock(locks, account, p) == locks
  {
  }

  /**
   A whole create request: it forgets the account's stopped instances, and launches exactly if the
   running ones leave room and none of them is of this challenge.
   */
  lemma CreateAlone(c: Params, run: seq<State>, p: Pid, account: int, challenge: int, cid: Cid)
    returns (longer: seq<State>)
    requires IsRun(c, run) && Sess(Last(run), p) == Session(Idle, None) && account !in Last(run).locks
    requires challenge in c.cfg.challenges && cid !in Last(run).launched
    ensures IsRun(c, longer) && CreatedFrom(c, Last(run), Last(longer), p, account, challenge, cid)
  {
    var s := Last(run);
    longer := Decided(c, run, p, account, challenge);
    var m := Last(longer);
    if Admits(c, s, account, challenge) {
      FitsIn(c, run, account, challenge, cid);
      longer := LaunchDecided(c, longer, p, cid);
      AdmittedLeaves(c, s, m, Last(longer), p, account, challenge, cid);
    } else {
      longer := GrowCreate(c, longer, p, Release);
      RefusedLeaves(c, s, m, Last(longer), p, account, challenge, cid);
    }
  }

  lemma FitsIn(c: Params, run: seq<State>, account: int, challenge: int, cid: Cid)
    requires IsRun(c, run) && Admits(c, Last(run), account, challenge) && cid !in Last(run).launched
    ensures !Conflicts(Forgotten(c, Last(run), account), cid, challenge, OwnerOf(c.cfg, account))
  {
    RunInv(c, run, |run| - 1);
    NoConflict(c, Last(run), account, challenge, cid);
  }

  lemma AdmittedLeaves(c: Params, s: State, m: State, t: State, p: Pid, account: int, challenge: int, cid: Cid)
    requires Admits(c, s, account, challenge)
    requires Others(m, p) == Others(s, p) && Others(t, p) == Others(m, p) && Sess(t, p) == Session(Idle, None)
    requires m == s.(sessions := m.sessions, db := Forgotten(c, s, account), locks := m.locks)
    requires ReleaseLock(m.locks, account, p) == s.locks
    requires t == m.(sessions := t.sessions, db := Launch(m.db, cid, RowOf(c, m, account, challenge)),
                     recorded := t.recorded, running := m.running + {cid},
                     launched := m.launched[cid := Started(account, challenge, FlagFor(c.cfg, challenge))],
                     locks := ReleaseLock(m.locks, account, p))
    ensures CreatedFrom(c, s, t, p, account, challenge, cid)
  {
  }

  lemma RefusedLeaves(c: Params, s: State, m: State, t: State, p: Pid, account: int, challenge: int, cid: Cid)
    requires !Admits(c, s, account, challenge)
    requires Others(m, p) == Others(s, p) && Others(t, p) == Others(m, p) && Sess(t, p) == Session(Idle, None)
    requires m == s.(sessions := m.sessions, db := Forgotten(c, s, account), locks := m.locks)
    requires ReleaseLock(m.locks, account, p) == s.locks
    requires t == m.(sessions := t.sessions, locks := ReleaseLock(m.locks, account, p))
    ensures CreatedFrom(c, s, t, p, account, challenge, cid)
  {
  }

  lemma LaunchDecided(c: Params, run: seq<State>, p: Pid, cid: Cid) returns (longer: seq<State>)
    requires IsRun(c, run) && PhaseOf(Last(run), p).Launching? && cid !in Last(run).launched
    requires var ph := PhaseOf(Last(run), p); !Conflicts(Last(run).db, cid, ph.challenge, OwnerOf(c.cfg, ph.account))
    ensures IsRun(c, longer)
    ensures var s, t, ph := Last(run), Last(longer), PhaseOf(Last(run), p);
      && Sess(t, p) == Session(Idle, None) && Others(t, p) == Others(s, p)
      && t == s.(sessions := t.sessions, db := Launch(s.db, cid, RowOf(c, s, ph.account, ph.challenge)),
                 recorded := t.recorded, running := s.running + {cid},
                 launched := s.launched[cid := Started(ph.account, ph.challenge, FlagFor(c.cfg, ph.challenge))],
                 locks := ReleaseLock(s.locks, ph.account, p))
  {
    longer := Boot(c, run, p, cid);
    longer := Record(c, longer, p);
  }

  // ---- Stop ----

  /** From a target in the table to a stopped container and forgotten rows. */
  lemma KillTarget(c: Params, run: seq<State>, p: Pid) returns (longer: seq<State>)
    requires IsRun(c, run) && PhaseOf(Last(run), p).Targeting? && PhaseOf(Last(run), p).target in View(Last(run), p)
    ensures IsRun(c, longer)
    ensures var s, t, ph := Last(run), Last(longer), PhaseOf(Last(run), p);
      && Sess(t, p) == Session(Resume(ph.rest), None)
      && OnlyMoved(s.(db := t.db, running := t.running), t, p)
      && t.db == Teardown(c.cfg, s.db, {ph.target}) && t.running == s.running - {ph.target}
  {
    longer := GrowServe(c, run, p, ReadTarget);
    longer := GrowServe(c, longer, p, Kill);
    longer := GrowServe(c, longer, p, Delete);
  }

  /** A whole stop request. */
  lemma StopAlone(c: Params, run: seq<State>, p: Pid, cid: Cid) returns (longer: seq<State>)
    requires IsRun(c, run) && Sess(Last(run), p) == Session(Idle, None) && cid in Last(run).db.instances
    ensures IsRun(c, longer) && Sess(Last(longer), p) == Session(Idle, None)
    ensures var s, t := Last(run), Last(longer);
      && OnlyMoved(s.(db := t.db, running := t.running), t, p)
      && t.db == Teardown(c.cfg, s.db, {cid}) && t.running == s.running - {cid}
  {
    longer := GrowServe(c, run, p, FindToStop(cid));
    longer := KillTarget(c, longer, p);
  }

  // ---- View and renew ----

  /** One session looks a running instance up for renewal and reads the clock. */
  lemma StampRenewal(c: Params, run: seq<State>, p: Pid, cid: Cid) returns (longer: seq<State>)
    requires IsRun(c, run) && Sess(Last(run), p) == Session(Idle, None)
    requires cid in Last(run).db.instances && cid in Last(run).running
    ensures IsRun(c, longer)
    ensures PhaseOf(Last(longer), p) == Renewing(cid, (Last(run).now + c.lease as real).Floor)
    ensures OnlyMoved(Last(run), Last(longer), p)
  {
    longer := GrowServe(c, run, p, Find(cid, true));
    longer := GrowServe(c, longer, p, CheckRunning);
    longer := GrowServe(c, longer, p, Stamp);
  }

  /** A whole renewal: a running instance's lease ends a full length from now, a stopped instance is forgotten. */
  lemma RenewAlone(c: Params, run: seq<State>, p: Pid, cid: Cid) returns (longer: seq<State>)
    requires IsRun(c, run) && Sess(Last(run), p) == Session(Idle, None) && cid in Last(run).db.instances
    ensures IsRun(c, longer) && Sess(Last(longer), p) == Session(Idle, None)
    ensures var s, t := Last(run), Last(longer);
      && OnlyMoved(s.(db := t.db), t, p)
      && t.db == if cid in s.running then Renewed(s.db, cid, s.now.Floor + c.lease) else Teardown(c.cfg, s.db, {cid})
  {
    if cid in Last(run).running {
      longer := StampRenewal(c, run, p, cid);
      longer := GrowServe(c, longer, p, CommitRenew);
    } else {
      longer := ForgetStopped(c, run, p, cid, true);
    }
  }

  lemma ForgetStopped(c: Params, run: seq<State>, p: Pid, cid: Cid, renew: bool) returns (longer: seq<State>)
    requires IsRun(c, run) && Sess(Last(run), p) == Session(Idle, None)
    requires cid in Last(run).db.instances && cid !in Last(run).running
    ensures IsRun(c, longer) && Sess(Last(longer), p) == Session(Idle, None)
    ensures OnlyMoved(Last(run).(db := Last(longer).db), Last(longer), p)
    ensures Last(longer).db == Teardown(c.cfg, Last(run).db, {cid})
  {
    longer := GrowServe(c, run, p, Find(cid, renew));
    longer := GrowServe(c, longer, p, CheckRunning);
    longer := GrowServe(c, longer, p, Delete);
  }

  /** A whole view: it changes nothing, unless the instance has stopped and is forgotten. */
  lemma ViewAlone(c: Params, run: seq<State>, p: Pid, cid: Cid) returns (longer: seq<State>)
    requires IsRun(c, run) && Sess(Last(run), p) == Session(Idle, None) && cid in Last(run).db.instances
    ensures IsRun(c, longer) && Sess(Last(longer), p) == Session(Idle, None)
    ensures var s, t := Last(run), Last(longer);
      && OnlyMoved(s.(db := t.db), t, p)
      && t.db == if cid in s.running then s.db else Teardown(c.cfg, s.db, {cid})
  {
    if cid in Last(run).running {
      longer := GrowServe(c, run, p, Find(cid, false));
      longer := GrowServe(c, longer, p, CheckRunning);
    } else {
      longer := ForgetStopped(c, run, p, cid, false);
    }
  }

  // ---- Solve ----

  /** A whole submission: one submission of the ledger, and then the account's instance is stopped. */
  lemma SolveAlone(c: Params, run: seq<State>, p: Pid, account: int, challenge: int, f: string,
                   found: Option<Cid>, v: Verdict) returns (longer: seq<State>, mid: Db)
    requires IsRun(c, run) && Sess(Last(run), p) == Session(Idle, None) && challenge in c.cfg.challenges
    requires Decides(c.cfg, Last(run).db, challenge, account, f, found, v)
    ensures IsRun(c, longer) && Sess(Last(longer), p) == Session(Idle, None)
    ensures var s, t := Last(run), Last(longer);
      && OnlyMoved(s.(db := t.db, running := t.running), t, p)
      && Submits(c.cfg, s.db, challenge, account, f, s.now.Floor, found, v, mid)
      && t.db == (if v.Accept? && found.Some? then Teardown(c.cfg, mid, {found.value}) else mid)
      && t.running == if v.Accept? && found.Some? then s.running - {found.value} else s.running
  {
    longer := SubmitAlone(c, run, p, account, challenge, f, found, v);
    mid := Last(longer).db;
    if v.Accept? && found.Some? {
      FoundIsThere(c.cfg, Last(run).db, challenge, account, f, found, v);
      longer := KillTarget(c, longer, p);
    }
  }

  lemma SubmitAlone(c: Params, run: seq<State>, p: Pid, account: int, challenge: int, f: string,
                    found: Option<Cid>, v: Verdict) returns (longer: seq<State>)
    requires IsRun(c, run) && Sess(Last(run), p) == Session(Idle, None) && challenge in c.cfg.challenges
    requires Decides(c.cfg, Last(run).db, challenge, account, f, found, v)
    ensures IsRun(c, longer)
    ensures var s, t := Last(run), Last(longer);
      && Sess(t, p) == Session(if v.Accept? && found.Some? then Targeting(found.value, None) else Idle, None)
      && OnlyMoved(s.(db := t.db), t, p) && t.db.instances == s.db.instances
      && Submits(c.cfg, s.db, challenge, account, f, s.now.Floor, found, v, t.db)
  {
    longer := GrowServe(c, run, p, Solve(account, challenge, f, found, v));
    longer := CommitAlone(c, longer, p);
  }

  lemma CommitAlone(c: Params, run: seq<State>, p: Pid) returns (longer: seq<State>)
    requires IsRun(c, run) && PhaseOf(Last(run), p).Submitting? && Seen(Last(run), p) == Last(run).db
    ensures IsRun(c, longer)
    ensures var s, t, ph := Last(run), Last(longer), PhaseOf(Last(run), p);
      var stops := ph.verdict.Accept? && ph.found.Some?;
      && Sess(t, p) == Session(if stops then Targeting(ph.found.value, None) else Idle, None)
      && OnlyMoved(s.(db := t.db), t, p) && t.db.instances == s.db.instances
      && ph.challenge in c.cfg.challenges
      && Submits(c.cfg, s.db, ph.challenge, ph.account, ph.flag, s.now.Floor, ph.found, ph.verdict, t.db)
  {
    UndisturbedIsAtomic(c, run, |run| - 1, p);
    longer := GrowServe(c, run, p, CommitSolve);
  }

  lemma FoundIsThere(cfg: Config, a: Db, c: int, account: int, f: string, found: Option<Cid>, v: Verdict)
    requires c in cfg.challenges && Decides(cfg, a, c, account, f, found, v) && found.Some?
    ensures found.value in a.instances
  {
    var now, b :| LooksUp(cfg, a, c, account, f, now, found, v, b);
  }

  // ---- Sweep ----

  /** The instances whose lease is over. */
  function Overdue(s: State): set<Cid> { set k | k in s.db.instances && s.db.instances[k].expires <= s.now.Floor }

  lemma KillOne(c: Params, run: seq<State>, p: Pid, k: Cid) returns (longer: seq<State>)
    requires IsRun(c, run) && PhaseOf(Last(run), p).Sweeping?
    requires k in PhaseOf(Last(run), p).todo && k in View(Last(run), p)
    ensures IsRun(c, longer)
    ensures var s, t := Last(run), Last(longer);
      && Sess(t, p) == Session(Sweeping(PhaseOf(s, p).todo - {k}), None)
      && OnlyMoved(s.(db := t.db, running := t.running), t, p)
      && t.db == Teardown(c.cfg, s.db, {k}) && t.running == s.running - {k}
  {
    longer := GrowSweep(c, run, p, NextTarget(k));
    longer := KillTarget(c, longer, p);
  }

  lemma {:induction false} KillEach(c: Params, run: seq<State>, p: Pid) returns (longer: seq<State>)
    requires IsRun(c, run) && PhaseOf(Last(run), p).Sweeping?
    requires PhaseOf(Last(run), p).todo <= View(Last(run), p).Keys * Last(run).db.instances.Keys
    ensures IsRun(c, longer)
    ensures var s, t, todo := Last(run), Last(longer), PhaseOf(Last(run), p).todo;
      && PhaseOf(t, p) == Sweeping({}) && OnlyMoved(s.(db := t.db, running := t.running), t, p)
      && t.db == Teardown(c.cfg, s.db, todo) && t.running == s.running - todo
    decreases |PhaseOf(Last(run), p).todo|
  {
    var s, todo := Last(run), PhaseOf(Last(run), p).todo;
    longer := run;
    if todo == {} {
      TeardownNothing(c.cfg, s.db, {});
    } else {
      var k :| k in todo;
      longer := KillOne(c, run, p, k);
      assert |todo - {k}| < |todo|;
      longer := KillEach(c, longer, p);
      OneAndTheRest(c.cfg, s.db, todo, s.running, k);
    }
  }

  lemma OneAndTheRest(cfg: Config, db: Db, todo: set<Cid>, running: set<Cid>, k: Cid)
    requires k in todo
    ensures Teardown(cfg, Teardown(cfg, db, {k}), todo - {k}) == Teardown(cfg, db, todo)
    ensures running - {k} - (todo - {k}) == running - todo
  {
    TeardownCompose(cfg, db, {k}, todo - {k});
    assert {k} + (todo - {k}) == todo;
  }

  /** A whole sweep stops and forgets exactly the instances whose lease is over. */
  lemma SweepAlone(c: Params, run: seq<State>, p: Pid) returns (longer: seq<State>)
    requires IsRun(c, run) && Sess(Last(run), p) == Session(Idle, None) && Last(run).sweeper.None?
    ensures IsRun(c, longer) && Sess(Last(longer), p) == Session(Idle, None)
    ensures var s, t := Last(run), Last(longer);
      && OnlyMoved(s.(db := t.db, running := t.running), t, p)
      && t.db == Teardown(c.cfg, s.db, Overdue(s)) && t.running == s.running - Overdue(s)
  {
    longer := GrowSweep(c, run, p, StartSweep);
    longer := GrowSweep(c, longer, p, Scan);
    assert PhaseOf(Last(longer), p).todo == Overdue(Last(run));
    longer := KillEach(c, longer, p);
    longer := GrowSweep(c, longer, p, EndSweep);
    longer := GrowSweep(c, longer, p, ReleaseSweep);
  }
}
