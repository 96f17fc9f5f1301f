/**
 The container lifecycle as a concurrent protocol.

 Any number of sessions interleave: create, view, renew, stop and solve requests and the expiry
 sweep.  They share the tables, the Docker daemon and MySQL's named locks.  Only create takes the
 per-account lock.  Each session may hold a REPEATABLE READ snapshot: reads go to the snapshot
 while there is one, writes go to the committed tables, and a commit or rollback drops it.
 */
module Protocol {
  import opened Options
  import opened Tables

  type Pid = nat

  /**
   `locking` is true on MySQL and MariaDB, where the named locks exist.  `rollback` is the
   create request's rollback after acquiring the lock; the source always does it, and the
   parameter exists so that its necessity can be stated.
   */
  datatype Params = Params(cfg: Config, max: int, lease: nat, locking: bool, rollback: bool)

  /** Where a session stands.  A create request goes from Waiting to Releasing. */
  datatype Phase =
    | Idle
    | Waiting(account: int, challenge: int)
    | Locked(account: int, challenge: int)
    | Fresh(account: int, challenge: int)
    | Checked(account: int, challenge: int)
    | Pruning(account: int, challenge: int, unchecked: map<Cid, Instance>, active: map<Cid, Instance>, stale: set<Cid>)
    | Pruned(account: int, challenge: int, active: map<Cid, Instance>)
    | Launching(account: int, challenge: int)
    | Starting(account: int, challenge: int, cid: Cid, flag: string)
    | Ready(account: int, challenge: int, cid: Cid, flag: string, timestamp: int)
    | Failing(account: int, cid: Cid)
    | Releasing(account: int)
    | Submitting(account: int, challenge: int, flag: string, found: Option<Cid>, verdict: Verdict)
    | Checking(target: Cid, renew: bool)
    | Stamping(target: Cid)
    | Renewing(target: Cid, expires: int)
    | Targeting(target: Cid, rest: Option<set<Cid>>)
    | Killing(target: Cid, seen: bool, rest: Option<set<Cid>>)
    | Deleting(target: Cid, rest: Option<set<Cid>>)
    | Scanning
    | Sweeping(todo: set<Cid>)
    | SweepDone

  datatype Session = Session(phase: Phase, snap: Option<Db>)

  /** What a container was started for. */
  datatype Started = Started(account: int, challenge: int, flag: string)

  /**
   `running` is the daemon's set of running containers.  `launched` (with what for), `recorded` and
   `leaked` are histories: containers ever started, ever committed to the table, and left running
   because the failure branch's own kill raised and was swallowed.
   */
  datatype State = State(db: Db, running: set<Cid>, locks: map<int, Pid>, sweeper: Option<Pid>,
                         sessions: map<Pid, Session>, now: real,
                         launched: map<Cid, Started>, recorded: set<Cid>, leaked: set<Cid>)

  ghost predicate Init(s: State) {
    s == State(EMPTY, {}, map[], None, map[], s.now, map[], {}, {})
  }

  function Sess(s: State, p: Pid): Session {
    if p in s.sessions then s.sessions[p] else Session(Idle, None)
  }

  function PhaseOf(s: State, p: Pid): Phase { Sess(s, p).phase }

  /** The tables that session `p` reads. */
  function Seen(s: State, p: Pid): Db {
    var snap := Sess(s, p).snap;
    if snap.Some? then snap.value else s.db
  }

  function View(s: State, p: Pid): map<Cid, Instance> { Seen(s, p).instances }

  function Goto(s: State, p: Pid, phase: Phase, snap: Option<Db>): State {
    s.(sessions := s.sessions[p := Session(phase, snap)])
  }

  /** A step that writes nothing and keeps the session's snapshot. */
  function Move(s: State, p: Pid, phase: Phase): State { Goto(s, p, phase, Sess(s, p).snap) }

  /** A step that reads the tables, which opens a snapshot. */
  function Read(s: State, p: Pid, phase: Phase): State { Goto(s, p, phase, Some(Seen(s, p))) }

  function OwnedBy(cfg: Config, rows: map<Cid, Instance>, account: int): map<Cid, Instance> {
    map k | k in rows && rows[k].owner == OwnerOf(cfg, account) :: rows[k]
  }

  /** After one target of a sweep the loop continues; a request is finished. */
  function Resume(rest: Option<set<Cid>>): Phase { if rest.Some? then Sweeping(rest.value) else Idle }

  function Continue(s: State, p: Pid, rest: Option<set<Cid>>): State {
    Goto(s, p, Resume(rest), if rest.Some? then Sess(s, p).snap else None)
  }

  // ---- Steps ----

  /** The create request, from entry to the release in its `finally`. */
  datatype CreateStep =
    | Request(account: int, challenge: int)
    | Acquire
    | Timeout
    | Rollback
    | Probe
    | ListRows
    | CheckRow(cid: Cid)
    | CommitPrune
    | Decide
    | GiveUp
    | Run(cid: Cid, flag: string)
    | Healthy
    | Fail
    | CommitLaunch(port: string)
    | KillOwn
    | KillOwnRaises
    | Release

  /** View, renew, stop and solve.  `Open` is an earlier read of the same request. */
  datatype ServeStep =
    | Open
    | Find(cid: Cid, renew: bool)
    | CheckRunning
    | Stamp
    | CommitRenew
    | FindToStop(cid: Cid)
    | Solve(account: int, challenge: int, flag: string, found: Option<Cid>, verdict: Verdict)
    | CommitSolve
    | ReadTarget
    | Kill
    | KillRaises
    | Delete

  datatype SweepStep = StartSweep | Scan | NextTarget(cid: Cid) | EndSweep | ReleaseSweep

  datatype Step =
    | Create(p: Pid, create: CreateStep)
    | Serve(p: Pid, serve: ServeStep)
    | Sweep(p: Pid, sweep: SweepStep)
    | Exit(cid: Cid)
    | Tick(elapsed: real)

  predicate CanCreate(c: Params, s: State, p: Pid, step: CreateStep) {
    var ph := PhaseOf(s, p);
    match step
    case Request(account, challenge) => ph.Idle?
    case Acquire => ph.Waiting? && (c.locking ==> ph.account !in s.locks)
    case Timeout => ph.Waiting? && c.locking
    case Rollback => ph.Locked?
    case Probe => ph.Fresh? && ph.challenge in c.cfg.challenges
    case ListRows => ph.Checked?
    case CheckRow(cid) => ph.Pruning? && cid in ph.unchecked
    case CommitPrune => ph.Pruning? && ph.unchecked == map[]
    case Decide => ph.Pruned?
    case GiveUp => ph.Fresh? || ph.Checked? || ph.Pruning? || ph.Pruned? || ph.Launching?
    case Run(cid, flag) =>
      && ph.Launching? && cid !in s.launched
      && (IsStatic(c.cfg, ph.challenge) ==> flag == ExpectedStaticFlag(c.cfg.challenges[ph.challenge]))
    case Healthy => ph.Starting?
    case Fail => ph.Starting? || ph.Ready?
    case CommitLaunch(port) => ph.Ready?
    case KillOwn => ph.Failing?
    case KillOwnRaises => ph.Failing?
    case Release => ph.Releasing?
  }

  ghost predicate CanServe(c: Params, s: State, p: Pid, step: ServeStep) {
    var ph := PhaseOf(s, p);
    match step
    case Open => ph.Idle?
    case Find(cid, renew) => ph.Idle? && cid in View(s, p)
    case CheckRunning => ph.Checking?
    case Stamp => ph.Stamping?
    case CommitRenew => ph.Renewing?
    case FindToStop(cid) => ph.Idle? && cid in View(s, p)
    case Solve(account, challenge, flag, found, verdict) =>
      && ph.Idle?
      && challenge in c.cfg.challenges
      && Decides(c.cfg, Seen(s, p), challenge, account, flag, found, verdict)
    case CommitSolve => ph.Submitting?
    case ReadTarget => ph.Targeting?
    case Kill => ph.Killing?
    case KillRaises => ph.Killing?
    case Delete => ph.Deleting?
  }

  predicate CanSweep(s: State, p: Pid, step: SweepStep) {
    var ph := PhaseOf(s, p);
    match step
    case StartSweep => ph.Idle?
    case Scan => ph.Scanning?
    case NextTarget(cid) => ph.Sweeping? && cid in ph.todo
    case EndSweep => ph.Sweeping?
    case ReleaseSweep => ph.SweepDone?
  }

  ghost predicate Enabled(c: Params, s: State, step: Step) {
    match step
    case Create(p, create) => CanCreate(c, s, p, create)
    case Serve(p, serve) => CanServe(c, s, p, serve)
    case Sweep(p, sweep) => CanSweep(s, p, sweep)
    case Exit(cid) => true
    case Tick(elapsed) => elapsed >= 0.0
  }

  /** RELEASE_LOCK by a session that does not own the lock changes nothing. */
  function ReleaseLock(locks: map<int, Pid>, account: int, p: Pid): map<int, Pid> {
    if account in locks && locks[account] == p then locks - {account} else locks
  }

  /** The row a healthy container is recorded with. */
  function Launched(c: Params, ph: Phase, port: string): Instance
    requires ph.Ready?
  {
    Instance(ph.challenge, OwnerOf(c.cfg, ph.account), port, ph.flag, ph.timestamp, ph.timestamp + c.lease)
  }

  function DoCreate(c: Params, s: State, p: Pid, step: CreateStep): State
    requires CanCreate(c, s, p, step)
  {
    var ph := PhaseOf(s, p);
    match step
    case Request(account, challenge) => Move(s, p, Waiting(account, challenge))
    case Acquire =>
      var t := Move(s, p, Locked(ph.account, ph.challenge));
      if c.locking then t.(locks := s.locks[ph.account := p]) else t
    case Timeout => Move(s, p, Releasing(ph.account))
    case Rollback => Goto(s, p, Fresh(ph.account, ph.challenge), if c.rollback then None else Sess(s, p).snap)
    case Probe => Read(s, p, Checked(ph.account, ph.challenge))
    case ListRows =>
      Read(s, p, Pruning(ph.account, ph.challenge, OwnedBy(c.cfg, View(s, p), ph.account), map[], {}))
    case CheckRow(cid) =>
      var unchecked := ph.unchecked - {cid};
      Move(s, p, if cid in s.running
                 then ph.(unchecked := unchecked, active := ph.active[cid := ph.unchecked[cid]])
                 else ph.(unchecked := unchecked, stale := ph.stale + {cid}))
    case CommitPrune =>
      var next := Pruned(ph.account, ph.challenge, ph.active);
      if ph.stale == {} then Move(s, p, next)
      else Goto(s, p, next, None).(db := Teardown(c.cfg, s.db, ph.stale))
    case Decide =>
      Move(s, p, if |ph.active| >= c.max || (exists k :: k in ph.active && ph.active[k].challenge == ph.challenge)
                 then Releasing(ph.account) else Launching(ph.account, ph.challenge))
    case GiveUp => Move(s, p, Releasing(ph.account))
    case Run(cid, flag) =>
      Move(s, p, Starting(ph.account, ph.challenge, cid, flag))
        .(running := s.running + {cid}, launched := s.launched[cid := Started(ph.account, ph.challenge, flag)])
    case Healthy => Move(s, p, Ready(ph.account, ph.challenge, ph.cid, ph.flag, s.now.Floor))
    case Fail => Goto(s, p, Failing(ph.account, ph.cid), None)
    case CommitLaunch(port) =>
      if Conflicts(s.db, ph.cid, ph.challenge, OwnerOf(c.cfg, ph.account))
      then Goto(s, p, Failing(ph.account, ph.cid), None)
      else Goto(s, p, Releasing(ph.account), None)
             .(db := Launch(s.db, ph.cid, Launched(c, ph, port)), recorded := s.recorded + {ph.cid})
    case KillOwn => Move(s, p, Releasing(ph.account)).(running := s.running - {ph.cid})
    case KillOwnRaises => Move(s, p, Releasing(ph.account)).(leaked := s.leaked + {ph.cid})
    case Release => Goto(s, p, Idle, None).(locks := ReleaseLock(s.locks, ph.account, p))
  }

  /** What a submission's commit writes: its decision was made on the session's snapshot. */
  function SolveCommit(c: Params, s: State, p: Pid): Commit
    requires PhaseOf(s, p).Submitting?
  {
    var ph := PhaseOf(s, p);
    CommitOf(c.cfg, Seen(s, p), s.db, ph.challenge, ph.account, ph.flag, s.now.Floor, ph.found, ph.verdict)
  }

  ghost function DoServe(c: Params, s: State, p: Pid, step: ServeStep): State
    requires CanServe(c, s, p, step)
  {
    var ph := PhaseOf(s, p);
    match step
    case Open => Read(s, p, Idle)
    case Find(cid, renew) => Read(s, p, Checking(cid, renew))
    case CheckRunning =>
      if ph.target !in s.running then Move(s, p, Deleting(ph.target, None))
      else if ph.renew then Move(s, p, Stamping(ph.target))
      else Goto(s, p, Idle, None)
    case Stamp => Move(s, p, Renewing(ph.target, (s.now + c.lease as real).Floor))
    case CommitRenew =>
      var t := Goto(s, p, Idle, None);
      if ph.target in s.db.instances then t.(db := Renewed(s.db, ph.target, ph.expires)) else t
    case FindToStop(cid) => Read(s, p, Targeting(cid, None))
    case Solve(account, challenge, flag, found, verdict) =>
      Read(s, p, Submitting(account, challenge, flag, found, verdict))
    case CommitSolve =>
      var w := SolveCommit(c, s, p);
      var stops := ph.verdict.Accept? && !w.Fails? && ph.found.Some?;
      Goto(s, p, if stops then Targeting(ph.found.value, None) else Idle, None)
        .(db := Committed(s.db, w))
    case ReadTarget => Read(s, p, Killing(ph.target, ph.target in View(s, p), ph.rest))
    case Kill =>
      (if ph.seen then Move(s, p, Deleting(ph.target, ph.rest)) else Continue(s, p, ph.rest))
        .(running := s.running - {ph.target})
    case KillRaises => Continue(s, p, ph.rest)
    case Delete => Goto(s, p, Resume(ph.rest), None).(db := Teardown(c.cfg, s.db, {ph.target}))
  }

  function DoSweep(c: Params, s: State, p: Pid, step: SweepStep): State
    requires CanSweep(s, p, step)
  {
    var ph := PhaseOf(s, p);
    match step
    case StartSweep =>
      if !c.locking then Move(s, p, Scanning)
      else if s.sweeper.None? then Move(s, p, Scanning).(sweeper := Some(p))
      else Move(s, p, SweepDone)
    case Scan => Read(s, p, Sweeping(set k | k in View(s, p) && View(s, p)[k].expires <= s.now.Floor))
    case NextTarget(cid) => Move(s, p, Targeting(cid, Some(ph.todo - {cid})))
    case EndSweep => Goto(s, p, SweepDone, None)
    case ReleaseSweep => Goto(s, p, Idle, None).(sweeper := if s.sweeper == Some(p) then None else s.sweeper)
  }

  ghost function Do(c: Params, s: State, step: Step): State
    requires Enabled(c, s, step)
  {
    match step
    case Create(p, create) => DoCreate(c, s, p, create)
    case Serve(p, serve) => DoServe(c, s, p, serve)
    case Sweep(p, sweep) => DoSweep(c, s, p, sweep)
    case Exit(cid) => s.(running := s.running - {cid})
    case Tick(elapsed) => s.(now := s.now + elapsed)
  }

  ghost predicate Next(c: Params, s: State, t: State) {
    exists step :: Enabled(c, s, step) && t == Do(c, s, step)
  }

  ghost predicate StepAt(c: Params, run: seq<State>, i: int)
    requires 0 <= i < |run| - 1
  {
    Next(c, run[i], run[i + 1])
  }

  /** A run: any interleaving of any number of sessions. */
  ghost predicate IsRun(c: Params, run: seq<State>) {
    && |run| > 0 && Init(run[0])
    && forall i :: 0 <= i < |run| - 1 ==> StepAt(c, run, i)
  }
}
