/**
 The inductive invariant of the lifecycle protocol, proved by rely and guarantee: a step changes
 the shared state only in ways every other session tolerates, and then re-establishes what its
 own session has learnt.
 */
module ProtocolInvariant {
  import opened Options
  import opened Sets
  import opened Tables
  import opened Ledger
  import opened Protocol

  // ---- What the phases mean ----

  /** The account whose lock a create request relies on in this phase. */
  function Critical(ph: Phase): Option<int> {
    match ph
    case Locked(a, _) => Some(a)
    case Fresh(a, _) => Some(a)
    case Checked(a, _) => Some(a)
    case Pruning(a, _, _, _, _) => Some(a)
    case Pruned(a, _, _) => Some(a)
    case Launching(a, _) => Some(a)
    case Starting(a, _, _, _) => Some(a)
    case Ready(a, _, _, _, _) => Some(a)
    case Failing(a, _) => Some(a)
    case _ => None
  }

  /** The account of a create request that has passed its rollback and still reads the tables. */
  function Reading(ph: Phase): Option<int> {
    if ph.Locked? then None else Critical(ph)
  }

  /** The container started by a create request that has not been recorded or killed yet. */
  function InFlight(ph: Phase): Option<Cid> {
    match ph
    case Starting(_, _, cid, _) => Some(cid)
    case Ready(_, _, cid, _, _) => Some(cid)
    case Failing(_, cid) => Some(cid)
    case _ => None
  }

  /** A sweep's session from the moment it may hold the sweep lock. */
  predicate SweepBody(ph: Phase) {
    match ph
    case Scanning => true
    case Sweeping(_) => true
    case Targeting(_, rest) => rest.Some?
    case Killing(_, _, rest) => rest.Some?
    case Deleting(_, rest) => rest.Some?
    case _ => false
  }

  predicate Safe(c: Params) { c.locking && c.rollback }

  function Rows(c: Params, s: State, account: int): set<Cid> {
    set k | k in s.db.instances && s.db.instances[k].owner == OwnerOf(c.cfg, account)
  }

  predicate HoldsLock(s: State, q: Pid, account: int) { account in s.locks && s.locks[account] == q }

  /** Rows read earlier are of recorded containers and, apart from their expiry, still accurate. */
  predicate Accurate(s: State, rows: map<Cid, Instance>) {
    forall k :: k in rows ==> k in s.recorded && (k in s.db.instances ==> SameLaunch(rows[k], s.db.instances[k]))
  }

  /** Nothing of this account's is recorded beyond what the request has counted. */
  ghost predicate Room(c: Params, s: State, account: int) {
    Safe(c) ==> |Rows(c, s, account)| < c.max
  }

  ghost predicate NoneFor(c: Params, s: State, account: int, challenge: int) {
    Safe(c) ==> forall k :: k in Rows(c, s, account) ==> s.db.instances[k].challenge != challenge
  }

  /** A row says whom, what for and with which flag its container was started. */
  predicate Records(c: Params, inst: Instance, what: Started) {
    inst.owner == OwnerOf(c.cfg, what.account) && inst.challenge == what.challenge && inst.flag == what.flag
  }

  ghost predicate OwnContainer(s: State, account: int, cid: Cid) {
    cid in s.launched && s.launched[cid].account == account && cid !in s.recorded
  }

  /** The container about to be recorded is the one this request has started. */
  ghost predicate OwnLaunch(s: State, ph: Phase) {
    && ph.Ready? && OwnContainer(s, ph.account, ph.cid)
    && s.launched[ph.cid] == Started(ph.account, ph.challenge, ph.flag)
  }

  ghost predicate FlagFits(c: Params, challenge: int, flag: string) {
    && challenge in c.cfg.challenges
    && (IsStatic(c.cfg, challenge) ==> flag == ExpectedStaticFlag(c.cfg.challenges[challenge]))
  }

  /** What a session in this phase knows about the shared state. */
  ghost predicate Knows(c: Params, s: State, ph: Phase) {
    match ph
    case Checked(a, ch) => ch in c.cfg.challenges
    case Pruning(a, ch, unchecked, active, stale) =>
      && ch in c.cfg.challenges
      && Accurate(s, unchecked) && Accurate(s, active)
      && stale <= s.recorded && stale !! s.running
      && (Safe(c) ==> Rows(c, s, a) <= unchecked.Keys + active.Keys + stale)
    case Pruned(a, ch, active) =>
      && ch in c.cfg.challenges
      && Accurate(s, active)
      && (Safe(c) ==> Rows(c, s, a) <= active.Keys)
    case Launching(a, ch) => ch in c.cfg.challenges && Room(c, s, a) && NoneFor(c, s, a, ch)
    case Starting(a, ch, cid, f) =>
      && FlagFits(c, ch, f) && Room(c, s, a) && NoneFor(c, s, a, ch) && OwnContainer(s, a, cid)
      && s.launched[cid] == Started(a, ch, f)
    case Ready(a, ch, cid, f, ts) =>
      && FlagFits(c, ch, f) && Room(c, s, a) && NoneFor(c, s, a, ch) && OwnContainer(s, a, cid)
      && s.launched[cid] == Started(a, ch, f) && ts <= s.now.Floor
    case Failing(a, cid) => Room(c, s, a) && OwnContainer(s, a, cid)
    case Submitting(_, _, _, found, _) => found.Some? ==> found.value in s.recorded
    case Checking(k, _) => k in s.recorded
    case Stamping(k) => k in s.recorded
    case Renewing(k, e) =>
      && k in s.recorded && e <= s.now.Floor + c.lease
      && (k in s.db.instances ==> s.db.instances[k].timestamp + c.lease <= e)
    case Targeting(k, rest) => k in s.recorded && (rest.Some? ==> rest.value <= s.recorded)
    case Killing(k, _, rest) => k in s.recorded && (rest.Some? ==> rest.value <= s.recorded)
    case Deleting(k, rest) => k in s.recorded && k !in s.running && (rest.Some? ==> rest.value <= s.recorded)
    case Sweeping(todo) => todo <= s.recorded
    case _ => true
  }

  /** A create that holds its lock and has rolled back reads every committed row of its account. */
  ghost predicate SnapshotFresh(c: Params, s: State, q: Pid) {
    forall a :: Safe(c) && Reading(PhaseOf(s, q)) == Some(a) ==> Rows(c, s, a) <= View(s, q).Keys
  }

  ghost predicate Good(c: Params, s: State, q: Pid) {
    var ph := PhaseOf(s, q);
    && (c.locking && Critical(ph).Some? ==> HoldsLock(s, q, Critical(ph).value))
    && (c.locking && SweepBody(ph) ==> s.sweeper == Some(q))
    && Accurate(s, View(s, q))
    && SnapshotFresh(c, s, q)
    && Knows(c, s, ph)
  }

  // ---- The shared state ----

  ghost predicate IsInFlight(s: State, k: Cid) { exists p :: InFlight(PhaseOf(s, p)) == Some(k) }

  ghost predicate Accounted(s: State, k: Cid) { k in s.db.instances || k in s.leaked || IsInFlight(s, k) }

  /** Tables, daemon and histories agree. */
  ghost predicate Histories(c: Params, s: State) {
    && s.db.instances.Keys <= s.recorded <= s.launched.Keys
    && s.running <= s.launched.Keys
    && (forall k :: k in s.db.instances ==> Records(c, s.db.instances[k], s.launched[k]))
  }

  /** Every running container is recorded, held by an in-flight create, or was given up on. */
  ghost predicate NoOrphans(s: State) { forall k :: k in s.running ==> Accounted(s, k) }

  /** No two creates hold the same container. */
  ghost predicate Exclusive(s: State) {
    forall p, q :: InFlight(PhaseOf(s, p)).Some? && InFlight(PhaseOf(s, p)) == InFlight(PhaseOf(s, q)) ==> p == q
  }

  ghost predicate LeaseBounds(c: Params, s: State) {
    forall k :: k in s.db.instances ==>
      s.db.instances[k].timestamp + c.lease <= s.db.instances[k].expires <= s.now.Floor + c.lease
  }

  ghost predicate Capacity(c: Params, s: State) {
    Safe(c) ==> forall a :: |Rows(c, s, a)| <= if c.max > 0 then c.max else 0
  }

  ghost predicate Global(c: Params, s: State) {
    && Sound(c.cfg, s.db)
    && Histories(c, s)
    && NoOrphans(s)
    && Exclusive(s)
    && LeaseBounds(c, s)
    && Capacity(c, s)
  }

  /** Tables that a session still reads from: sound, and at most behind in what others have committed. */
  ghost predicate Past(c: Params, s: State, d: Db) {
    Sound(c.cfg, d) && RandomRowsConserved(c.cfg, d, s.db) && d.reports <= s.db.reports
  }

  /** A session reads past tables, and a submission has decided on those. */
  ghost predicate Informed(c: Params, s: State, q: Pid) {
    var ph := PhaseOf(s, q);
    && Past(c, s, Seen(s, q))
    && (ph.Submitting? ==>
          && Sess(s, q).snap.Some? && ph.challenge in c.cfg.challenges
          && Decides(c.cfg, Seen(s, q), ph.challenge, ph.account, ph.flag, ph.found, ph.verdict))
  }

  ghost predicate Inv(c: Params, s: State) {
    && Global(c, s)
    && (forall q :: Good(c, s, q))
    && (forall q :: Informed(c, s, q))
  }

  // ---- Rely: what the others may do ----

  /** A row present after another session's step was there before, or is a fresh launch elsewhere. */
  ghost predicate RowFromOthers(c: Params, s: State, t: State, q: Pid, k: Cid)
    requires k in t.db.instances && k in t.launched
  {
    || (k in s.db.instances && SameLaunch(s.db.instances[k], t.db.instances[k]))
    || (k !in s.recorded && !(c.locking && HoldsLock(s, q, t.launched[k].account)))
  }

  ghost predicate Rely(c: Params, s: State, t: State, q: Pid) {
    && Sess(t, q) == Sess(s, q)
    && (forall k :: k in s.launched ==> k in t.launched && t.launched[k] == s.launched[k])
    && (forall k :: k in t.running && k in s.launched ==> k in s.running)
    && s.recorded <= t.recorded
    && (forall k :: InFlight(PhaseOf(s, q)) == Some(k) && k !in s.recorded ==> k !in t.recorded)
    && s.now <= t.now
    && (forall a :: HoldsLock(s, q, a) ==> HoldsLock(t, q, a))
    && (s.sweeper == Some(q) ==> t.sweeper == Some(q))
    && t.db.instances.Keys <= t.recorded <= t.launched.Keys
    && (forall k :: k in t.db.instances ==> Records(c, t.db.instances[k], t.launched[k]))
    && (forall k :: k in t.db.instances ==> RowFromOthers(c, s, t, q, k))
  }

  // ---- Stability: what a session knows survives the others' steps ----

  lemma OwnersDiffer(cfg: Config, a: int, b: int)
    ensures OwnerOf(cfg, a) == OwnerOf(cfg, b) <==> a == b
  {
  }

  /** Under its lock an account's rows can only disappear. */
  lemma RowsShrink(c: Params, s: State, t: State, q: Pid, a: int)
    requires Rely(c, s, t, q) && c.locking && HoldsLock(s, q, a)
    ensures Rows(c, t, a) <= Rows(c, s, a) && |Rows(c, t, a)| <= |Rows(c, s, a)|
    ensures forall k :: k in Rows(c, t, a) ==> t.db.instances[k].challenge == s.db.instances[k].challenge
  {
    forall k | k in Rows(c, t, a)
      ensures k in s.db.instances && SameLaunch(s.db.instances[k], t.db.instances[k])
    {
      OwnersDiffer(c.cfg, a, t.launched[k].account);
      assert RowFromOthers(c, s, t, q, k);
    }
    SubsetCard(Rows(c, t, a), Rows(c, s, a));
  }

  lemma AccurateStable(c: Params, s: State, t: State, q: Pid, rows: map<Cid, Instance>)
    requires Rely(c, s, t, q) && Accurate(s, rows)
    ensures Accurate(t, rows)
  {
    forall k | k in rows && k in t.db.instances
      ensures SameLaunch(rows[k], t.db.instances[k])
    {
      assert RowFromOthers(c, s, t, q, k);
    }
  }

  lemma ViewStable(c: Params, s: State, t: State, q: Pid)
    requires Rely(c, s, t, q) && Accurate(s, View(s, q))
    ensures Accurate(t, View(t, q))
  {
    if Sess(s, q).snap.Some? {
      AccurateStable(c, s, t, q, View(s, q));
    }
  }

  lemma KnowsStable(c: Params, s: State, t: State, q: Pid)
    requires Rely(c, s, t, q) && s.recorded <= s.launched.Keys
    requires Good(c, s, q)
    ensures Knows(c, t, PhaseOf(s, q))
  {
    var ph := PhaseOf(s, q);
    if Safe(c) && Critical(ph).Some? {
      RowsShrink(c, s, t, q, Critical(ph).value);
    }
    match ph
    case Pruning(a, ch, unchecked, active, stale) =>
      AccurateStable(c, s, t, q, unchecked);
      AccurateStable(c, s, t, q, active);
    case Pruned(a, ch, active) => AccurateStable(c, s, t, q, active);
    case Renewing(k, e) =>
      if k in t.db.instances { assert RowFromOthers(c, s, t, q, k); }
    case _ =>
  }

  lemma GoodStable(c: Params, s: State, t: State, q: Pid)
    requires Rely(c, s, t, q) && s.recorded <= s.launched.Keys
    requires Good(c, s, q)
    ensures Good(c, t, q)
  {
    KnowsStable(c, s, t, q);
    ViewStable(c, s, t, q);
    if Safe(c) && Reading(PhaseOf(s, q)).Some? {
      RowsShrink(c, s, t, q, Reading(PhaseOf(s, q)).value);
    }
  }

  // ---- Each step's effect on the shared state ----

  /** A transaction on the tables together with the step's session change. */
  ghost predicate RowsFrom(c: Params, s: State, t: State, p: Pid) {
    forall k :: k in t.db.instances ==>
      || (k in s.db.instances && SameLaunch(s.db.instances[k], t.db.instances[k]))
      || (InFlight(PhaseOf(s, p)) == Some(k) && k in s.launched && k !in s.recorded && k in t.recorded
          && Critical(PhaseOf(s, p)) == Some(s.launched[k].account)
          && Records(c, t.db.instances[k], s.launched[k]))
  }

  /** Everything a step of session `p` may do to the state. */
  ghost predicate Effect(c: Params, s: State, t: State, p: Pid) {
    && (forall q :: q != p ==> Sess(t, q) == Sess(s, q))
    && (forall k :: k in s.launched ==> k in t.launched && t.launched[k] == s.launched[k])
    && (forall k :: k in t.running && k in s.launched ==> k in s.running)
    && t.running <= t.launched.Keys
    && s.recorded <= t.recorded <= t.launched.Keys
    && (forall k :: k in t.recorded && k !in s.recorded ==> InFlight(PhaseOf(s, p)) == Some(k))
    && s.now <= t.now
    && (forall q, a :: q != p && HoldsLock(s, q, a) ==> HoldsLock(t, q, a))
    && (forall q :: q != p && s.sweeper == Some(q) ==> t.sweeper == Some(q))
    && t.db.instances.Keys <= t.recorded
    && RowsFrom(c, s, t, p)
  }

  ghost predicate Quiet(s: State, t: State, p: Pid) {
    t == s.(sessions := t.sessions) && (forall q :: q != p ==> Sess(t, q) == Sess(s, q))
  }

  lemma QuietEffect(c: Params, s: State, t: State, p: Pid)
    requires Histories(c, s) && Quiet(s, t, p)
    ensures Effect(c, s, t, p)
  {
  }

  predicate LoudCreate(step: CreateStep) {
    || step.Acquire? || step.CommitPrune? || step.Run? || step.CommitLaunch?
    || step.KillOwn? || step.KillOwnRaises? || step.Release?
  }

  lemma CreateQuiet(c: Params, s: State, p: Pid, step: CreateStep)
    requires CanCreate(c, s, p, step) && !LoudCreate(step)
    ensures Quiet(s, DoCreate(c, s, p, step), p)
  {
  }

  /** Forgetting instances, or leaving them as they are. */
  lemma ShrinkEffect(c: Params, s: State, t: State, p: Pid)
    requires Histories(c, s)
    requires forall q :: q != p ==> Sess(t, q) == Sess(s, q)
    requires t.launched == s.launched && t.running <= s.running && t.recorded == s.recorded && t.now == s.now
    requires t.locks == s.locks && t.sweeper == s.sweeper
    requires t.db.instances.Keys <= s.db.instances.Keys
    requires forall k :: k in t.db.instances ==> SameLaunch(s.db.instances[k], t.db.instances[k])
    ensures Effect(c, s, t, p)
  {
  }

  lemma CommitLaunchEffect(c: Params, s: State, p: Pid, port: string)
    requires Histories(c, s) && CanCreate(c, s, p, CommitLaunch(port))
    requires OwnLaunch(s, PhaseOf(s, p))
    ensures Effect(c, s, DoCreate(c, s, p, CommitLaunch(port)), p)
  {
    var ph := PhaseOf(s, p);
    if Conflicts(s.db, ph.cid, ph.challenge, OwnerOf(c.cfg, ph.account)) {
      QuietEffect(c, s, DoCreate(c, s, p, CommitLaunch(port)), p);
    }
  }

  lemma RunEffect(c: Params, s: State, p: Pid, cid: Cid, flag: string)
    requires Histories(c, s) && CanCreate(c, s, p, Run(cid, flag))
    ensures Effect(c, s, DoCreate(c, s, p, Run(cid, flag)), p)
  {
  }

  lemma LockEffect(c: Params, s: State, t: State, p: Pid)
    requires Histories(c, s)
    requires Quiet(s, t.(locks := s.locks), p)
    requires forall q, a :: q != p && HoldsLock(s, q, a) ==> HoldsLock(t, q, a)
    ensures Effect(c, s, t, p)
  {
  }

  /** The steps that forget rows, stop the session's own container or give it up. */
  lemma CreateShrinkEffect(c: Params, s: State, p: Pid, step: CreateStep)
    requires Histories(c, s) && CanCreate(c, s, p, step) && (step.CommitPrune? || step.KillOwn? || step.KillOwnRaises?)
    ensures Effect(c, s, DoCreate(c, s, p, step), p)
  {
    ShrinkEffect(c, s, DoCreate(c, s, p, step), p);
  }

  lemma CreateLockEffect(c: Params, s: State, p: Pid, step: CreateStep)
    requires Histories(c, s) && CanCreate(c, s, p, step) && (step.Acquire? || step.Release?)
    ensures Effect(c, s, DoCreate(c, s, p, step), p)
  {
    LockEffect(c, s, DoCreate(c, s, p, step), p);
  }

  lemma CreateEffect(c: Params, s: State, p: Pid, step: CreateStep)
    requires Histories(c, s) && CanCreate(c, s, p, step)
    requires step.CommitLaunch? ==> OwnLaunch(s, PhaseOf(s, p))
    ensures Effect(c, s, DoCreate(c, s, p, step), p)
  {
    if !LoudCreate(step) {
      CreateQuiet(c, s, p, step);
      QuietEffect(c, s, DoCreate(c, s, p, step), p);
    } else {
      match step
      case Run(cid, flag) => RunEffect(c, s, p, cid, flag);
      case CommitLaunch(port) => CommitLaunchEffect(c, s, p, port);
      case Acquire => CreateLockEffect(c, s, p, step);
      case Release => CreateLockEffect(c, s, p, step);
      case _ => CreateShrinkEffect(c, s, p, step);
    }
  }

  /** Apart from the tables, a serve step changes its session and may stop a container. */
  lemma ServeFrame(c: Params, s: State, p: Pid, step: ServeStep)
    requires CanServe(c, s, p, step)
    ensures var t := DoServe(c, s, p, step);
      && (forall q :: q != p ==> Sess(t, q) == Sess(s, q))
      && t.leaked == s.leaked && t.launched == s.launched && t.recorded == s.recorded
      && t.running <= s.running && t.now == s.now
      && t.locks == s.locks && t.sweeper == s.sweeper
  {
    match step
    case CommitSolve =>
    case Kill =>
    case _ =>
  }

  lemma ServeOutsideCreate(c: Params, s: State, p: Pid, step: ServeStep)
    requires CanServe(c, s, p, step)
    ensures var t := DoServe(c, s, p, step);
      && InFlight(PhaseOf(s, p)) == None && InFlight(PhaseOf(t, p)) == None && Critical(PhaseOf(t, p)) == None
  {
  }

  lemma ServeKeys(c: Params, s: State, p: Pid, step: ServeStep)
    requires CanServe(c, s, p, step)
    ensures DoServe(c, s, p, step).db.instances.Keys
         == s.db.instances.Keys - (if step.Delete? then {PhaseOf(s, p).target} else {})
  {
    ServeRows(c, s, p, step);
  }

  /** It deletes the stopped target or renews it, and otherwise leaves the instances alone. */
  lemma ServeRows(c: Params, s: State, p: Pid, step: ServeStep)
    requires CanServe(c, s, p, step)
    ensures var t, ph := DoServe(c, s, p, step), PhaseOf(s, p);
      && t.db.instances.Keys == s.db.instances.Keys - (if step.Delete? then {ph.target} else {})
      && forall k :: k in t.db.instances ==>
           t.db.instances[k] == if step.CommitRenew? && k == ph.target then s.db.instances[k].(expires := ph.expires)
                                else s.db.instances[k]
  {
    match step
    case CommitSolve =>
    case Delete =>
    case CommitRenew =>
    case _ =>
  }

  lemma ServeEffect(c: Params, s: State, p: Pid, step: ServeStep)
    requires Histories(c, s) && CanServe(c, s, p, step)
    ensures Effect(c, s, DoServe(c, s, p, step), p)
  {
    ServeFrame(c, s, p, step);
    ServeRows(c, s, p, step);
    ShrinkEffect(c, s, DoServe(c, s, p, step), p);
  }

  /** A step keeps the snapshot, opens one on what it reads, or drops it. */
  predicate SnapRule(s: State, t: State, p: Pid) {
    Sess(t, p).snap == Sess(s, p).snap || Sess(t, p).snap == Some(Seen(s, p)) || Sess(t, p).snap == None
  }

  lemma SweepFrame(c: Params, s: State, p: Pid, step: SweepStep)
    requires CanSweep(s, p, step)
    ensures var t := DoSweep(c, s, p, step);
      && Quiet(s, t.(sweeper := s.sweeper), p)
      && (forall q :: q != p && s.sweeper == Some(q) ==> t.sweeper == Some(q))
      && InFlight(PhaseOf(s, p)) == None && InFlight(PhaseOf(t, p)) == None
      && SnapRule(s, t, p)
  {
  }

  lemma SweepEffect(c: Params, s: State, p: Pid, step: SweepStep)
    requires Histories(c, s) && CanSweep(s, p, step)
    ensures Effect(c, s, DoSweep(c, s, p, step), p)
  {
    SweepFrame(c, s, p, step);
  }

  lemma EffectHistories(c: Params, s: State, t: State, p: Pid)
    requires Histories(c, s) && Effect(c, s, t, p)
    ensures Histories(c, t)
  {
  }

  /** What one session does is what every other session relies on. */
  lemma EffectIsReliable(c: Params, s: State, t: State, p: Pid, q: Pid)
    requires Histories(c, s) && Exclusive(s) && Effect(c, s, t, p) && p != q
    requires c.locking && Critical(PhaseOf(s, p)).Some? ==> HoldsLock(s, p, Critical(PhaseOf(s, p)).value)
    ensures Rely(c, s, t, q)
  {
    EffectHistories(c, s, t, p);
    forall k | k in t.db.instances
      ensures RowFromOthers(c, s, t, q, k)
    {
    }
  }

  // ---- The acting session re-establishes what it knows ----

  ghost predicate LocksHeld(c: Params, s: State, q: Pid) {
    && (c.locking && Critical(PhaseOf(s, q)).Some? ==> HoldsLock(s, q, Critical(PhaseOf(s, q)).value))
    && (c.locking && SweepBody(PhaseOf(s, q)) ==> s.sweeper == Some(q))
  }

  lemma AcquireLocks(c: Params, s: State, p: Pid)
    requires CanCreate(c, s, p, Acquire)
    ensures LocksHeld(c, DoCreate(c, s, p, Acquire), p)
  {
  }

  /** Apart from acquiring and releasing, a create neither touches the locks nor starts relying on one. */
  lemma CreateSameLocks(c: Params, s: State, p: Pid, step: CreateStep)
    requires CanCreate(c, s, p, step) && !step.Acquire?
    ensures var t := DoCreate(c, s, p, step);
      && !SweepBody(PhaseOf(t, p))
      && (Critical(PhaseOf(t, p)).Some? ==> Critical(PhaseOf(t, p)) == Critical(PhaseOf(s, p)) && t.locks == s.locks)
  {
  }

  lemma CreateLocks(c: Params, s: State, p: Pid, step: CreateStep)
    requires CanCreate(c, s, p, step) && LocksHeld(c, s, p)
    ensures LocksHeld(c, DoCreate(c, s, p, step), p)
  {
    if step.Acquire? {
      AcquireLocks(c, s, p);
    } else {
      CreateSameLocks(c, s, p, step);
    }
  }

  lemma ServeStaysInSweep(c: Params, s: State, p: Pid, step: ServeStep)
    requires CanServe(c, s, p, step)
    ensures SweepBody(PhaseOf(DoServe(c, s, p, step), p)) ==> SweepBody(PhaseOf(s, p))
  {
  }

  lemma ServeLocks(c: Params, s: State, p: Pid, step: ServeStep)
    requires CanServe(c, s, p, step) && LocksHeld(c, s, p)
    ensures LocksHeld(c, DoServe(c, s, p, step), p)
  {
    ServeFrame(c, s, p, step);
    ServeOutsideCreate(c, s, p, step);
    ServeStaysInSweep(c, s, p, step);
  }

  lemma SweepLocks(c: Params, s: State, p: Pid, step: SweepStep)
    requires CanSweep(s, p, step) && LocksHeld(c, s, p)
    ensures LocksHeld(c, DoSweep(c, s, p, step), p)
  {
  }

  lemma CreateSnap(c: Params, s: State, p: Pid, step: CreateStep)
    requires CanCreate(c, s, p, step)
    ensures SnapRule(s, DoCreate(c, s, p, step), p)
  {
  }

  lemma ServeSnap(c: Params, s: State, p: Pid, step: ServeStep)
    requires CanServe(c, s, p, step)
    ensures SnapRule(s, DoServe(c, s, p, step), p)
  {
  }

  lemma SnapAccurate(c: Params, s: State, t: State, p: Pid)
    requires Histories(c, s) && Effect(c, s, t, p) && SnapRule(s, t, p)
    requires Accurate(s, View(s, p))
    ensures Accurate(t, View(t, p))
  {
  }

  /** A session that goes on reading for the same account still sees all of its rows. */
  lemma SnapFresh(c: Params, s: State, t: State, p: Pid)
    requires Effect(c, s, t, p) && SnapRule(s, t, p) && SnapshotFresh(c, s, p)
    requires Reading(PhaseOf(t, p)).Some? ==>
               && t.recorded == s.recorded
               && (Reading(PhaseOf(s, p)) == Reading(PhaseOf(t, p)) || Sess(t, p).snap.None?)
    ensures SnapshotFresh(c, t, p)
  {
  }

  /** A create goes on reading for its account, or has just dropped its snapshot, or stops reading. */
  lemma CreateReading(c: Params, s: State, p: Pid, step: CreateStep)
    requires CanCreate(c, s, p, step) && c.rollback
    ensures var t := DoCreate(c, s, p, step);
      Reading(PhaseOf(t, p)).Some? ==>
        && t.recorded == s.recorded
        && (Reading(PhaseOf(s, p)) == Reading(PhaseOf(t, p)) || Sess(t, p).snap.None?)
  {
  }

  lemma CreateFresh(c: Params, s: State, p: Pid, step: CreateStep)
    requires CanCreate(c, s, p, step) && Effect(c, s, DoCreate(c, s, p, step), p) && SnapshotFresh(c, s, p)
    ensures SnapshotFresh(c, DoCreate(c, s, p, step), p)
  {
    if Safe(c) {
      CreateSnap(c, s, p, step);
      CreateReading(c, s, p, step);
      SnapFresh(c, s, DoCreate(c, s, p, step), p);
    }
  }

  lemma ListRowsKnows(c: Params, s: State, p: Pid)
    requires CanCreate(c, s, p, ListRows) && Good(c, s, p)
    ensures Knows(c, DoCreate(c, s, p, ListRows), PhaseOf(DoCreate(c, s, p, ListRows), p))
  {
    var ph := PhaseOf(s, p);
    var t := DoCreate(c, s, p, ListRows);
    if Safe(c) {
      assert Reading(ph) == Some(ph.account);
      forall k | k in Rows(c, t, ph.account)
        ensures k in OwnedBy(c.cfg, View(s, p), ph.account)
      {
        assert k in Rows(c, s, ph.account);
        assert SameLaunch(View(s, p)[k], s.db.instances[k]);
      }
    }
  }

  lemma CheckRowKnows(c: Params, s: State, p: Pid, cid: Cid)
    requires CanCreate(c, s, p, CheckRow(cid)) && Knows(c, s, PhaseOf(s, p))
    ensures Knows(c, DoCreate(c, s, p, CheckRow(cid)), PhaseOf(DoCreate(c, s, p, CheckRow(cid)), p))
  {
  }

  lemma CommitPruneKnows(c: Params, s: State, p: Pid)
    requires CanCreate(c, s, p, CommitPrune) && Knows(c, s, PhaseOf(s, p))
    ensures Knows(c, DoCreate(c, s, p, CommitPrune), PhaseOf(DoCreate(c, s, p, CommitPrune), p))
  {
  }

  /** The capacity check: fewer active containers than allowed, and none for this challenge. */
  lemma DecideKnows(c: Params, s: State, p: Pid)
    requires CanCreate(c, s, p, Decide) && Knows(c, s, PhaseOf(s, p))
    ensures Knows(c, DoCreate(c, s, p, Decide), PhaseOf(DoCreate(c, s, p, Decide), p))
  {
    var ph := PhaseOf(s, p);
    var t := DoCreate(c, s, p, Decide);
    if Safe(c) {
      SubsetCard(Rows(c, s, ph.account), ph.active.Keys);
      assert Rows(c, t, ph.account) == Rows(c, s, ph.account);
    }
  }

  lemma SameRows(c: Params, s: State, t: State)
    requires t.db == s.db
    ensures forall a :: Rows(c, t, a) == Rows(c, s, a)
  {
  }

  lemma LaunchKnows(c: Params, s: State, p: Pid, step: CreateStep)
    requires Histories(c, s) && Knows(c, s, PhaseOf(s, p)) && CanCreate(c, s, p, step)
    requires step.Run? || step.Healthy? || step.Fail? || step.CommitLaunch?
    ensures Knows(c, DoCreate(c, s, p, step), PhaseOf(DoCreate(c, s, p, step), p))
  {
    var t := DoCreate(c, s, p, step);
    if t.db == s.db {
      SameRows(c, s, t);
    }
  }

  lemma CreateKnows(c: Params, s: State, p: Pid, step: CreateStep)
    requires Histories(c, s) && Good(c, s, p) && CanCreate(c, s, p, step)
    ensures Knows(c, DoCreate(c, s, p, step), PhaseOf(DoCreate(c, s, p, step), p))
  {
    var t := DoCreate(c, s, p, step);
    match step
    case ListRows => ListRowsKnows(c, s, p);
    case CheckRow(cid) => CheckRowKnows(c, s, p, cid);
    case CommitPrune => CommitPruneKnows(c, s, p);
    case Decide => DecideKnows(c, s, p);
    case Run(_, _) => LaunchKnows(c, s, p, step);
    case Healthy => LaunchKnows(c, s, p, step);
    case Fail => LaunchKnows(c, s, p, step);
    case CommitLaunch(_) => LaunchKnows(c, s, p, step);
    case _ =>
  }

  /** Steps that take a target from the table. */
  lemma FindKnows(c: Params, s: State, p: Pid, step: ServeStep)
    requires CanServe(c, s, p, step) && (step.Find? || step.FindToStop?) && Accurate(s, View(s, p))
    ensures Knows(c, DoServe(c, s, p, step), PhaseOf(DoServe(c, s, p, step), p))
  {
  }

  lemma SolveKnows(c: Params, s: State, p: Pid, step: ServeStep)
    requires CanServe(c, s, p, step) && step.Solve? && Accurate(s, View(s, p))
    ensures Knows(c, DoServe(c, s, p, step), PhaseOf(DoServe(c, s, p, step), p))
  {
  }

  lemma StampKnows(c: Params, s: State, p: Pid)
    requires CanServe(c, s, p, Stamp) && LeaseBounds(c, s) && Knows(c, s, PhaseOf(s, p))
    ensures Knows(c, DoServe(c, s, p, Stamp), PhaseOf(DoServe(c, s, p, Stamp), p))
  {
  }

  lemma CommitKnows(c: Params, s: State, p: Pid)
    requires CanServe(c, s, p, CommitSolve) && Knows(c, s, PhaseOf(s, p))
    ensures Knows(c, DoServe(c, s, p, CommitSolve), PhaseOf(DoServe(c, s, p, CommitSolve), p))
  {
  }

  /** The other steps only pass on what the session knows, or what it sees of the daemon. */
  lemma GoesOnKnowing(c: Params, s: State, p: Pid, step: ServeStep)
    requires CanServe(c, s, p, step)
    requires !step.Find? && !step.FindToStop? && !step.Solve? && !step.Stamp? && !step.CommitSolve?
    requires Knows(c, s, PhaseOf(s, p))
    ensures Knows(c, DoServe(c, s, p, step), PhaseOf(DoServe(c, s, p, step), p))
  {
  }

  lemma ServeKnows(c: Params, s: State, p: Pid, step: ServeStep)
    requires Histories(c, s) && LeaseBounds(c, s) && Accurate(s, View(s, p)) && Knows(c, s, PhaseOf(s, p))
    requires CanServe(c, s, p, step)
    ensures Knows(c, DoServe(c, s, p, step), PhaseOf(DoServe(c, s, p, step), p))
  {
    match step
    case Find(_, _) => FindKnows(c, s, p, step);
    case FindToStop(_) => FindKnows(c, s, p, step);
    case Solve(_, _, _, _, _) => SolveKnows(c, s, p, step);
    case Stamp => StampKnows(c, s, p);
    case CommitSolve => CommitKnows(c, s, p);
    case _ => GoesOnKnowing(c, s, p, step);
  }

  lemma ScanKnows(c: Params, s: State, p: Pid)
    requires Accurate(s, View(s, p)) && CanSweep(s, p, Scan)
    ensures Knows(c, DoSweep(c, s, p, Scan), PhaseOf(DoSweep(c, s, p, Scan), p))
  {
  }

  lemma NextTargetKnows(c: Params, s: State, p: Pid, cid: Cid)
    requires Knows(c, s, PhaseOf(s, p)) && CanSweep(s, p, NextTarget(cid))
    ensures Knows(c, DoSweep(c, s, p, NextTarget(cid)), PhaseOf(DoSweep(c, s, p, NextTarget(cid)), p))
  {
  }

  lemma SweepKnows(c: Params, s: State, p: Pid, step: SweepStep)
    requires Accurate(s, View(s, p)) && Knows(c, s, PhaseOf(s, p)) && CanSweep(s, p, step)
    ensures Knows(c, DoSweep(c, s, p, step), PhaseOf(DoSweep(c, s, p, step), p))
  {
    match step
    case Scan => ScanKnows(c, s, p);
    case NextTarget(cid) => NextTargetKnows(c, s, p, cid);
    case _ =>
  }

  lemma CreateGood(c: Params, s: State, p: Pid, step: CreateStep)
    requires Histories(c, s) && Good(c, s, p) && CanCreate(c, s, p, step)
    ensures Good(c, DoCreate(c, s, p, step), p)
  {
    CreateEffect(c, s, p, step);
    CreateLocks(c, s, p, step);
    CreateSnap(c, s, p, step);
    SnapAccurate(c, s, DoCreate(c, s, p, step), p);
    CreateFresh(c, s, p, step);
    CreateKnows(c, s, p, step);
  }

  lemma ServeGood(c: Params, s: State, p: Pid, step: ServeStep)
    requires Histories(c, s) && LeaseBounds(c, s) && Good(c, s, p) && CanServe(c, s, p, step)
    ensures Good(c, DoServe(c, s, p, step), p)
  {
    var t := DoServe(c, s, p, step);
    assert LocksHeld(c, t, p) by { ServeLocks(c, s, p, step); }
    assert SnapshotFresh(c, t, p) by { ServeOutsideCreate(c, s, p, step); }
    assert Knows(c, t, PhaseOf(t, p)) by { ServeKnows(c, s, p, step); }
    assert Accurate(t, View(t, p)) by {
      ServeEffect(c, s, p, step);
      ServeSnap(c, s, p, step);
      SnapAccurate(c, s, t, p);
    }
  }

  lemma SweepGood(c: Params, s: State, p: Pid, step: SweepStep)
    requires Histories(c, s) && Good(c, s, p) && CanSweep(s, p, step)
    ensures Good(c, DoSweep(c, s, p, step), p)
  {
    SweepEffect(c, s, p, step);
    SweepLocks(c, s, p, step);
    SweepFrame(c, s, p, step);
    SnapAccurate(c, s, DoSweep(c, s, p, step), p);
    SweepKnows(c, s, p, step);
  }

  // ---- The shared part of the invariant ----

  /** The ledger transaction a step performs. */
  ghost function Transaction(c: Params, s: State, step: Step): Op
    requires Enabled(c, s, step)
  {
    match step
    case Create(p, CommitPrune) => if PhaseOf(s, p).stale == {} then Skip else Forget(PhaseOf(s, p).stale)
    case Create(p, CommitLaunch(port)) =>
      var ph := PhaseOf(s, p);
      if Conflicts(s.db, ph.cid, ph.challenge, OwnerOf(c.cfg, ph.account)) then Skip
      else Insert(ph.cid, Launched(c, ph, port))
    case Serve(p, CommitRenew) =>
      var ph := PhaseOf(s, p);
      if ph.target in s.db.instances then Extend(ph.target, ph.expires) else Skip
    case Serve(p, CommitSolve) => OpOf(SolveCommit(c, s, p))
    case Serve(p, Delete) => Forget({PhaseOf(s, p).target})
    case _ => Skip
  }

  lemma CreateTransacts(c: Params, s: State, p: Pid, step: CreateStep)
    requires CanCreate(c, s, p, step) && Knows(c, s, PhaseOf(s, p))
    ensures Does(c.cfg, s.db, Transaction(c, s, Create(p, step)), DoCreate(c, s, p, step).db)
  {
  }

  lemma CommitTransacts(c: Params, s: State, p: Pid)
    requires CanServe(c, s, p, CommitSolve) && Informed(c, s, p)
    ensures Does(c.cfg, s.db, OpOf(SolveCommit(c, s, p)), DoServe(c, s, p, CommitSolve).db)
  {
    var ph := PhaseOf(s, p);
    CommitDoes(c.cfg, Seen(s, p), s.db, ph.challenge, ph.account, ph.flag, s.now.Floor, ph.found, ph.verdict);
  }

  lemma ServeTransacts(c: Params, s: State, p: Pid, step: ServeStep)
    requires CanServe(c, s, p, step) && Informed(c, s, p)
    ensures Does(c.cfg, s.db, Transaction(c, s, Serve(p, step)), DoServe(c, s, p, step).db)
  {
    match step
    case CommitSolve => CommitTransacts(c, s, p);
    case _ =>
  }

  /** Every step of the protocol is one transaction of the ledger, or leaves the tables alone. */
  lemma StepTransacts(c: Params, s: State, step: Step)
    requires Sound(c.cfg, s.db) && Enabled(c, s, step)
    requires step.Create? ==> Knows(c, s, PhaseOf(s, step.p))
    requires step.Serve? ==> Informed(c, s, step.p)
    ensures Does(c.cfg, s.db, Transaction(c, s, step), Do(c, s, step).db)
    ensures Sound(c.cfg, Do(c, s, step).db)
  {
    match step {
      case Create(p, create) => CreateTransacts(c, s, p, create);
      case Serve(p, serve) => ServeTransacts(c, s, p, serve);
      case _ =>
    }
    TransactionSound(c.cfg, s.db, Transaction(c, s, step), Do(c, s, step).db);
  }

  /** A step that keeps its session's container in flight, and every live row, keeps containers accounted for. */
  lemma OrphansKept(s: State, t: State, p: Pid)
    requires NoOrphans(s)
    requires forall q :: q != p ==> Sess(t, q) == Sess(s, q)
    requires s.leaked <= t.leaked
    requires forall k :: k in t.running && k in s.running && k in s.db.instances ==> k in t.db.instances
    requires forall k :: k in t.running && k !in s.running ==> InFlight(PhaseOf(t, p)) == Some(k)
    requires forall k :: k in t.running && InFlight(PhaseOf(s, p)) == Some(k) ==>
               InFlight(PhaseOf(t, p)) == Some(k) || k in t.db.instances || k in t.leaked
    ensures NoOrphans(t)
  {
    forall k | k in t.running
      ensures Accounted(t, k)
    {
      if k !in s.running {
        assert InFlight(PhaseOf(t, p)) == Some(k);
      } else {
        assert Accounted(s, k);
        if k !in s.db.instances && k !in s.leaked {
          var q :| InFlight(PhaseOf(s, q)) == Some(k);
          if q != p { assert InFlight(PhaseOf(t, q)) == Some(k); }
        }
      }
    }
  }

  /** Only `Run` starts a container, and no step loses one that it has in flight. */
  lemma CreateInFlight(c: Params, s: State, p: Pid, step: CreateStep)
    requires CanCreate(c, s, p, step)
    ensures var t := DoCreate(c, s, p, step);
      && (forall k :: k in t.running && k !in s.running ==> InFlight(PhaseOf(t, p)) == Some(k))
      && (forall k :: k in t.running && InFlight(PhaseOf(s, p)) == Some(k) ==>
            InFlight(PhaseOf(t, p)) == Some(k) || k in t.db.instances || k in t.leaked)
  {
    match step
    case Run(_, _) =>
    case CommitLaunch(_) =>
    case KillOwn =>
    case _ =>
  }

  lemma CreateKeepsRunning(c: Params, s: State, p: Pid, step: CreateStep)
    requires CanCreate(c, s, p, step) && Knows(c, s, PhaseOf(s, p))
    ensures forall k :: k in s.running && k in s.db.instances ==> k in DoCreate(c, s, p, step).db.instances
  {
    forall k | k in s.db.instances && k !in DoCreate(c, s, p, step).db.instances
      ensures k !in s.running
    {
      CreateRemovals(c, s, p, step, k);
    }
  }

  lemma CreateFrame(c: Params, s: State, p: Pid, step: CreateStep)
    requires CanCreate(c, s, p, step)
    ensures var t := DoCreate(c, s, p, step);
      s.leaked <= t.leaked && forall q :: q != p ==> Sess(t, q) == Sess(s, q)
  {
  }

  lemma CreateOrphans(c: Params, s: State, p: Pid, step: CreateStep)
    requires NoOrphans(s) && CanCreate(c, s, p, step) && Knows(c, s, PhaseOf(s, p))
    ensures NoOrphans(DoCreate(c, s, p, step))
  {
    var t := DoCreate(c, s, p, step);
    assert s.leaked <= t.leaked && forall q :: q != p ==> Sess(t, q) == Sess(s, q) by { CreateFrame(c, s, p, step); }
    assert forall k :: k in s.running && k in s.db.instances ==> k in t.db.instances by {
      CreateKeepsRunning(c, s, p, step);
    }
    CreateInFlight(c, s, p, step);
    OrphansKept(s, t, p);
  }

  lemma ServeOrphans(c: Params, s: State, p: Pid, step: ServeStep)
    requires NoOrphans(s) && CanServe(c, s, p, step)
    requires step.Delete? ==> PhaseOf(s, p).target !in s.running
    ensures NoOrphans(DoServe(c, s, p, step))
  {
    var t := DoServe(c, s, p, step);
    assert t.running <= s.running && t.leaked == s.leaked && forall q :: q != p ==> Sess(t, q) == Sess(s, q) by {
      ServeFrame(c, s, p, step);
    }
    assert InFlight(PhaseOf(s, p)).None? by { ServeOutsideCreate(c, s, p, step); }
    assert forall k :: k in s.running && k in s.db.instances ==> k in t.db.instances by { ServeKeys(c, s, p, step); }
    OrphansKept(s, t, p);
  }

  /** Two sessions never have the same container in flight, since each starts a new one. */
  lemma ExclusiveKept(s: State, t: State, p: Pid)
    requires Exclusive(s)
    requires forall q :: q != p ==> Sess(t, q) == Sess(s, q)
    requires InFlight(PhaseOf(t, p)).Some? && InFlight(PhaseOf(t, p)) != InFlight(PhaseOf(s, p)) ==>
               forall q :: q != p ==> InFlight(PhaseOf(s, q)) != InFlight(PhaseOf(t, p))
    ensures Exclusive(t)
  {
    forall q, r | InFlight(PhaseOf(t, q)).Some? && InFlight(PhaseOf(t, q)) == InFlight(PhaseOf(t, r))
      ensures q == r
    {
      var held, other := InFlight(PhaseOf(s, q)), InFlight(PhaseOf(s, r));
      assert q != p ==> InFlight(PhaseOf(t, q)) == held;
      assert r != p ==> InFlight(PhaseOf(t, r)) == other;
    }
  }

  lemma CreateExclusive(c: Params, s: State, p: Pid, step: CreateStep)
    requires Exclusive(s) && CanCreate(c, s, p, step) && forall q :: Knows(c, s, PhaseOf(s, q))
    ensures Exclusive(DoCreate(c, s, p, step))
  {
    forall q | step.Run? && InFlight(PhaseOf(s, q)).Some?
      ensures InFlight(PhaseOf(s, q)).value in s.launched
    {
      assert Knows(c, s, PhaseOf(s, q));
    }
    ExclusiveKept(s, DoCreate(c, s, p, step), p);
  }

  lemma CommitLaunchLease(c: Params, s: State, p: Pid, port: string)
    requires LeaseBounds(c, s) && CanCreate(c, s, p, CommitLaunch(port)) && PhaseOf(s, p).timestamp <= s.now.Floor
    ensures LeaseBounds(c, DoCreate(c, s, p, CommitLaunch(port)))
  {
  }

  lemma CreateLease(c: Params, s: State, p: Pid, step: CreateStep)
    requires LeaseBounds(c, s) && CanCreate(c, s, p, step) && Knows(c, s, PhaseOf(s, p))
    ensures LeaseBounds(c, DoCreate(c, s, p, step))
  {
    match step
    case CommitLaunch(port) => CommitLaunchLease(c, s, p, port);
    case _ =>
  }

  lemma ServeLease(c: Params, s: State, p: Pid, step: ServeStep)
    requires LeaseBounds(c, s) && CanServe(c, s, p, step) && Knows(c, s, PhaseOf(s, p))
    ensures LeaseBounds(c, DoServe(c, s, p, step))
  {
    ServeFrame(c, s, p, step);
    ServeRows(c, s, p, step);
  }

  /** Steps that add no row keep every account within its capacity. */
  lemma CapacityShrinks(c: Params, s: State, t: State)
    requires Capacity(c, s)
    requires forall k :: k in t.db.instances ==>
      k in s.db.instances && t.db.instances[k].owner == s.db.instances[k].owner
    ensures Capacity(c, t)
  {
    forall a ensures |Rows(c, t, a)| <= |Rows(c, s, a)| {
      SubsetCard(Rows(c, t, a), Rows(c, s, a));
    }
  }

  lemma CapacityGrows(c: Params, s: State, t: State, account: int, cid: Cid, inst: Instance)
    requires Capacity(c, s) && Room(c, s, account)
    requires t.db.instances == s.db.instances[cid := inst] && cid !in s.db.instances
    requires inst.owner == OwnerOf(c.cfg, account)
    ensures Capacity(c, t)
  {
    forall a ensures Rows(c, t, a) == if a == account then Rows(c, s, a) + {cid} else Rows(c, s, a) {
      OwnersDiffer(c.cfg, a, account);
    }
  }

  lemma CreateCapacity(c: Params, s: State, p: Pid, step: CreateStep)
    requires Capacity(c, s) && CanCreate(c, s, p, step) && Knows(c, s, PhaseOf(s, p))
    ensures Capacity(c, DoCreate(c, s, p, step))
  {
    var t := DoCreate(c, s, p, step);
    if step.CommitLaunch? && t.db != s.db {
      var ph := PhaseOf(s, p);
      CapacityGrows(c, s, t, ph.account, ph.cid, Launched(c, ph, step.port));
    } else {
      CapacityShrinks(c, s, t);
    }
  }

  lemma ServeCapacity(c: Params, s: State, p: Pid, step: ServeStep)
    requires Capacity(c, s) && CanServe(c, s, p, step)
    ensures Capacity(c, DoServe(c, s, p, step))
  {
    ServeRows(c, s, p, step);
    CapacityShrinks(c, s, DoServe(c, s, p, step));
  }

  // ---- The invariant is inductive ----

  lemma InitInv(c: Params, s: State)
    requires Init(s)
    ensures Inv(c, s)
  {
  }

  lemma OthersGood(c: Params, s: State, t: State, p: Pid)
    requires Inv(c, s) && Effect(c, s, t, p) && Good(c, t, p)
    ensures forall q :: Good(c, t, q)
  {
    forall q | q != p
      ensures Good(c, t, q)
    {
      assert Good(c, s, p) && Good(c, s, q);
      EffectIsReliable(c, s, t, p, q);
      GoodStable(c, s, t, q);
    }
  }

  lemma CreateGlobal(c: Params, s: State, p: Pid, step: CreateStep)
    requires Global(c, s) && CanCreate(c, s, p, step) && forall q :: Knows(c, s, PhaseOf(s, q))
    ensures Global(c, DoCreate(c, s, p, step))
  {
    var t := DoCreate(c, s, p, step);
    assert Knows(c, s, PhaseOf(s, p));
    assert Histories(c, t) by {
      CreateEffect(c, s, p, step);
      EffectHistories(c, s, t, p);
    }
    assert Sound(c.cfg, t.db) by { StepTransacts(c, s, Create(p, step)); }
    assert NoOrphans(t) by { CreateOrphans(c, s, p, step); }
    assert Exclusive(t) by { CreateExclusive(c, s, p, step); }
    assert LeaseBounds(c, t) by { CreateLease(c, s, p, step); }
    assert Capacity(c, t) by { CreateCapacity(c, s, p, step); }
  }

  lemma CreateInv(c: Params, s: State, p: Pid, step: CreateStep)
    requires Inv(c, s) && CanCreate(c, s, p, step)
    ensures Global(c, DoCreate(c, s, p, step)) && forall q :: Good(c, DoCreate(c, s, p, step), q)
  {
    var t := DoCreate(c, s, p, step);
    assert Good(c, s, p);
    assert Global(c, t) by {
      forall q ensures Knows(c, s, PhaseOf(s, q)) { assert Good(c, s, q); }
      CreateGlobal(c, s, p, step);
    }
    assert forall q :: Good(c, t, q) by {
      CreateEffect(c, s, p, step);
      CreateGood(c, s, p, step);
      OthersGood(c, s, t, p);
    }
  }

  lemma ServeGlobal(c: Params, s: State, p: Pid, step: ServeStep)
    requires Global(c, s) && Knows(c, s, PhaseOf(s, p)) && Informed(c, s, p) && CanServe(c, s, p, step)
    ensures Global(c, DoServe(c, s, p, step))
  {
    var t := DoServe(c, s, p, step);
    assert Histories(c, t) by {
      ServeEffect(c, s, p, step);
      EffectHistories(c, s, t, p);
    }
    assert Sound(c.cfg, t.db) by { StepTransacts(c, s, Serve(p, step)); }
    assert NoOrphans(t) by { ServeOrphans(c, s, p, step); }
    assert Exclusive(t) by {
      ServeFrame(c, s, p, step);
      ServeOutsideCreate(c, s, p, step);
      ExclusiveKept(s, t, p);
    }
    assert LeaseBounds(c, t) by { ServeLease(c, s, p, step); }
    assert Capacity(c, t) by { ServeCapacity(c, s, p, step); }
  }

  lemma ServeInv(c: Params, s: State, p: Pid, step: ServeStep)
    requires Inv(c, s) && CanServe(c, s, p, step)
    ensures Global(c, DoServe(c, s, p, step)) && forall q :: Good(c, DoServe(c, s, p, step), q)
  {
    var t := DoServe(c, s, p, step);
    assert Good(c, s, p) && Informed(c, s, p);
    ServeGlobal(c, s, p, step);
    assert forall q :: Good(c, t, q) by {
      ServeEffect(c, s, p, step);
      ServeGood(c, s, p, step);
      OthersGood(c, s, t, p);
    }
  }

  lemma SweepInv(c: Params, s: State, p: Pid, step: SweepStep)
    requires Inv(c, s) && CanSweep(s, p, step)
    ensures Global(c, DoSweep(c, s, p, step)) && forall q :: Good(c, DoSweep(c, s, p, step), q)
  {
    var t := DoSweep(c, s, p, step);
    assert forall q :: Good(c, t, q) by {
      assert Good(c, s, p);
      SweepEffect(c, s, p, step);
      SweepGood(c, s, p, step);
      OthersGood(c, s, t, p);
    }
    SweepFrame(c, s, p, step);
    assert NoOrphans(t) by { OrphansKept(s, t, p); }
    assert Exclusive(t) by { ExclusiveKept(s, t, p); }
    assert Capacity(c, t) by { CapacityShrinks(c, s, t); }
  }

  lemma EnvironmentReliable(c: Params, s: State, step: Step, q: Pid)
    requires Histories(c, s) && Enabled(c, s, step) && (step.Exit? || step.Tick?)
    ensures Rely(c, s, Do(c, s, step), q)
  {
  }

  /** Containers exiting on their own and the clock advancing disturb nobody. */
  lemma EnvironmentInv(c: Params, s: State, step: Step)
    requires Inv(c, s) && Enabled(c, s, step) && (step.Exit? || step.Tick?)
    ensures Global(c, Do(c, s, step)) && forall q :: Good(c, Do(c, s, step), q)
  {
    var t := Do(c, s, step);
    forall q
      ensures Good(c, t, q)
    {
      assert Good(c, s, q);
      EnvironmentReliable(c, s, step, q);
      GoodStable(c, s, t, q);
    }
    assert NoOrphans(t) by { OrphansKept(s, t, 0); }
    assert Exclusive(t) by { ExclusiveKept(s, t, 0); }
    assert Capacity(c, t) by { CapacityShrinks(c, s, t); }
  }

  // ---- What sessions read stays past, and decisions stay decided ----

  /** A step commits one transaction, so nothing random and no report is lost. */
  lemma StepCommits(c: Params, s: State, step: Step)
    requires Inv(c, s) && Enabled(c, s, step)
    ensures Sound(c.cfg, Do(c, s, step).db) && RandomRowsConserved(c.cfg, s.db, Do(c, s, step).db)
    ensures s.db.reports <= Do(c, s, step).db.reports
  {
    if step.Create? { assert Good(c, s, step.p); }
    if step.Serve? { assert Informed(c, s, step.p); }
    StepTransacts(c, s, step);
    TransactionSound(c.cfg, s.db, Transaction(c, s, step), Do(c, s, step).db);
    LogGrows(c.cfg, s.db, Transaction(c, s, step), Do(c, s, step).db);
  }

  lemma PastStable(c: Params, s: State, t: State, d: Db)
    requires Past(c, s, d) && RandomRowsConserved(c.cfg, s.db, t.db) && s.db.reports <= t.db.reports
    ensures Past(c, t, d)
  {
    ConservationComposes(c.cfg, d, s.db, t.db);
  }

  lemma ServeSubmits(c: Params, s: State, p: Pid, step: ServeStep)
    requires CanServe(c, s, p, step)
    ensures var t := DoServe(c, s, p, step); var ph := PhaseOf(t, p);
      ph.Submitting? ==>
        && Sess(t, p).snap.Some? && Seen(t, p) == Seen(s, p) && ph.challenge in c.cfg.challenges
        && Decides(c.cfg, Seen(s, p), ph.challenge, ph.account, ph.flag, ph.found, ph.verdict)
  {
  }

  lemma CreateNeverSubmits(c: Params, s: State, p: Pid, step: CreateStep)
    requires CanCreate(c, s, p, step)
    ensures !PhaseOf(DoCreate(c, s, p, step), p).Submitting?
  {
  }

  /** The acting session keeps its snapshot, has just opened one, or reads the tables as they are now. */
  lemma OwnStepInformed(c: Params, s: State, t: State, p: Pid)
    requires Informed(c, s, p) && SnapRule(s, t, p)
    requires Sound(c.cfg, t.db) && RandomRowsConserved(c.cfg, s.db, t.db) && s.db.reports <= t.db.reports
    requires var ph := PhaseOf(t, p);
      ph.Submitting? ==>
        && Sess(t, p).snap.Some? && Seen(t, p) == Seen(s, p) && ph.challenge in c.cfg.challenges
        && Decides(c.cfg, Seen(s, p), ph.challenge, ph.account, ph.flag, ph.found, ph.verdict)
    ensures Informed(c, t, p)
  {
    PastStable(c, s, t, Seen(s, p));
  }

  lemma OtherInformed(c: Params, s: State, t: State, q: Pid)
    requires Informed(c, s, q) && Sess(t, q) == Sess(s, q)
    requires Sound(c.cfg, t.db) && RandomRowsConserved(c.cfg, s.db, t.db) && s.db.reports <= t.db.reports
    ensures Informed(c, t, q)
  {
    PastStable(c, s, t, Seen(s, q));
  }

  lemma ActorInformed(c: Params, s: State, step: Step, p: Pid)
    requires Inv(c, s) && Enabled(c, s, step) && (step.Create? || step.Serve? || step.Sweep?) && step.p == p
    ensures Informed(c, Do(c, s, step), p)
    ensures forall q :: q != p ==> Sess(Do(c, s, step), q) == Sess(s, q)
  {
    var t := Do(c, s, step);
    assert Informed(c, s, p);
    StepCommits(c, s, step);
    match step {
      case Create(_, create) =>
        CreateSnap(c, s, p, create);
        CreateNeverSubmits(c, s, p, create);
        CreateFrame(c, s, p, create);
      case Serve(_, serve) =>
        ServeSnap(c, s, p, serve);
        ServeSubmits(c, s, p, serve);
        ServeFrame(c, s, p, serve);
      case Sweep(_, sweep) =>
        SweepFrame(c, s, p, sweep);
    }
    OwnStepInformed(c, s, t, p);
  }

  lemma StepInformed(c: Params, s: State, step: Step)
    requires Inv(c, s) && Enabled(c, s, step)
    ensures forall q :: Informed(c, Do(c, s, step), q)
  {
    var t := Do(c, s, step);
    StepCommits(c, s, step);
    forall q
      ensures Informed(c, t, q)
    {
      assert Informed(c, s, q);
      if step.Exit? || step.Tick? {
        OtherInformed(c, s, t, q);
      } else {
        ActorInformed(c, s, step, step.p);
        if q != step.p {
          OtherInformed(c, s, t, q);
        }
      }
    }
  }

  lemma StepInv(c: Params, s: State, step: Step)
    requires Inv(c, s) && Enabled(c, s, step)
    ensures Inv(c, Do(c, s, step))
  {
    StepInformed(c, s, step);
    match step
    case Create(p, create) => CreateInv(c, s, p, create);
    case Serve(p, serve) => ServeInv(c, s, p, serve);
    case Sweep(p, sweep) => SweepInv(c, s, p, sweep);
    case _ => EnvironmentInv(c, s, step);
  }

  lemma CreateRemovals(c: Params, s: State, p: Pid, step: CreateStep, k: Cid)
    requires CanCreate(c, s, p, step) && Knows(c, s, PhaseOf(s, p))
    requires k in s.db.instances && k !in DoCreate(c, s, p, step).db.instances
    ensures k !in s.running
  {
  }

  lemma ServeRemovals(c: Params, s: State, p: Pid, step: ServeStep, k: Cid)
    requires CanServe(c, s, p, step) && Knows(c, s, PhaseOf(s, p))
    requires k in s.db.instances && k !in DoServe(c, s, p, step).db.instances
    ensures k !in s.running
  {
    ServeRows(c, s, p, step);
  }

  /** A step removes rows of stopped containers only, and never restarts a container. */
  lemma StepStops(c: Params, s: State, step: Step, k: Cid)
    requires Inv(c, s) && Enabled(c, s, step) && k in s.launched
    ensures var t := Do(c, s, step);
      && k in t.launched
      && (k !in s.running ==> k !in t.running)
      && (k in s.db.instances && k !in t.db.instances ==> k !in s.running)
  {
    match step
    case Create(p, create) =>
      assert Good(c, s, p);
      CreateEffect(c, s, p, create);
      if k in s.db.instances && k !in Do(c, s, step).db.instances { CreateRemovals(c, s, p, create, k); }
    case Serve(p, serve) =>
      assert Good(c, s, p);
      ServeEffect(c, s, p, serve);
      if k in s.db.instances && k !in Do(c, s, step).db.instances { ServeRemovals(c, s, p, serve, k); }
    case Sweep(p, sweep) => SweepEffect(c, s, p, sweep);
    case _ =>
  }

  lemma NextInv(c: Params, s: State, t: State)
    requires Inv(c, s) && Next(c, s, t)
    ensures Inv(c, t)
  {
    var step :| Enabled(c, s, step) && t == Do(c, s, step);
    StepInv(c, s, step);
  }

  /** The next state has lost rows of stopped containers only, and restarted no container. */
  lemma NextStops(c: Params, s: State, t: State, k: Cid)
    requires Inv(c, s) && Next(c, s, t) && k in s.launched
    ensures k in t.launched && (k !in s.running ==> k !in t.running)
    ensures k in s.db.instances && k !in t.db.instances ==> k !in s.running
  {
    var step :| Enabled(c, s, step) && t == Do(c, s, step);
    StepStops(c, s, step, k);
  }

  lemma {:induction false} RunInv(c: Params, run: seq<State>, n: nat)
    requires IsRun(c, run) && n < |run|
    ensures Inv(c, run[n])
  {
    if n == 0 {
      InitInv(c, run[0]);
    } else {
      RunInv(c, run, n - 1);
      assert StepAt(c, run, n - 1);
      NextInv(c, run[n - 1], run[n]);
    }
  }
}
