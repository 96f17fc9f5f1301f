/**
 The plugin's tables as one value, and every transaction that changes them.

 `instances` is the container_info table, `flags` the container_flag table (whose container
 column is a foreign key with ON DELETE CASCADE) and `reports` the cheat log.  The challenge
 configuration and the user/team mode are fixed for a run.
 */
module Tables {
  import opened Options

  type Cid = nat

  datatype Mode = Static | Random

  datatype Challenge = Challenge(mode: Mode, prefix: string, content: Option<string>, suffix: string)

  /** `teams` is the deployment's mode: accounts are teams if it is set and users otherwise. */
  datatype Config = Config(teams: bool, challenges: map<int, Challenge>)

  /** The two nullable owner columns carried by every row. */
  datatype Owner = Owner(team: Option<int>, user: Option<int>)

  datatype Instance = Instance(challenge: int, owner: Owner, port: string, flag: string, timestamp: int, expires: int)

  datatype FlagRow = FlagRow(challenge: int, container: Option<Cid>, flag: string, owner: Owner, used: bool)

  /** SHA-256 is taken to be injective, so a digest is a constructor around the digested text. */
  datatype Fingerprint = Sha256(text: string)

  datatype Report = Report(fingerprint: Fingerprint, challenge: int, original: Owner, second: Owner, at: int)
  {
    /** The columns the duplicate check compares: everything but the time. */
    function Key(): (Fingerprint, int, Owner, Owner) { (fingerprint, challenge, original, second) }
  }

  datatype Db = Db(instances: map<Cid, Instance>, flags: map<nat, FlagRow>, nextFlag: nat, reports: seq<Report>)

  const EMPTY := Db(map[], map[], 0, [])

  // ---- Owners and challenges ----

  function OwnerOf(cfg: Config, account: int): Owner {
    if cfg.teams then Owner(Some(account), None) else Owner(None, Some(account))
  }

  predicate InMode(cfg: Config, o: Owner) {
    if cfg.teams then o.team.Some? && o.user.None? else o.team.None? && o.user.Some?
  }

  function ExpectedStaticFlag(ch: Challenge): string {
    ch.prefix + (if ch.content.Some? then ch.content.value else "") + ch.suffix
  }

  /** The text is the challenge's prefix, then its content (if any), then its suffix. */
  predicate Spells(f: string, ch: Challenge) {
    var content := if ch.content.Some? then ch.content.value else "";
    var start, end := |ch.prefix|, |ch.prefix| + |content|;
    |f| == end + |ch.suffix| && f[..start] == ch.prefix && f[start..end] == content && f[end..] == ch.suffix
  }

  /** Only one text does, the one that submissions are compared with. */
  lemma ExpectedSpelled(ch: Challenge, f: string)
    ensures Spells(f, ch) <==> f == ExpectedStaticFlag(ch)
  {
    var content := if ch.content.Some? then ch.content.value else "";
    var start, end := |ch.prefix|, |ch.prefix| + |content|;
    if Spells(f, ch) {
      assert f == f[..start] + f[start..end] + f[end..];
    }
    if f == ExpectedStaticFlag(ch) {
      assert f[..start] == ch.prefix && f[start..end] == content && f[end..] == ch.suffix;
    }
  }

  predicate IsStatic(cfg: Config, c: int) { c in cfg.challenges && cfg.challenges[c].mode.Static? }

  predicate IsRandom(cfg: Config, c: int) { c in cfg.challenges && cfg.challenges[c].mode.Random? }

  // ---- Launch: insert the instance and its flag in one transaction ----

  /** The two unique constraints on instances; a NULL column never collides. */
  predicate Collides(inst: Instance, c: int, o: Owner) {
    && inst.challenge == c
    && ((o.team.Some? && inst.owner.team == o.team) || (o.user.Some? && inst.owner.user == o.user))
  }

  predicate Conflicts(db: Db, cid: Cid, c: int, o: Owner) {
    cid in db.instances || exists k :: k in db.instances && Collides(db.instances[k], c, o)
  }

  function AddFlag(db: Db, row: FlagRow): Db {
    db.(flags := db.flags[db.nextFlag := row], nextFlag := db.nextFlag + 1)
  }

  function Launch(db: Db, cid: Cid, inst: Instance): Db {
    AddFlag(db.(instances := db.instances[cid := inst]),
            FlagRow(inst.challenge, Some(cid), inst.flag, inst.owner, false))
  }

  // ---- Teardown: forget instances, keep issued random flags ----

  predicate AttachedTo(db: Db, gone: set<Cid>, row: FlagRow) {
    row.container.Some? && row.container.value in gone && row.container.value in db.instances
  }

  predicate Dropped(cfg: Config, db: Db, gone: set<Cid>, row: FlagRow) {
    AttachedTo(db, gone, row) && IsStatic(cfg, db.instances[row.container.value].challenge)
  }

  function Detached(db: Db, gone: set<Cid>, row: FlagRow): FlagRow {
    if AttachedTo(db, gone, row) then row.(container := None) else row
  }

  /** The tables once every instance in `gone` has been cleaned up. */
  function Teardown(cfg: Config, db: Db, gone: set<Cid>): Db {
    db.(instances := db.instances - gone,
        flags := map id | id in db.flags && !Dropped(cfg, db, gone, db.flags[id]) :: Detached(db, gone, db.flags[id]))
  }

  // ---- Renewal ----

  function Renewed(db: Db, cid: Cid, expires: int): Db
    requires cid in db.instances
  {
    db.(instances := db.instances[cid := db.instances[cid].(expires := expires)])
  }

  // ---- Submission: the staged flag lookup ----

  predicate Active(db: Db, c: int, o: Owner, cid: Cid) {
    cid in db.instances && db.instances[cid].challenge == c && db.instances[cid].owner == o
  }

  /** `found` is what a first-match query for the owner's instance of `c` may return. */
  ghost predicate FindsActive(db: Db, c: int, o: Owner, found: Option<Cid>) {
    match found
    case Some(cid) => Active(db, c, o, cid)
    case None => forall cid :: !Active(db, c, o, cid)
  }

  function AttachedRows(db: Db, c: int, cid: Cid, f: string): set<nat> {
    set id | id in db.flags && db.flags[id].challenge == c && db.flags[id].container == Some(cid)
             && db.flags[id].flag == f
  }

  function OwnedRows(db: Db, c: int, f: string, o: Owner): set<nat> {
    set id | id in db.flags && db.flags[id].challenge == c && db.flags[id].flag == f && db.flags[id].owner == o
  }

  function MatchingRows(db: Db, c: int, f: string): set<nat> {
    set id | id in db.flags && db.flags[id].challenge == c && db.flags[id].flag == f
  }

  /** A lookup accepts with a flag row, or rejects after citing the row its last query returned. */
  datatype Verdict = Accept(row: nat) | Reject(cited: Option<nat>)

  /** Accept with any row of `hits`, or with a newly added `row` if there is none. */
  ghost predicate AcceptsFrom(a: Db, hits: set<nat>, row: FlagRow, v: Verdict, b: Db) {
    && v.Accept?
    && if hits != {} then v.row in hits && b == a else v.row == a.nextFlag && b == AddFlag(a, row)
  }

  predicate OtherAccount(cfg: Config, row: FlagRow, account: int) {
    if cfg.teams then row.owner.team != Some(account) else row.owner.user != Some(account)
  }

  function ReportOf(cfg: Config, row: FlagRow, account: int, now: int): Report {
    Report(Sha256(row.flag), row.challenge, row.owner, OwnerOf(cfg, account), now)
  }

  predicate Reported(reports: seq<Report>, r: Report) {
    exists i :: 0 <= i < |reports| && reports[i].Key() == r.Key()
  }

  function FileReport(db: Db, r: Report): Db {
    if Reported(db.reports, r) then db else db.(reports := db.reports + [r])
  }

  ghost predicate Rejects(cfg: Config, a: Db, c: int, account: int, f: string, now: int, v: Verdict, b: Db)
    requires c in cfg.challenges
  {
    && v.Reject?
    && var hits := MatchingRows(a, c, f);
       match v.cited
       case None => hits == {} && b == a
       case Some(id) =>
         && id in hits
         && b == if cfg.challenges[c].mode.Random? && OtherAccount(cfg, a.flags[id], account)
                 then FileReport(a, ReportOf(cfg, a.flags[id], account, now)) else a
  }

  /**
   The four stages of the lookup, on any first-match answers: `found` is the submitter's
   instance, `v` the outcome and `b` the tables afterwards.
   */
  ghost predicate LooksUp(cfg: Config, a: Db, c: int, account: int, f: string, now: int,
                          found: Option<Cid>, v: Verdict, b: Db)
    requires c in cfg.challenges
  {
    var o := OwnerOf(cfg, account);
    && FindsActive(a, c, o, found)
    && if found.Some? && f == a.instances[found.value].flag then
         AcceptsFrom(a, AttachedRows(a, c, found.value, f), FlagRow(c, found, f, o, false), v, b)
       else if OwnedRows(a, c, f, o) != {} then
         v.Accept? && v.row in OwnedRows(a, c, f, o) && b == a
       else if cfg.challenges[c].mode.Static? && f == ExpectedStaticFlag(cfg.challenges[c]) then
         AcceptsFrom(a, {}, FlagRow(c, found, f, o, false), v, b)
       else
         Rejects(cfg, a, c, account, f, now, v, b)
  }

  function MarkUsed(db: Db, id: nat): Db
    requires id in db.flags
  {
    db.(flags := db.flags[id := db.flags[id].(used := true)])
  }

  /** A whole submission: look the flag up and, if it is accepted, mark its row used. */
  ghost predicate Submits(cfg: Config, a: Db, c: int, account: int, f: string, now: int,
                          found: Option<Cid>, v: Verdict, b: Db)
    requires c in cfg.challenges
  {
    exists m ::
      && LooksUp(cfg, a, c, account, f, now, found, v, m)
      && if v.Accept? then v.row in m.flags && b == MarkUsed(m, v.row) else b == m
  }

  /** The decision that a lookup on the tables `a` comes to, whenever it is made. */
  ghost predicate Decides(cfg: Config, a: Db, c: int, account: int, f: string, found: Option<Cid>, v: Verdict)
    requires c in cfg.challenges
  {
    exists now, b :: LooksUp(cfg, a, c, account, f, now, found, v, b)
  }

  /** What a submission writes when it commits; `Fails` is an error that nothing catches. */
  datatype Commit = Marks(row: nat) | Adds(added: FlagRow) | Files(report: Report) | Nothing | Fails

  /**
   The commit, to the tables `a`, of a decision that was made on the snapshot `seen`.  Marking a
   row that is gone fails, and so does attaching a new row to an instance that is gone; a row that
   is seen as used already is not written.
   */
  function CommitOf(cfg: Config, seen: Db, a: Db, c: int, account: int, f: string, now: int,
                    found: Option<Cid>, v: Verdict): Commit
  {
    match v
    case Accept(id) =>
      if id in seen.flags then
        if seen.flags[id].used then Nothing else if id in a.flags then Marks(id) else Fails
      else if found.Some? && found.value !in a.instances then Fails
      else Adds(FlagRow(c, found, f, OwnerOf(cfg, account), true))
    case Reject(None) => Nothing
    case Reject(Some(id)) =>
      if id in seen.flags && IsRandom(cfg, c) && OtherAccount(cfg, seen.flags[id], account)
         && !Reported(seen.reports, ReportOf(cfg, seen.flags[id], account, now))
      then Files(ReportOf(cfg, seen.flags[id], account, now)) else Nothing
  }

  function Committed(a: Db, w: Commit): Db {
    match w
    case Marks(id) => if id in a.flags then MarkUsed(a, id) else a
    case Adds(row) => AddFlag(a, row)
    case Files(r) => a.(reports := a.reports + [r])
    case Nothing => a
    case Fails => a
  }

  /** An instance that some launch under this configuration could have prepared. */
  predicate Launchable(cfg: Config, inst: Instance) {
    && inst.challenge in cfg.challenges
    && InMode(cfg, inst.owner)
    && (IsStatic(cfg, inst.challenge) ==> inst.flag == ExpectedStaticFlag(cfg.challenges[inst.challenge]))
  }

  // ---- Teardown composes ----

  /** Cleaning up two groups one after the other is cleaning them up together. */
  lemma TeardownCompose(cfg: Config, db: Db, first: set<Cid>, second: set<Cid>)
    ensures Teardown(cfg, Teardown(cfg, db, first), second) == Teardown(cfg, db, first + second)
  {
    var once := Teardown(cfg, db, first);
    var twice := Teardown(cfg, once, second);
    var both := Teardown(cfg, db, first + second);
    assert twice.instances == both.instances;
    forall id | id in db.flags
      ensures (id in twice.flags) == (id in both.flags)
      ensures id in both.flags ==> twice.flags[id] == both.flags[id]
    {
      var row := db.flags[id];
      if AttachedTo(db, first, row) {
        assert AttachedTo(db, first + second, row);
      }
    }
    assert twice.flags.Keys <= db.flags.Keys && both.flags.Keys <= db.flags.Keys;
    assert twice.flags == both.flags;
  }

  lemma TeardownNothing(cfg: Config, db: Db, gone: set<Cid>)
    requires gone !! db.instances.Keys
    ensures Teardown(cfg, db, gone) == db
  {
    assert db.instances - gone == db.instances;
    assert Teardown(cfg, db, gone).flags == db.flags;
  }
}
