/**
 The flag ledger over whole histories of transactions: what a submission means, whatever
 launches, teardowns, renewals and submissions came before it.
 */
module Ledger {
  import opened Options
  import opened Tables

  // ---- The invariant of the tables ----

  /** The launch row of an instance is still in the flag table. */
  ghost predicate HasFlagRow(db: Db, cid: Cid)
    requires cid in db.instances
  {
    exists id :: id in db.flags && Matches(db.flags[id], cid, db.instances[cid])
  }

  predicate Matches(row: FlagRow, cid: Cid, inst: Instance) {
    row.container == Some(cid) && row.challenge == inst.challenge && row.flag == inst.flag && row.owner == inst.owner
  }

  ghost predicate SoundInstances(cfg: Config, db: Db) {
    && (forall cid :: cid in db.instances ==> Launchable(cfg, db.instances[cid]) && HasFlagRow(db, cid))
    && (forall j, k :: j in db.instances && k in db.instances
          && db.instances[j].challenge == db.instances[k].challenge && db.instances[j].owner == db.instances[k].owner
          ==> j == k)
  }

  /** A flag row fits the configuration and the instance it is attached to, if any. */
  predicate SoundRow(cfg: Config, instances: map<Cid, Instance>, row: FlagRow) {
    && row.challenge in cfg.challenges
    && InMode(cfg, row.owner)
    && (IsStatic(cfg, row.challenge) ==> row.flag == ExpectedStaticFlag(cfg.challenges[row.challenge]))
    && (row.container.Some? ==>
          row.container.value in instances && Matches(row, row.container.value, instances[row.container.value]))
  }

  ghost predicate SoundFlags(cfg: Config, db: Db) {
    forall id :: id in db.flags ==> id < db.nextFlag && SoundRow(cfg, db.instances, db.flags[id])
  }

  /** Some flag row records that the report's original owner was issued the reported flag. */
  ghost predicate Backed(db: Db, r: Report) {
    exists id :: id in db.flags && Backs(db.flags[id], r)
  }

  predicate Backs(row: FlagRow, r: Report) {
    row.challenge == r.challenge && row.owner == r.original && r.fingerprint == Sha256(row.flag)
  }

  /** A report about a random flag that was issued, to somebody else than the one reported. */
  ghost predicate Genuine(cfg: Config, db: Db, r: Report) {
    IsRandom(cfg, r.challenge) && InMode(cfg, r.second) && r.original != r.second && Backed(db, r)
  }

  ghost predicate SoundReports(cfg: Config, db: Db) {
    forall i :: 0 <= i < |db.reports| ==> Genuine(cfg, db, db.reports[i])
  }

  ghost predicate Sound(cfg: Config, db: Db) {
    SoundInstances(cfg, db) && SoundFlags(cfg, db) && SoundReports(cfg, db)
  }

  /** No two entries agree on fingerprint, challenge, owner and submitter. */
  predicate Unique(reports: seq<Report>) {
    forall i, j :: 0 <= i < j < |reports| ==> reports[i].Key() != reports[j].Key()
  }

  // ---- One transaction of the ledger ----

  /**
   `Submit` is a whole submission as one transaction.  `Mark`, `Add` and `File` are the commits of
   submissions that have decided on an earlier snapshot.
   */
  datatype Op =
    | Insert(cid: Cid, inst: Instance)
    | Forget(gone: set<Cid>)
    | Extend(renewed: Cid, expires: int)
    | Submit(challenge: int, account: int, flag: string, now: int, found: Option<Cid>, verdict: Verdict)
    | Mark(row: nat)
    | Add(added: FlagRow)
    | File(report: Report)
    | Skip

  predicate Atomic(op: Op) { !op.Mark? && !op.Add? && !op.File? }

  ghost predicate Does(cfg: Config, a: Db, op: Op, b: Db) {
    match op
    case Insert(cid, inst) =>
      Launchable(cfg, inst) && !Conflicts(a, cid, inst.challenge, inst.owner) && b == Launch(a, cid, inst)
    case Forget(gone) => b == Teardown(cfg, a, gone)
    case Extend(cid, expires) => cid in a.instances && b == Renewed(a, cid, expires)
    case Submit(c, account, f, now, found, v) =>
      c in cfg.challenges && Submits(cfg, a, c, account, f, now, found, v, b)
    case Mark(id) => id in a.flags && b == MarkUsed(a, id)
    case Add(row) => IsStatic(cfg, row.challenge) && SoundRow(cfg, a.instances, row) && b == AddFlag(a, row)
    case File(r) => Genuine(cfg, a, r) && b == a.(reports := a.reports + [r])
    case Skip => b == a
  }

  ghost predicate Transacts(cfg: Config, a: Db, b: Db) { exists op :: Does(cfg, a, op, b) }

  // ---- Conservation of issued random flags ----

  /** `later` is `earlier` except that it may have been detached from its instance or marked used. */
  predicate Conserves(earlier: FlagRow, later: FlagRow) {
    && later.challenge == earlier.challenge && later.owner == earlier.owner && later.flag == earlier.flag
    && (later.container == earlier.container || later.container.None?)
    && (earlier.used ==> later.used)
  }

  ghost predicate RandomRowsConserved(cfg: Config, a: Db, b: Db) {
    forall id :: id in a.flags && IsRandom(cfg, a.flags[id].challenge) ==>
      id in b.flags && Conserves(a.flags[id], b.flags[id])
  }

  // ---- Each transaction keeps the invariant and conserves random rows ----

  lemma LaunchInstances(cfg: Config, a: Db, cid: Cid, inst: Instance)
    requires SoundInstances(cfg, a) && Launchable(cfg, inst) && !Conflicts(a, cid, inst.challenge, inst.owner)
    requires forall id :: id in a.flags ==> id < a.nextFlag
    ensures SoundInstances(cfg, Launch(a, cid, inst))
  {
    var b := Launch(a, cid, inst);
    assert Matches(b.flags[a.nextFlag], cid, inst);
    KeepsFlagRows(a, b);
    forall k | k in a.instances
      ensures Launchable(cfg, a.instances[k]) && !Collides(a.instances[k], inst.challenge, inst.owner)
    {
    }
  }

  lemma LaunchFlags(cfg: Config, a: Db, cid: Cid, inst: Instance)
    requires SoundFlags(cfg, a) && Launchable(cfg, inst) && cid !in a.instances
    ensures SoundFlags(cfg, Launch(a, cid, inst)) && RandomRowsConserved(cfg, a, Launch(a, cid, inst))
  {
  }

  lemma LaunchSound(cfg: Config, a: Db, cid: Cid, inst: Instance)
    requires Sound(cfg, a) && Launchable(cfg, inst) && !Conflicts(a, cid, inst.challenge, inst.owner)
    ensures Sound(cfg, Launch(a, cid, inst)) && RandomRowsConserved(cfg, a, Launch(a, cid, inst))
  {
    LaunchInstances(cfg, a, cid, inst);
    LaunchFlags(cfg, a, cid, inst);
    KeepsReports(cfg, a, Launch(a, cid, inst));
  }

  /** Tables that only add flag rows, or mark them used, keep every instance's launch row. */
  lemma KeepsFlagRows(a: Db, b: Db)
    requires forall id :: id in a.flags ==> id in b.flags && b.flags[id].(used := false) == a.flags[id].(used := false)
    ensures forall cid :: StillThere(a, b, cid) && HasFlagRow(a, cid) ==> HasFlagRow(b, cid)
  {
    forall cid | StillThere(a, b, cid) && HasFlagRow(a, cid)
      ensures HasFlagRow(b, cid)
    {
      var id :| id in a.flags && Matches(a.flags[id], cid, a.instances[cid]);
      assert b.flags[id].(used := false) == a.flags[id].(used := false);
      assert Matches(b.flags[id], cid, b.instances[cid]);
    }
  }

  predicate StillThere(a: Db, b: Db, cid: Cid) {
    cid in a.instances && cid in b.instances && SameLaunch(a.instances[cid], b.instances[cid])
  }

  predicate SameLaunch(x: Instance, y: Instance) {
    x.(expires := 0) == y.(expires := 0)
  }

  /** Reports stay backed as long as random rows are conserved. */
  lemma KeepsReports(cfg: Config, a: Db, b: Db)
    requires SoundReports(cfg, a) && RandomRowsConserved(cfg, a, b) && b.reports == a.reports
    ensures SoundReports(cfg, b)
  {
    forall i | 0 <= i < |a.reports|
      ensures Backed(b, b.reports[i])
    {
      assert Backed(a, a.reports[i]);
      var id :| id in a.flags && Backs(a.flags[id], a.reports[i]);
      assert Backs(b.flags[id], b.reports[i]);
    }
  }

  /** A row that survives a teardown is sound without the torn-down instances. */
  lemma TeardownRow(cfg: Config, a: Db, gone: set<Cid>, row: FlagRow)
    requires SoundRow(cfg, a.instances, row)
    ensures SoundRow(cfg, a.instances - gone, Detached(a, gone, row))
    ensures IsRandom(cfg, row.challenge) ==> !Dropped(cfg, a, gone, row)
  {
  }

  lemma TeardownFlags(cfg: Config, a: Db, gone: set<Cid>)
    requires SoundFlags(cfg, a)
    ensures SoundFlags(cfg, Teardown(cfg, a, gone)) && RandomRowsConserved(cfg, a, Teardown(cfg, a, gone))
  {
    var b := Teardown(cfg, a, gone);
    forall id | id in a.flags
      ensures SoundRow(cfg, b.instances, Detached(a, gone, a.flags[id]))
      ensures IsRandom(cfg, a.flags[id].challenge) ==> !Dropped(cfg, a, gone, a.flags[id])
    {
      TeardownRow(cfg, a, gone, a.flags[id]);
    }
  }

  lemma TeardownInstances(cfg: Config, a: Db, gone: set<Cid>)
    requires SoundInstances(cfg, a)
    ensures SoundInstances(cfg, Teardown(cfg, a, gone))
  {
    var b := Teardown(cfg, a, gone);
    forall cid | cid in b.instances
      ensures HasFlagRow(b, cid)
    {
      assert HasFlagRow(a, cid);
      var id :| id in a.flags && Matches(a.flags[id], cid, a.instances[cid]);
      assert Matches(b.flags[id], cid, b.instances[cid]);
    }
  }

  lemma TeardownSound(cfg: Config, a: Db, gone: set<Cid>)
    requires Sound(cfg, a)
    ensures Sound(cfg, Teardown(cfg, a, gone)) && RandomRowsConserved(cfg, a, Teardown(cfg, a, gone))
  {
    TeardownFlags(cfg, a, gone);
    TeardownInstances(cfg, a, gone);
    KeepsReports(cfg, a, Teardown(cfg, a, gone));
  }

  lemma RenewInstances(cfg: Config, a: Db, cid: Cid, expires: int)
    requires SoundInstances(cfg, a) && cid in a.instances
    ensures SoundInstances(cfg, Renewed(a, cid, expires))
  {
    KeepsFlagRows(a, Renewed(a, cid, expires));
  }

  lemma RenewFlags(cfg: Config, a: Db, cid: Cid, expires: int)
    requires SoundFlags(cfg, a) && cid in a.instances
    ensures SoundFlags(cfg, Renewed(a, cid, expires)) && RandomRowsConserved(cfg, a, Renewed(a, cid, expires))
  {
  }

  lemma RenewSound(cfg: Config, a: Db, cid: Cid, expires: int)
    requires Sound(cfg, a) && cid in a.instances
    ensures Sound(cfg, Renewed(a, cid, expires)) && RandomRowsConserved(cfg, a, Renewed(a, cid, expires))
  {
    RenewInstances(cfg, a, cid, expires);
    RenewFlags(cfg, a, cid, expires);
    KeepsReports(cfg, a, Renewed(a, cid, expires));
  }

  /** An added row for a static flag, unattached or attached to an instance that it fits. */
  lemma AddRowSound(cfg: Config, a: Db, row: FlagRow)
    requires Sound(cfg, a) && SoundRow(cfg, a.instances, row)
    ensures Sound(cfg, AddFlag(a, row)) && RandomRowsConserved(cfg, a, AddFlag(a, row))
  {
    KeepsFlagRows(a, AddFlag(a, row));
    KeepsReports(cfg, a, AddFlag(a, row));
  }

  lemma LaunchRowAttached(a: Db, c: int, cid: Cid)
    requires cid in a.instances && a.instances[cid].challenge == c && HasFlagRow(a, cid)
    ensures AttachedRows(a, c, cid, a.instances[cid].flag) != {}
  {
    var id :| id in a.flags && Matches(a.flags[id], cid, a.instances[cid]);
    assert id in AttachedRows(a, c, cid, a.instances[cid].flag);
  }

  lemma StaticInstances(cfg: Config, a: Db)
    requires SoundInstances(cfg, a)
    ensures forall cid :: cid in a.instances && IsStatic(cfg, a.instances[cid].challenge) ==>
              a.instances[cid].flag == ExpectedStaticFlag(cfg.challenges[a.instances[cid].challenge])
  {
    assert forall cid :: cid in a.instances ==> Launchable(cfg, a.instances[cid]);
  }

  /** In sound tables the lookup adds a row only for a static flag of a torn-down instance. */
  lemma LookupSound(cfg: Config, a: Db, c: int, account: int, f: string, now: int,
                    found: Option<Cid>, v: Verdict, b: Db)
    requires Sound(cfg, a) && c in cfg.challenges && LooksUp(cfg, a, c, account, f, now, found, v, b)
    ensures Sound(cfg, b) && RandomRowsConserved(cfg, a, b) && b.instances == a.instances
    ensures IsRandom(cfg, c) ==> b.flags == a.flags
    ensures v.Accept? ==> v.row in b.flags && b.reports == a.reports
    ensures forall id :: id in b.flags && IsRandom(cfg, b.flags[id].challenge) ==> id in a.flags
  {
    var o := OwnerOf(cfg, account);
    if found.Some? && f == a.instances[found.value].flag {
      LaunchRowAttached(a, c, found.value);
    } else if OwnedRows(a, c, f, o) != {} {
    } else if cfg.challenges[c].mode.Static? && f == ExpectedStaticFlag(cfg.challenges[c]) {
      StaticInstances(cfg, a);
      AddRowSound(cfg, a, FlagRow(c, found, f, o, false));
    } else {
      RejectSound(cfg, a, c, account, f, now, v, b);
    }
  }

  /** A row cited after the owned lookup failed belongs to another account. */
  lemma CitedIsForeign(cfg: Config, a: Db, c: int, account: int, f: string, id: nat)
    requires Sound(cfg, a) && id in MatchingRows(a, c, f) && OwnedRows(a, c, f, OwnerOf(cfg, account)) == {}
    ensures a.flags[id].owner != OwnerOf(cfg, account) && OtherAccount(cfg, a.flags[id], account)
  {
    assert id !in OwnedRows(a, c, f, OwnerOf(cfg, account));
  }

  /** Filing a genuine report keeps the tables sound. */
  lemma FileSound(cfg: Config, a: Db, r: Report)
    requires Sound(cfg, a) && Genuine(cfg, a, r)
    ensures Sound(cfg, a.(reports := a.reports + [r])) && RandomRowsConserved(cfg, a, a.(reports := a.reports + [r]))
  {
    var b := a.(reports := a.reports + [r]);
    forall i | 0 <= i < |b.reports|
      ensures Genuine(cfg, b, b.reports[i])
    {
      assert Genuine(cfg, a, b.reports[i]);
      var id :| id in a.flags && Backs(a.flags[id], b.reports[i]);
      assert id in b.flags && Backs(b.flags[id], b.reports[i]);
    }
    OtherTablesSound(cfg, a, b);
  }

  /** A report about a row that is there, against somebody else, is genuine. */
  lemma ReportIsGenuine(cfg: Config, a: Db, id: nat, account: int, now: int)
    requires id in a.flags && IsRandom(cfg, a.flags[id].challenge) && a.flags[id].owner != OwnerOf(cfg, account)
    ensures Genuine(cfg, a, ReportOf(cfg, a.flags[id], account, now))
  {
    assert Backs(a.flags[id], ReportOf(cfg, a.flags[id], account, now));
  }

  lemma OtherTablesSound(cfg: Config, a: Db, b: Db)
    requires Sound(cfg, a) && b == a.(reports := b.reports) && SoundReports(cfg, b)
    ensures Sound(cfg, b)
  {
    KeepsFlagRows(a, b);
  }

  lemma RejectSound(cfg: Config, a: Db, c: int, account: int, f: string, now: int, v: Verdict, b: Db)
    requires Sound(cfg, a) && c in cfg.challenges && Rejects(cfg, a, c, account, f, now, v, b)
    requires OwnedRows(a, c, f, OwnerOf(cfg, account)) == {}
    ensures Sound(cfg, b) && RandomRowsConserved(cfg, a, b) && b.instances == a.instances
  {
    if b != a {
      CitedIsForeign(cfg, a, c, account, f, v.cited.value);
      ReportIsGenuine(cfg, a, v.cited.value, account, now);
      FileSound(cfg, a, ReportOf(cfg, a.flags[v.cited.value], account, now));
    }
  }

  lemma MarkUsedSound(cfg: Config, a: Db, id: nat)
    requires Sound(cfg, a) && id in a.flags
    ensures Sound(cfg, MarkUsed(a, id)) && RandomRowsConserved(cfg, a, MarkUsed(a, id))
  {
    KeepsFlagRows(a, MarkUsed(a, id));
    KeepsReports(cfg, a, MarkUsed(a, id));
  }

  /** The tables between the lookup and the mark. */
  lemma SubmitMid(cfg: Config, a: Db, c: int, account: int, f: string, now: int,
                  found: Option<Cid>, v: Verdict, b: Db) returns (m: Db)
    requires c in cfg.challenges && Submits(cfg, a, c, account, f, now, found, v, b)
    ensures LooksUp(cfg, a, c, account, f, now, found, v, m)
    ensures if v.Accept? then v.row in m.flags && b == MarkUsed(m, v.row) else b == m
  {
    m :| LooksUp(cfg, a, c, account, f, now, found, v, m)
         && if v.Accept? then v.row in m.flags && b == MarkUsed(m, v.row) else b == m;
  }

  lemma MarkAccepted(cfg: Config, a: Db, m: Db, v: Verdict)
    requires Sound(cfg, m) && RandomRowsConserved(cfg, a, m) && v.Accept? && v.row in m.flags
    ensures Sound(cfg, MarkUsed(m, v.row)) && RandomRowsConserved(cfg, a, MarkUsed(m, v.row))
  {
    MarkUsedSound(cfg, m, v.row);
    ConservationComposes(cfg, a, m, MarkUsed(m, v.row));
  }

  lemma SubmitSound(cfg: Config, a: Db, c: int, account: int, f: string, now: int,
                    found: Option<Cid>, v: Verdict, b: Db)
    requires Sound(cfg, a) && c in cfg.challenges && Submits(cfg, a, c, account, f, now, found, v, b)
    ensures Sound(cfg, b) && RandomRowsConserved(cfg, a, b) && b.instances == a.instances
    ensures forall id :: id in b.flags && IsRandom(cfg, b.flags[id].challenge) ==> id in a.flags
    ensures v.Accept? ==> b.reports == a.reports
  {
    var m := SubmitMid(cfg, a, c, account, f, now, found, v, b);
    LookupSound(cfg, a, c, account, f, now, found, v, m);
    if v.Accept? {
      MarkAccepted(cfg, a, m, v);
    }
  }

  lemma ConservationComposes(cfg: Config, a: Db, m: Db, b: Db)
    requires RandomRowsConserved(cfg, a, m) && RandomRowsConserved(cfg, m, b)
    ensures RandomRowsConserved(cfg, a, b)
  {
  }

  lemma TransactionSound(cfg: Config, a: Db, op: Op, b: Db)
    requires Sound(cfg, a) && Does(cfg, a, op, b)
    ensures Sound(cfg, b) && RandomRowsConserved(cfg, a, b)
  {
    match op
    case Insert(cid, inst) => LaunchSound(cfg, a, cid, inst);
    case Forget(gone) => TeardownSound(cfg, a, gone);
    case Extend(cid, expires) => RenewSound(cfg, a, cid, expires);
    case Submit(c, account, f, now, found, v) => SubmitSound(cfg, a, c, account, f, now, found, v, b);
    case Mark(id) => MarkUsedSound(cfg, a, id);
    case Add(row) => AddRowSound(cfg, a, row);
    case File(r) => FileSound(cfg, a, r);
    case Skip =>
  }

  /** The invariant and the conservation law, for any transaction. */
  lemma {:induction false} TransactsSound(cfg: Config, a: Db, b: Db)
    requires Sound(cfg, a) && Transacts(cfg, a, b)
    ensures Sound(cfg, b) && RandomRowsConserved(cfg, a, b)
  {
    var op :| Does(cfg, a, op, b);
    TransactionSound(cfg, a, op, b);
  }

  // ---- Submissions in two parts ----

  function OpOf(w: Commit): Op {
    match w
    case Marks(id) => Mark(id)
    case Adds(row) => Add(row)
    case Files(r) => File(r)
    case Nothing => Skip
    case Fails => Skip
  }

  /** In sound tables only a static flag is accepted by a row that has yet to be added, and without an instance. */
  lemma NewRowIsStatic(cfg: Config, a: Db, c: int, account: int, f: string, found: Option<Cid>, v: Verdict)
    requires Sound(cfg, a) && c in cfg.challenges && Decides(cfg, a, c, account, f, found, v)
    requires v.Accept? && v.row !in a.flags
    ensures IsStatic(cfg, c) && f == ExpectedStaticFlag(cfg.challenges[c]) && found.None?
  {
    var now, b :| LooksUp(cfg, a, c, account, f, now, found, v, b);
    StaticInstances(cfg, a);
    if found.Some? && f == a.instances[found.value].flag {
      LaunchRowAttached(a, c, found.value);
    }
  }

  /** The rejection of a random flag cites a row of another account, if any. */
  lemma RejectionCites(cfg: Config, a: Db, c: int, account: int, f: string, found: Option<Cid>, v: Verdict)
    requires Sound(cfg, a) && c in cfg.challenges && Decides(cfg, a, c, account, f, found, v) && v.Reject?
    ensures OwnedRows(a, c, f, OwnerOf(cfg, account)) == {}
    ensures v.cited.Some? <==> MatchingRows(a, c, f) != {}
    ensures v.cited.Some? ==>
      && v.cited.value in MatchingRows(a, c, f) && a.flags[v.cited.value].owner != OwnerOf(cfg, account)
      && OtherAccount(cfg, a.flags[v.cited.value], account)
  {
    var now, b :| LooksUp(cfg, a, c, account, f, now, found, v, b);
    if v.cited.Some? {
      CitedIsForeign(cfg, a, c, account, f, v.cited.value);
    }
  }

  /** The commit of a decision is a transaction of the ledger, however the tables have moved on since. */
  lemma CommitDoes(cfg: Config, seen: Db, a: Db, c: int, account: int, f: string, now: int,
                   found: Option<Cid>, v: Verdict)
    requires Sound(cfg, seen) && RandomRowsConserved(cfg, seen, a)
    requires c in cfg.challenges && Decides(cfg, seen, c, account, f, found, v)
    ensures var w := CommitOf(cfg, seen, a, c, account, f, now, found, v);
      Does(cfg, a, OpOf(w), Committed(a, w))
  {
    var w := CommitOf(cfg, seen, a, c, account, f, now, found, v);
    assert w.Marks? ==> w.row in a.flags;
    if w.Adds? {
      AddedIsSound(cfg, seen, a, c, account, f, now, found, v);
    }
    if w.Files? {
      FiledIsGenuine(cfg, seen, a, c, account, f, now, found, v);
    }
    WriteDoes(cfg, a, w);
  }

  lemma WriteDoes(cfg: Config, a: Db, w: Commit)
    requires w.Marks? ==> w.row in a.flags
    requires w.Adds? ==> IsStatic(cfg, w.added.challenge) && SoundRow(cfg, a.instances, w.added)
    requires w.Files? ==> Genuine(cfg, a, w.report)
    ensures Does(cfg, a, OpOf(w), Committed(a, w))
  {
  }

  lemma AddedIsSound(cfg: Config, seen: Db, a: Db, c: int, account: int, f: string, now: int,
                     found: Option<Cid>, v: Verdict)
    requires Sound(cfg, seen) && c in cfg.challenges && Decides(cfg, seen, c, account, f, found, v)
    requires CommitOf(cfg, seen, a, c, account, f, now, found, v).Adds?
    ensures var row := CommitOf(cfg, seen, a, c, account, f, now, found, v).added;
      IsStatic(cfg, row.challenge) && SoundRow(cfg, a.instances, row)
  {
    NewRowIsStatic(cfg, seen, c, account, f, found, v);
  }

  lemma FiledIsGenuine(cfg: Config, seen: Db, a: Db, c: int, account: int, f: string, now: int,
                       found: Option<Cid>, v: Verdict)
    requires Sound(cfg, seen) && RandomRowsConserved(cfg, seen, a)
    requires c in cfg.challenges && Decides(cfg, seen, c, account, f, found, v)
    requires CommitOf(cfg, seen, a, c, account, f, now, found, v).Files?
    ensures Genuine(cfg, a, CommitOf(cfg, seen, a, c, account, f, now, found, v).report)
  {
    RejectionCites(cfg, seen, c, account, f, found, v);
    StaysGenuine(cfg, seen, a, v.cited.value, account, now);
  }

  /** A report about a row that was seen is still genuine when it is filed. */
  lemma StaysGenuine(cfg: Config, seen: Db, a: Db, id: nat, account: int, now: int)
    requires RandomRowsConserved(cfg, seen, a) && id in seen.flags && IsRandom(cfg, seen.flags[id].challenge)
    requires seen.flags[id].owner != OwnerOf(cfg, account)
    ensures Genuine(cfg, a, ReportOf(cfg, seen.flags[id], account, now))
  {
    assert Conserves(seen.flags[id], a.flags[id]);
    ReportIsGenuine(cfg, a, id, account, now);
  }

  /** A submission that commits to the tables it has read is a whole submission, and cannot fail. */
  lemma UninterruptedCommit(cfg: Config, a: Db, c: int, account: int, f: string, now: int,
                            found: Option<Cid>, v: Verdict)
    requires Sound(cfg, a) && c in cfg.challenges && Decides(cfg, a, c, account, f, found, v)
    ensures var w := CommitOf(cfg, a, a, c, account, f, now, found, v);
      !w.Fails? && Submits(cfg, a, c, account, f, now, found, v, Committed(a, w))
  {
    var w := CommitOf(cfg, a, a, c, account, f, now, found, v);
    if v.Accept? {
      var row := FlagRow(c, found, f, OwnerOf(cfg, account), false);
      if v.row !in a.flags {
        NewRowIsStatic(cfg, a, c, account, f, found, v);
      }
      var mid := if v.row in a.flags then a else AddFlag(a, row);
      assert LooksUp(cfg, a, c, account, f, now, found, v, mid);
      assert MarkUsed(mid, v.row) == Committed(a, w);
    } else {
      RejectionCites(cfg, a, c, account, f, found, v);
      assert LooksUp(cfg, a, c, account, f, now, found, v, Committed(a, w));
    }
  }

  // ---- Histories ----

  ghost predicate FollowsAtomically(cfg: Config, h: seq<Db>, i: int)
    requires 0 <= i < |h| - 1
  {
    exists op :: Atomic(op) && Does(cfg, h[i], op, h[i + 1])
  }

  ghost predicate Follows(cfg: Config, h: seq<Db>, i: int)
    requires 0 <= i < |h| - 1
  {
    Transacts(cfg, h[i], h[i + 1])
  }

  /** `h` lists the tables after each transaction, starting from empty tables. */
  ghost predicate History(cfg: Config, h: seq<Db>) {
    && |h| > 0 && h[0] == EMPTY
    && forall i :: 0 <= i < |h| - 1 ==> Follows(cfg, h, i)
  }

  /** A history whose submissions are single transactions. */
  ghost predicate AtomicHistory(cfg: Config, h: seq<Db>) {
    && |h| > 0 && h[0] == EMPTY
    && forall i :: 0 <= i < |h| - 1 ==> FollowsAtomically(cfg, h, i)
  }

  lemma AtomicIsHistory(cfg: Config, h: seq<Db>)
    requires AtomicHistory(cfg, h)
    ensures History(cfg, h)
  {
    forall i | 0 <= i < |h| - 1
      ensures Follows(cfg, h, i)
    {
      assert FollowsAtomically(cfg, h, i);
      var op :| Atomic(op) && Does(cfg, h[i], op, h[i + 1]);
    }
  }

  /** An instance that `o` holds for challenge `c` carries flag `f`. */
  predicate Holds(db: Db, cid: Cid, c: int, o: Owner, f: string) {
    Active(db, c, o, cid) && db.instances[cid].flag == f
  }

  /** At some point of the history, up to state `n`, owner `o` was given flag `f` for challenge `c`. */
  ghost predicate Issued(h: seq<Db>, n: nat, c: int, o: Owner, f: string)
    requires n < |h|
  {
    exists i, cid :: 0 <= i <= n && Holds(h[i], cid, c, o, f)
  }

  lemma {:induction false} HistorySound(cfg: Config, h: seq<Db>, n: nat)
    requires History(cfg, h) && n < |h|
    ensures Sound(cfg, h[n])
  {
    if n > 0 {
      HistorySound(cfg, h, n - 1);
      assert Follows(cfg, h, n - 1);
      TransactsSound(cfg, h[n - 1], h[n]);
    }
  }

  /** `h` is a history of single transactions that leads up to `db`. */
  ghost predicate Chronicle(cfg: Config, h: seq<Db>, db: Db) {
    AtomicHistory(cfg, h) && h[|h| - 1] == db
  }

  lemma ChronicleSound(cfg: Config, h: seq<Db>, db: Db)
    requires Chronicle(cfg, h, db)
    ensures Sound(cfg, db) && History(cfg, h)
  {
    AtomicIsHistory(cfg, h);
    HistorySound(cfg, h, |h| - 1);
  }

  lemma ChronicleGrows(cfg: Config, h: seq<Db>, a: Db, op: Op, b: Db)
    requires Chronicle(cfg, h, a) && Atomic(op) && Does(cfg, a, op, b)
    ensures Chronicle(cfg, h + [b], b)
  {
    var longer := h + [b];
    forall i | 0 <= i < |longer| - 1
      ensures FollowsAtomically(cfg, longer, i)
    {
      if i < |h| - 1 {
        assert FollowsAtomically(cfg, h, i);
      }
    }
  }

  /** Random flag rows survive every teardown, sweep and solve with owner, challenge and text intact. */
  lemma {:induction false} IssuedFlagsConserved(cfg: Config, h: seq<Db>, i: nat, j: nat)
    requires History(cfg, h) && i <= j < |h|
    ensures RandomRowsConserved(cfg, h[i], h[j])
    decreases j
  {
    if i < j {
      IssuedFlagsConserved(cfg, h, i, j - 1);
      HistorySound(cfg, h, j - 1);
      assert Follows(cfg, h, j - 1);
      TransactsSound(cfg, h[j - 1], h[j]);
      ConservationComposes(cfg, h[i], h[j - 1], h[j]);
    }
  }

  /** Only a launch adds a row for a random challenge, and it adds it together with its instance. */
  lemma NewRandomRow(cfg: Config, a: Db, op: Op, b: Db, id: nat) returns (cid: Cid)
    requires Sound(cfg, a) && Does(cfg, a, op, b)
    requires id in b.flags && id !in a.flags && IsRandom(cfg, b.flags[id].challenge)
    ensures Holds(b, cid, b.flags[id].challenge, b.flags[id].owner, b.flags[id].flag)
  {
    match op
    case Insert(k, inst) => cid := k;
    case Submit(c, account, f, now, found, v) =>
      SubmitSound(cfg, a, c, account, f, now, found, v, b);
      assert false;
    case _ => assert false;
  }

  lemma {:induction false} RowWasIssued(cfg: Config, h: seq<Db>, n: nat, id: nat)
    requires History(cfg, h) && n < |h| && id in h[n].flags && IsRandom(cfg, h[n].flags[id].challenge)
    ensures Issued(h, n, h[n].flags[id].challenge, h[n].flags[id].owner, h[n].flags[id].flag)
  {
    var row := h[n].flags[id];
    if n > 0 {
      HistorySound(cfg, h, n - 1);
      assert Follows(cfg, h, n - 1);
      var op :| Does(cfg, h[n - 1], op, h[n]);
      if id in h[n - 1].flags {
        TransactionKeepsRow(cfg, h[n - 1], op, h[n], id);
        RowWasIssued(cfg, h, n - 1, id);
        var i, cid :| 0 <= i <= n - 1 && Holds(h[i], cid, row.challenge, row.owner, row.flag);
        assert 0 <= i <= n && Holds(h[i], cid, row.challenge, row.owner, row.flag);
      } else {
        var cid := NewRandomRow(cfg, h[n - 1], op, h[n], id);
        assert 0 <= n <= n && Holds(h[n], cid, row.challenge, row.owner, row.flag);
      }
    }
  }

  lemma LookupKeepsRow(cfg: Config, a: Db, c: int, account: int, f: string, now: int,
                       found: Option<Cid>, v: Verdict, b: Db, id: nat)
    requires c in cfg.challenges && LooksUp(cfg, a, c, account, f, now, found, v, b) && id in a.flags && id < a.nextFlag
    ensures id in b.flags && b.flags[id] == a.flags[id]
  {
  }

  lemma TransactionKeepsRow(cfg: Config, a: Db, op: Op, b: Db, id: nat)
    requires Sound(cfg, a) && Does(cfg, a, op, b) && id in a.flags && id in b.flags
    ensures Conserves(a.flags[id], b.flags[id])
  {
    match op
    case Submit(c, account, f, now, found, v) =>
      var m := SubmitMid(cfg, a, c, account, f, now, found, v, b);
      LookupKeepsRow(cfg, a, c, account, f, now, found, v, m, id);
    case _ =>
  }

  /** Row ids are handed out in order. */
  lemma IdsGrow(cfg: Config, a: Db, op: Op, b: Db)
    requires Does(cfg, a, op, b)
    ensures a.nextFlag <= b.nextFlag
    ensures forall id :: id in b.flags && id !in a.flags ==> a.nextFlag <= id
  {
    if op.Submit? {
      var m := SubmitMid(cfg, a, op.challenge, op.account, op.flag, op.now, op.found, op.verdict, b);
    }
  }

  /** A transaction that accepts a flag by row `id`. */
  predicate Accepts(op: Op, id: nat) {
    (op.Submit? && op.verdict == Accept(id)) || op == Mark(id)
  }

  ghost predicate AcceptedAt(cfg: Config, h: seq<Db>, i: int, id: nat)
    requires 0 <= i < |h| - 1
  {
    exists op :: Does(cfg, h[i], op, h[i + 1]) && Accepts(op, id)
  }

  /** A random flag's row is unused when it is added, and used from the first acceptance on. */
  lemma UsedStep(cfg: Config, a: Db, op: Op, b: Db, id: nat)
    requires Sound(cfg, a) && Does(cfg, a, op, b) && id in b.flags && IsRandom(cfg, b.flags[id].challenge)
    ensures b.flags[id].used <==> (id in a.flags && a.flags[id].used) || Accepts(op, id)
  {
    match op
    case Submit(c, account, f, now, found, v) =>
      var m := SubmitMid(cfg, a, c, account, f, now, found, v, b);
      SubmitSound(cfg, a, c, account, f, now, found, v, b);
      LookupKeepsRow(cfg, a, c, account, f, now, found, v, m, id);
    case _ =>
  }

  lemma {:induction false} IdsStay(cfg: Config, h: seq<Db>, i: nat, n: nat, id: nat)
    requires History(cfg, h) && i <= n < |h|
    ensures h[i].nextFlag <= h[n].nextFlag
    ensures id < h[i].nextFlag && id !in h[i].flags ==> id !in h[n].flags
    decreases n
  {
    if i < n {
      IdsStay(cfg, h, i, n - 1, id);
      assert Follows(cfg, h, n - 1);
      var op :| Does(cfg, h[n - 1], op, h[n]);
      IdsGrow(cfg, h[n - 1], op, h[n]);
    }
  }

  lemma AcceptedIsThere(cfg: Config, a: Db, op: Op, b: Db, id: nat)
    requires Sound(cfg, a) && Does(cfg, a, op, b) && Accepts(op, id)
    ensures id in b.flags && Sound(cfg, b)
  {
    TransactionSound(cfg, a, op, b);
    if op.Submit? {
      var m := SubmitMid(cfg, a, op.challenge, op.account, op.flag, op.now, op.found, op.verdict, b);
    }
  }

  /** After any history a random flag's row is used exactly if some submission has been accepted by it. */
  lemma {:induction false} UsedExactly(cfg: Config, h: seq<Db>, n: nat, id: nat)
    requires History(cfg, h) && n < |h| && id in h[n].flags && IsRandom(cfg, h[n].flags[id].challenge)
    ensures h[n].flags[id].used <==> exists i :: 0 <= i < n && AcceptedAt(cfg, h, i, id)
  {
    if n > 0 {
      HistorySound(cfg, h, n - 1);
      assert Follows(cfg, h, n - 1);
      if id in h[n - 1].flags {
        var op :| Does(cfg, h[n - 1], op, h[n]);
        TransactionKeepsRow(cfg, h[n - 1], op, h[n], id);
        UsedExactly(cfg, h, n - 1, id);
      } else {
        NeverAccepted(cfg, h, n - 1, id);
      }
      UsedLast(cfg, h, n, id);
    }
  }

  /** Whether the last transaction accepts by the row. */
  lemma UsedLast(cfg: Config, h: seq<Db>, n: nat, id: nat)
    requires History(cfg, h) && 0 < n < |h| && Sound(cfg, h[n - 1])
    requires id in h[n].flags && IsRandom(cfg, h[n].flags[id].challenge)
    ensures h[n].flags[id].used
       <==> (id in h[n - 1].flags && h[n - 1].flags[id].used) || AcceptedAt(cfg, h, n - 1, id)
  {
    assert Follows(cfg, h, n - 1);
    var op :| Does(cfg, h[n - 1], op, h[n]);
    UsedStep(cfg, h[n - 1], op, h[n], id);
    if AcceptedAt(cfg, h, n - 1, id) {
      var other :| Does(cfg, h[n - 1], other, h[n]) && Accepts(other, id);
      UsedStep(cfg, h[n - 1], other, h[n], id);
    }
  }

  /** Nothing has been accepted by a row that is not there yet. */
  lemma NeverAccepted(cfg: Config, h: seq<Db>, n: nat, id: nat)
    requires History(cfg, h) && n + 1 < |h| && id !in h[n].flags && id in h[n + 1].flags
    ensures forall i :: 0 <= i < n ==> !AcceptedAt(cfg, h, i, id)
  {
    forall i | 0 <= i < n
      ensures !AcceptedAt(cfg, h, i, id)
    {
      if AcceptedAt(cfg, h, i, id) {
        var op :| Does(cfg, h[i], op, h[i + 1]) && Accepts(op, id);
        HistorySound(cfg, h, i);
        AcceptedIsThere(cfg, h[i], op, h[i + 1], id);
        IdsStay(cfg, h, i + 1, n, id);
        IdsStay(cfg, h, n, n + 1, id);
      }
    }
  }

  lemma IssuedRowSurvives(cfg: Config, h: seq<Db>, n: nat, c: int, o: Owner, f: string) returns (id: nat)
    requires History(cfg, h) && n < |h| && IsRandom(cfg, c) && Issued(h, n, c, o, f)
    ensures id in OwnedRows(h[n], c, f, o)
  {
    var i, cid :| 0 <= i <= n && Holds(h[i], cid, c, o, f);
    HistorySound(cfg, h, i);
    assert HasFlagRow(h[i], cid);
    id :| id in h[i].flags && Matches(h[i].flags[id], cid, h[i].instances[cid]);
    IssuedFlagsConserved(cfg, h, i, n);
    assert Conserves(h[i].flags[id], h[n].flags[id]);
  }

  // ---- What a submission means ----

  /**
   Random flags: whatever teardowns, sweeps and solves came between, the lookup accepts flag `f`
   from an account exactly if `f` was issued to that account for that challenge.
   */
  lemma RandomFlagAccepted(cfg: Config, h: seq<Db>, n: nat, c: int, account: int, f: string, now: int,
                           found: Option<Cid>, v: Verdict, b: Db)
    requires History(cfg, h) && n < |h| && IsRandom(cfg, c)
    requires LooksUp(cfg, h[n], c, account, f, now, found, v, b)
    ensures v.Accept? <==> Issued(h, n, c, OwnerOf(cfg, account), f)
  {
    var o := OwnerOf(cfg, account);
    HistorySound(cfg, h, n);
    if Issued(h, n, c, o, f) {
      var id := IssuedRowSurvives(cfg, h, n, c, o, f);
    }
    if v.Accept? {
      if found.Some? && f == h[n].instances[found.value].flag {
        assert 0 <= n <= n && Holds(h[n], found.value, c, o, f);
      } else {
        RowWasIssued(cfg, h, n, v.row);
      }
    }
  }

  /** Static flags: the staged lookup collapses to equality with prefix + content + suffix. */
  lemma StaticFlagAccepted(cfg: Config, h: seq<Db>, n: nat, c: int, account: int, f: string, now: int,
                           found: Option<Cid>, v: Verdict, b: Db)
    requires History(cfg, h) && n < |h| && IsStatic(cfg, c)
    requires LooksUp(cfg, h[n], c, account, f, now, found, v, b)
    ensures v.Accept? <==> f == ExpectedStaticFlag(cfg.challenges[c])
    ensures v.Accept? <==> Spells(f, cfg.challenges[c])
  {
    ExpectedSpelled(cfg.challenges[c], f);
    HistorySound(cfg, h, n);
  }

  // ---- The cheat log ----

  ghost predicate Accused(db: Db, c: int, second: Owner, f: string) {
    exists i :: 0 <= i < |db.reports| && Accuses(db.reports[i], c, second, f)
  }

  predicate Accuses(r: Report, c: int, second: Owner, f: string) {
    r.challenge == c && r.second == second && r.fingerprint == Sha256(f)
  }

  /** If the flag's row is there, the rejection leaves an entry against the submitter, new or old. */
  lemma RejectionAccuses(cfg: Config, a: Db, c: int, account: int, f: string, now: int, v: Verdict, b: Db)
    requires Sound(cfg, a) && IsRandom(cfg, c) && Rejects(cfg, a, c, account, f, now, v, b)
    requires MatchingRows(a, c, f) != {} && OwnedRows(a, c, f, OwnerOf(cfg, account)) == {}
    ensures Accused(b, c, OwnerOf(cfg, account), f)
  {
    var cited := v.cited.value;
    CitedIsForeign(cfg, a, c, account, f, cited);
    var r := ReportOf(cfg, a.flags[cited], account, now);
    if Reported(a.reports, r) {
      var i :| 0 <= i < |a.reports| && a.reports[i].Key() == r.Key();
      assert Accuses(b.reports[i], c, OwnerOf(cfg, account), f);
    } else {
      assert Accuses(b.reports[|b.reports| - 1], c, OwnerOf(cfg, account), f);
    }
  }

  /** An entry about a flag means that a row still records its issue. */
  lemma AccusedIsBacked(cfg: Config, db: Db, c: int, second: Owner, f: string) returns (id: nat)
    requires SoundReports(cfg, db) && Accused(db, c, second, f)
    ensures id in db.flags && db.flags[id].challenge == c && db.flags[id].flag == f
  {
    var i :| 0 <= i < |db.reports| && Accuses(db.reports[i], c, second, f);
    assert Backed(db, db.reports[i]);
    id :| id in db.flags && Backs(db.flags[id], db.reports[i]);
  }

  /**
   A rejected random flag leaves a log entry against its submitter exactly if the flag had been
   issued to somebody; that somebody is never the submitter.
   */
  lemma RejectionReported(cfg: Config, h: seq<Db>, n: nat, c: int, account: int, f: string, now: int,
                          found: Option<Cid>, v: Verdict, b: Db)
    requires History(cfg, h) && n < |h| && IsRandom(cfg, c)
    requires LooksUp(cfg, h[n], c, account, f, now, found, v, b) && v.Reject?
    ensures Accused(b, c, OwnerOf(cfg, account), f) <==> exists o :: Issued(h, n, c, o, f)
    ensures !Issued(h, n, c, OwnerOf(cfg, account), f)
  {
    RandomFlagAccepted(cfg, h, n, c, account, f, now, found, v, b);
    HistorySound(cfg, h, n);
    if o :| Issued(h, n, c, o, f) {
      var id := IssuedRowSurvives(cfg, h, n, c, o, f);
      assert id in MatchingRows(h[n], c, f);
      RejectionAccuses(cfg, h[n], c, account, f, now, v, b);
    }
    if Accused(b, c, OwnerOf(cfg, account), f) {
      LookupSound(cfg, h[n], c, account, f, now, found, v, b);
      var id := AccusedIsBacked(cfg, b, c, OwnerOf(cfg, account), f);
      RowWasIssued(cfg, h, n, id);
      assert Issued(h, n, c, b.flags[id].owner, f);
    }
  }

  /** Every entry of the log names a genuine earlier owner, and never its own submitter. */
  lemma ReportsGenuine(cfg: Config, h: seq<Db>, n: nat, k: nat)
    requires History(cfg, h) && n < |h| && k < |h[n].reports|
    ensures var r := h[n].reports[k];
      r.original != r.second && Issued(h, n, r.challenge, r.original, r.fingerprint.text)
  {
    HistorySound(cfg, h, n);
    assert Genuine(cfg, h[n], h[n].reports[k]);
    var id :| id in h[n].flags && Backs(h[n].flags[id], h[n].reports[k]);
    RowWasIssued(cfg, h, n, id);
  }

  /** The log only grows, one entry at a time, and only by a submission that is rejected. */
  lemma ReportsOnlyByRejection(cfg: Config, a: Db, op: Op, b: Db)
    requires Sound(cfg, a) && Does(cfg, a, op, b) && b.reports != a.reports
    ensures op.File? || (op.Submit? && op.verdict.Reject?)
    ensures |b.reports| == |a.reports| + 1 && b.reports[..|a.reports|] == a.reports
    ensures op.Submit? ==> Accuses(b.reports[|a.reports|], op.challenge, OwnerOf(cfg, op.account), op.flag)
    ensures op.Submit? ==> !Reported(a.reports, b.reports[|a.reports|]) && b.reports[|a.reports|].at == op.now
  {
    if op.Submit? {
      SubmitSound(cfg, a, op.challenge, op.account, op.flag, op.now, op.found, op.verdict, b);
      var m := SubmitMid(cfg, a, op.challenge, op.account, op.flag, op.now, op.found, op.verdict, b);
    }
  }

  // ---- When the log has no duplicates ----

  /** The `i`-th transaction adds an entry that agrees with one that is there. */
  ghost predicate Repeats(h: seq<Db>, i: int)
    requires 0 <= i < |h| - 1
  {
    |h[i].reports| < |h[i + 1].reports| && Reported(h[i].reports, h[i + 1].reports[|h[i].reports|])
  }

  lemma AppendUnique(reports: seq<Report>, r: Report)
    ensures Unique(reports + [r]) <==> Unique(reports) && !Reported(reports, r)
  {
    var longer := reports + [r];
    if Unique(longer) {
      assert forall i, j :: 0 <= i < j < |reports| ==> longer[i] == reports[i] && longer[j] == reports[j];
      forall i | 0 <= i < |reports| ensures reports[i].Key() != r.Key() {
        assert longer[i].Key() != longer[|reports|].Key();
      }
    }
  }

  lemma LogGrows(cfg: Config, a: Db, op: Op, b: Db)
    requires Sound(cfg, a) && Does(cfg, a, op, b)
    ensures a.reports <= b.reports && |b.reports| <= |a.reports| + 1
  {
    if b.reports != a.reports {
      ReportsOnlyByRejection(cfg, a, op, b);
    }
  }

  /** The log is free of duplicates exactly if no transaction has repeated an entry. */
  lemma {:induction false} ReportsUniqueExactly(cfg: Config, h: seq<Db>, n: nat)
    requires History(cfg, h) && n < |h|
    ensures Unique(h[n].reports) <==> forall i :: 0 <= i < n ==> !Repeats(h, i)
  {
    if n > 0 {
      ReportsUniqueExactly(cfg, h, n - 1);
      HistorySound(cfg, h, n - 1);
      assert Follows(cfg, h, n - 1);
      var op :| Does(cfg, h[n - 1], op, h[n]);
      LogGrows(cfg, h[n - 1], op, h[n]);
      var before, after := h[n - 1].reports, h[n].reports;
      if before != after {
        assert after == before + [after[|before|]];
        AppendUnique(before, after[|before|]);
      }
      assert Repeats(h, n - 1) <==> before != after && Reported(before, after[|before|]);
    }
  }

  /** Submissions that are single transactions never repeat one, so they keep the log free of duplicates. */
  lemma ReportsUnique(cfg: Config, h: seq<Db>, n: nat)
    requires AtomicHistory(cfg, h) && n < |h|
    ensures Unique(h[n].reports)
  {
    AtomicIsHistory(cfg, h);
    ReportsUniqueExactly(cfg, h, n);
    forall i | 0 <= i < n
      ensures !Repeats(h, i)
    {
      HistorySound(cfg, h, i);
      assert FollowsAtomically(cfg, h, i);
      var op :| Atomic(op) && Does(cfg, h[i], op, h[i + 1]);
      if h[i + 1].reports != h[i].reports {
        ReportsOnlyByRejection(cfg, h[i], op, h[i + 1]);
      }
    }
  }
}
