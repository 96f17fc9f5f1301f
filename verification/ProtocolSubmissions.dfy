/**
 Submissions that read the tables in one state and commit in a later one: what they decide, when
 their commit fails, and exactly when the cheat log gets an entry twice.
 */
module ProtocolSubmissions {
  import opened Options
  import opened Tables
  import opened Ledger
  import opened Protocol
  import opened ProtocolInvariant
  import opened ProtocolSafety

  // ---- Where a snapshot comes from ----

  /** A step leaves a session's tables as it saw them, or makes it read the current ones. */
  lemma StepSeen(c: Params, s: State, step: Step, p: Pid)
    requires Enabled(c, s, step)
    ensures Sess(Do(c, s, step), p).snap.None? || Seen(Do(c, s, step), p) == Seen(s, p)
  {
    match step
    case Create(q, create) =>
      CreateSnap(c, s, q, create);
      CreateFrame(c, s, q, create);
    case Serve(q, serve) =>
      ServeSnap(c, s, q, serve);
      ServeFrame(c, s, q, serve);
    case Sweep(q, sweep) => SweepFrame(c, s, q, sweep);
    case _ =>
  }

  lemma NextSeen(c: Params, s: State, t: State, p: Pid)
    requires Next(c, s, t)
    ensures Sess(t, p).snap.None? || Seen(t, p) == Seen(s, p)
  {
    var step :| Enabled(c, s, step) && t == Do(c, s, step);
    StepSeen(c, s, step, p);
  }

  /** The tables a session reads are those of some state of the run. */
  lemma {:induction false} SnapshotIsPast(c: Params, run: seq<State>, n: nat, p: Pid) returns (m: nat)
    requires IsRun(c, run) && n < |run|
    ensures m <= n && Seen(run[n], p) == run[m].db
  {
    if Sess(run[n], p).snap.None? || n == 0 {
      m := n;
    } else {
      assert StepAt(c, run, n - 1);
      NextSeen(c, run[n - 1], run[n], p);
      m := SnapshotIsPast(c, run, n - 1, p);
    }
  }

  // ---- What a submission decides ----

  /**
   At any point of any run, the verdict that a submission is about to commit is right for the
   state `m` that it has read: a random flag is accepted exactly if it had been issued to the
   account by then, a static one exactly if it is the configured flag.
   */
  lemma VerdictIsRight(c: Params, run: seq<State>, n: nat, p: Pid) returns (m: nat)
    requires IsRun(c, run) && n < |run| && PhaseOf(run[n], p).Submitting?
    ensures m <= n && Seen(run[n], p) == run[m].db
    ensures var ph := PhaseOf(run[n], p); var o := OwnerOf(c.cfg, ph.account);
      && (IsRandom(c.cfg, ph.challenge) ==>
            (ph.verdict.Accept? <==>
               exists i, cid :: 0 <= i <= m && Holds(run[i].db, cid, ph.challenge, o, ph.flag)))
      && (IsStatic(c.cfg, ph.challenge) ==>
            (ph.verdict.Accept? <==> Spells(ph.flag, c.cfg.challenges[ph.challenge])))
  {
    m := SnapshotIsPast(c, run, n, p);
    RunInv(c, run, n);
    assert Informed(c, run[n], p);
    var ph := PhaseOf(run[n], p);
    var now, b :| LooksUp(c.cfg, run[m].db, ph.challenge, ph.account, ph.flag, now, ph.found, ph.verdict, b);
    FlagsUnderConcurrency(c, run, m, n, ph.challenge, ph.account, ph.flag, now, ph.found, ph.verdict, b);
  }

  // ---- When the commit fails ----

  /** A row of a static challenge goes with its instance, and stays otherwise. */
  lemma StaticRowStep(cfg: Config, a: Db, op: Op, b: Db, id: nat)
    requires Sound(cfg, a) && Does(cfg, a, op, b) && id in a.flags && IsStatic(cfg, a.flags[id].challenge)
    ensures id in b.flags <==> a.flags[id].container.None? || a.flags[id].container.value in b.instances
    ensures id in b.flags ==>
      b.flags[id].container == a.flags[id].container && b.flags[id].challenge == a.flags[id].challenge
  {
    if id in b.flags {
      TransactionKeepsRow(cfg, a, op, b, id);
    }
    match op
    case Submit(c, account, f, now, found, v) =>
      var m := SubmitMid(cfg, a, c, account, f, now, found, v, b);
      LookupKeepsRow(cfg, a, c, account, f, now, found, v, m, id);
    case _ =>
  }

  lemma StepRecorded(c: Params, s: State, step: Step, k: Cid)
    requires Inv(c, s) && Enabled(c, s, step) && k in s.recorded
    ensures k in Do(c, s, step).recorded
    ensures k !in s.db.instances ==> k !in Do(c, s, step).db.instances
  {
    match step
    case Create(p, create) =>
      assert Good(c, s, p);
      CreateEffect(c, s, p, create);
    case Serve(p, serve) => ServeEffect(c, s, p, serve);
    case Sweep(p, sweep) => SweepEffect(c, s, p, sweep);
    case _ =>
  }

  /** What one step does to a flag row of a static challenge, and to the instance it is attached to. */
  lemma NextStaticRow(c: Params, s: State, t: State, id: nat, k: Cid)
    requires Inv(c, s) && Next(c, s, t)
    ensures s.db.nextFlag <= t.db.nextFlag
    ensures id < s.db.nextFlag && id !in s.db.flags ==> id !in t.db.flags
    ensures k in s.recorded ==> k in t.recorded && (k !in s.db.instances ==> k !in t.db.instances)
    ensures id in s.db.flags && IsStatic(c.cfg, s.db.flags[id].challenge) ==>
      && (id in t.db.flags <==>
            s.db.flags[id].container.None? || s.db.flags[id].container.value in t.db.instances)
      && (id in t.db.flags ==> t.db.flags[id].container == s.db.flags[id].container
                               && t.db.flags[id].challenge == s.db.flags[id].challenge)
  {
    var step :| Enabled(c, s, step) && t == Do(c, s, step);
    assert Does(c.cfg, s.db, Transaction(c, s, step), t.db) by {
      if step.Create? { assert Good(c, s, step.p); }
      if step.Serve? { assert Informed(c, s, step.p); }
      StepTransacts(c, s, step);
    }
    IdsGrow(c.cfg, s.db, Transaction(c, s, step), t.db);
    if id in s.db.flags && IsStatic(c.cfg, s.db.flags[id].challenge) {
      StaticRowStep(c.cfg, s.db, Transaction(c, s, step), t.db, id);
    }
    if k in s.recorded {
      StepRecorded(c, s, step, k);
    }
  }

  /** Where a static row stands in a later state `t`: it is there exactly if what it was attached to is. */
  predicate Stands(row: FlagRow, id: nat, t: State) {
    && id < t.db.nextFlag
    && (row.container.Some? ==> row.container.value in t.recorded)
    && (id in t.db.flags <==> row.container.None? || row.container.value in t.db.instances)
    && (id in t.db.flags ==> t.db.flags[id].container == row.container && t.db.flags[id].challenge == row.challenge)
  }

  lemma NextStands(c: Params, s: State, t: State, row: FlagRow, id: nat)
    requires Inv(c, s) && Next(c, s, t) && IsStatic(c.cfg, row.challenge) && Stands(row, id, s)
    ensures Stands(row, id, t)
  {
    NextStaticRow(c, s, t, id, if row.container.Some? then row.container.value else 0);
  }

  lemma StandsNow(c: Params, s: State, id: nat)
    requires Inv(c, s) && id in s.db.flags
    ensures Stands(s.db.flags[id], id, s)
  {
  }

  /** A static row seen in state `m` is still there in state `n` exactly if it was unattached or its instance is. */
  lemma {:induction false} StaticRowStays(c: Params, run: seq<State>, m: nat, n: nat, id: nat)
    requires IsRun(c, run) && m <= n < |run|
    requires id in run[m].db.flags && IsStatic(c.cfg, run[m].db.flags[id].challenge)
    ensures Stands(run[m].db.flags[id], id, run[n])
    decreases n
  {
    if m == n {
      RunInv(c, run, n);
      StandsNow(c, run[n], id);
    } else {
      StaticRowStays(c, run, m, n - 1, id);
      assert StepAt(c, run, n - 1);
      assert Inv(c, run[n - 1]) by { RunInv(c, run, n - 1); }
      NextStands(c, run[n - 1], run[n], run[m].db.flags[id], id);
    }
  }

  /** The accepted row was seen unused, attached to an instance that has been torn down since. */
  predicate LostItsInstance(seen: Db, v: Verdict, instances: map<Cid, Instance>) {
    && v.Accept? && v.row in seen.flags && !seen.flags[v.row].used
    && seen.flags[v.row].container.Some? && seen.flags[v.row].container.value !in instances
  }

  /**
   The commit of a submission fails exactly if its flag is static and it is to mark a row whose
   instance somebody has torn down since it was read.
   */
  lemma CommitFailsExactly(c: Params, run: seq<State>, n: nat, p: Pid)
    requires IsRun(c, run) && n < |run| && PhaseOf(run[n], p).Submitting?
    ensures var ph := PhaseOf(run[n], p);
      SolveCommit(c, run[n], p).Fails?
      <==> IsStatic(c.cfg, ph.challenge) && LostItsInstance(Seen(run[n], p), ph.verdict, run[n].db.instances)
  {
    var m := VerdictIsRight(c, run, n, p);
    RunInv(c, run, n);
    assert Informed(c, run[n], p);
    var ph := PhaseOf(run[n], p);
    if ph.verdict.Accept? {
      if ph.verdict.row in run[m].db.flags {
        AcceptedRowChallenge(c.cfg, run[m].db, ph.challenge, ph.account, ph.flag, ph.found, ph.verdict);
        if IsStatic(c.cfg, ph.challenge) {
          StaticRowStays(c, run, m, n, ph.verdict.row);
        } else {
          assert Conserves(run[m].db.flags[ph.verdict.row], run[n].db.flags[ph.verdict.row]);
        }
      } else {
        NewRowIsStatic(c.cfg, run[m].db, ph.challenge, ph.account, ph.flag, ph.found, ph.verdict);
      }
    }
  }

  lemma AcceptedRowChallenge(cfg: Config, a: Db, c: int, account: int, f: string, found: Option<Cid>, v: Verdict)
    requires Sound(cfg, a) && c in cfg.challenges && Decides(cfg, a, c, account, f, found, v)
    requires v.Accept? && v.row in a.flags
    ensures a.flags[v.row].challenge == c
  {
    var now, b :| LooksUp(cfg, a, c, account, f, now, found, v, b);
  }

  // ---- When nobody interferes ----

  /** A submission that commits to the tables it has read is one whole submission of the ledger. */
  lemma UndisturbedIsAtomic(c: Params, run: seq<State>, n: nat, p: Pid)
    requires IsRun(c, run) && n < |run| && PhaseOf(run[n], p).Submitting? && Seen(run[n], p) == run[n].db
    ensures var ph := PhaseOf(run[n], p);
      && ph.challenge in c.cfg.challenges && !SolveCommit(c, run[n], p).Fails?
      && Submits(c.cfg, run[n].db, ph.challenge, ph.account, ph.flag, run[n].now.Floor, ph.found, ph.verdict,
                 DoServe(c, run[n], p, CommitSolve).db)
  {
    RunInv(c, run, n);
    assert Informed(c, run[n], p);
    var ph := PhaseOf(run[n], p);
    UninterruptedCommit(c.cfg, run[n].db, ph.challenge, ph.account, ph.flag, run[n].now.Floor, ph.found, ph.verdict);
  }

  // ---- The cheat log ----

  /** A rejected random flag that had been issued to somebody by the state read leaves an entry. */
  lemma RejectionLogged(c: Params, run: seq<State>, n: nat, p: Pid, m: nat, o: Owner)
    requires IsRun(c, run) && m <= n < |run| && PhaseOf(run[n], p).Submitting? && Seen(run[n], p) == run[m].db
    requires IsRandom(c.cfg, PhaseOf(run[n], p).challenge) && PhaseOf(run[n], p).verdict.Reject?
    requires Issued(TableHistory(run), m, PhaseOf(run[n], p).challenge, o, PhaseOf(run[n], p).flag)
    ensures var ph := PhaseOf(run[n], p);
      Accused(DoServe(c, run[n], p, CommitSolve).db, ph.challenge, OwnerOf(c.cfg, ph.account), ph.flag)
  {
    var ph := PhaseOf(run[n], p);
    RunIsHistory(c, run);
    var id := IssuedRowSurvives(c.cfg, TableHistory(run), m, ph.challenge, o, ph.flag);
    assert id in MatchingRows(run[m].db, ph.challenge, ph.flag);
    RunInv(c, run, n);
    assert Informed(c, run[n], p);
    RejectionCites(c.cfg, run[m].db, ph.challenge, ph.account, ph.flag, ph.found, ph.verdict);
    CommitAccuses(c, run[n], p);
  }

  lemma CommitAccuses(c: Params, s: State, p: Pid)
    requires PhaseOf(s, p).Submitting? && PhaseOf(s, p).verdict.Reject? && IsRandom(c.cfg, PhaseOf(s, p).challenge)
    requires Seen(s, p).reports <= s.db.reports
    requires var ph, d := PhaseOf(s, p), Seen(s, p);
      && ph.verdict.cited.Some? && ph.verdict.cited.value in MatchingRows(d, ph.challenge, ph.flag)
      && OtherAccount(c.cfg, d.flags[ph.verdict.cited.value], ph.account)
    ensures var ph := PhaseOf(s, p);
      Accused(DoServe(c, s, p, CommitSolve).db, ph.challenge, OwnerOf(c.cfg, ph.account), ph.flag)
  {
    var ph, d := PhaseOf(s, p), Seen(s, p);
    var r := ReportOf(c.cfg, d.flags[ph.verdict.cited.value], ph.account, s.now.Floor);
    var after := DoServe(c, s, p, CommitSolve).db;
    if Reported(d.reports, r) {
      var i :| 0 <= i < |d.reports| && d.reports[i].Key() == r.Key();
      assert Accuses(after.reports[i], ph.challenge, OwnerOf(c.cfg, ph.account), ph.flag);
    } else {
      assert Accuses(after.reports[|s.db.reports|], ph.challenge, OwnerOf(c.cfg, ph.account), ph.flag);
    }
  }

  /** The `w`-th step of the run files an entry with this key. */
  predicate FiledAt(run: seq<State>, w: int, key: (Fingerprint, int, Owner, Owner))
    requires 0 <= w < |run| - 1
  {
    && |run[w].db.reports| < |run[w + 1].db.reports|
    && run[w + 1].db.reports[|run[w].db.reports|].Key() == key
  }

  lemma LogNext(c: Params, run: seq<State>, n: nat)
    requires IsRun(c, run) && n + 1 < |run|
    ensures run[n].db.reports <= run[n + 1].db.reports && |run[n + 1].db.reports| <= |run[n].db.reports| + 1
  {
    RunIsHistory(c, run);
    HistorySound(c.cfg, TableHistory(run), n);
    assert Follows(c.cfg, TableHistory(run), n);
    var op :| Does(c.cfg, run[n].db, op, run[n + 1].db);
    LogGrows(c.cfg, run[n].db, op, run[n + 1].db);
  }

  ghost predicate FiledBetween(run: seq<State>, m: nat, n: nat, key: (Fingerprint, int, Owner, Owner))
    requires n < |run|
  {
    exists w :: m <= w < n && FiledAt(run, w, key)
  }

  /** An entry that is there in state `n` was there in state `m`, or has been filed in between. */
  lemma {:induction false} EntryWasFiled(c: Params, run: seq<State>, m: nat, n: nat, r: Report)
    requires IsRun(c, run) && m <= n < |run|
    ensures Reported(run[n].db.reports, r) <==> Reported(run[m].db.reports, r) || FiledBetween(run, m, n, r.Key())
    ensures run[m].db.reports <= run[n].db.reports
    decreases n
  {
    if m < n {
      EntryWasFiled(c, run, m, n - 1, r);
      LogNext(c, run, n - 1);
      OneEntryMore(run[n - 1].db.reports, run[n].db.reports, r);
      if FiledBetween(run, m, n, r.Key()) {
        var w :| m <= w < n && FiledAt(run, w, r.Key());
      }
      if FiledBetween(run, m, n - 1, r.Key()) {
        var w :| m <= w < n - 1 && FiledAt(run, w, r.Key());
        assert m <= w < n && FiledAt(run, w, r.Key());
      }
      if FiledAt(run, n - 1, r.Key()) {
        assert m <= n - 1 < n;
      }
    }
  }

  lemma OneEntryMore(before: seq<Report>, after: seq<Report>, r: Report)
    requires before <= after && |after| <= |before| + 1
    ensures Reported(after, r) <==> Reported(before, r) || (|before| < |after| && after[|before|].Key() == r.Key())
  {
    if Reported(before, r) {
      var i :| 0 <= i < |before| && before[i].Key() == r.Key();
      assert after[i].Key() == r.Key();
    }
    if Reported(after, r) {
      var i :| 0 <= i < |after| && after[i].Key() == r.Key();
      assert i < |before| ==> before[i].Key() == r.Key();
    }
  }

  /**
   A commit repeats an entry of the log exactly if some other step has filed it after the state
   `m` that the submission has read.
   */
  lemma CommitRepeatsExactly(c: Params, run: seq<State>, m: nat, n: nat, p: Pid)
    requires IsRun(c, run) && m <= n < |run| && PhaseOf(run[n], p).Submitting? && Seen(run[n], p) == run[m].db
    requires SolveCommit(c, run[n], p).Files?
    ensures var r := SolveCommit(c, run[n], p).report;
      Reported(run[n].db.reports, r) <==> FiledBetween(run, m, n, r.Key())
  {
    EntryWasFiled(c, run, m, n, SolveCommit(c, run[n], p).report);
  }

  /**
   Two submissions overlapped: the one that commits in step `w` had read a state no later than
   step `v`, in which the other one filed the same entry.
   */
  ghost predicate Overlapped(c: Params, run: seq<State>, v: int, w: int)
    requires 0 <= v < w < |run| - 1
  {
    exists p, m :: 0 <= m <= v && Seen(run[w], p) == run[m].db && FilesAgain(c, run, v, w, p)
  }

  ghost predicate FilesAgain(c: Params, run: seq<State>, v: int, w: int, p: Pid)
    requires 0 <= v < w < |run| - 1
  {
    && PhaseOf(run[w], p).Submitting? && SolveCommit(c, run[w], p).Files?
    && run[w + 1] == DoServe(c, run[w], p, CommitSolve)
    && FiledAt(run, v, SolveCommit(c, run[w], p).report.Key())
  }

  lemma CreateKeepsLog(c: Params, s: State, p: Pid, step: CreateStep)
    requires CanCreate(c, s, p, step)
    ensures DoCreate(c, s, p, step).db.reports == s.db.reports
  {
  }

  lemma ServeKeepsLog(c: Params, s: State, p: Pid, step: ServeStep)
    requires CanServe(c, s, p, step) && !step.CommitSolve?
    ensures DoServe(c, s, p, step).db.reports == s.db.reports
  {
  }

  /** Only the commit of a submission adds to the log. */
  lemma StepFiles(c: Params, s: State, step: Step)
    requires Enabled(c, s, step) && Do(c, s, step).db.reports != s.db.reports
    ensures step.Serve? && step.serve.CommitSolve? && SolveCommit(c, s, step.p).Files?
    ensures Do(c, s, step).db.reports == s.db.reports + [SolveCommit(c, s, step.p).report]
  {
    match step
    case Create(p, create) => CreateKeepsLog(c, s, p, create);
    case Serve(p, serve) => if !serve.CommitSolve? { ServeKeepsLog(c, s, p, serve); }
    case Sweep(p, sweep) => SweepFrame(c, s, p, sweep);
    case _ =>
  }

  lemma NextFiles(c: Params, s: State, t: State) returns (p: Pid)
    requires Next(c, s, t) && t.db.reports != s.db.reports
    ensures PhaseOf(s, p).Submitting? && t == DoServe(c, s, p, CommitSolve) && SolveCommit(c, s, p).Files?
    ensures t.db.reports == s.db.reports + [SolveCommit(c, s, p).report]
  {
    var step :| Enabled(c, s, step) && t == Do(c, s, step);
    StepFiles(c, s, step);
    p := step.p;
  }

  /** A step that repeats an entry commits a submission that overlapped with the one that filed it. */
  lemma RepeatIsOverlap(c: Params, run: seq<State>, w: nat) returns (v: nat)
    requires IsRun(c, run) && w + 1 < |run| && Repeats(TableHistory(run), w)
    ensures v < w && Overlapped(c, run, v, w)
  {
    assert StepAt(c, run, w);
    var p := NextFiles(c, run[w], run[w + 1]);
    var m := SnapshotIsPast(c, run, w, p);
    CommitRepeatsExactly(c, run, m, w, p);
    v :| m <= v < w && FiledAt(run, v, SolveCommit(c, run[w], p).report.Key());
    assert FilesAgain(c, run, v, w, p);
  }

  lemma RepeatsIs(run: seq<State>, w: nat, r: Report)
    requires w + 1 < |run| && run[w + 1].db.reports == run[w].db.reports + [r]
    ensures Repeats(TableHistory(run), w) <==> Reported(run[w].db.reports, r)
  {
  }

  lemma CommitAppends(c: Params, s: State, p: Pid)
    requires PhaseOf(s, p).Submitting? && SolveCommit(c, s, p).Files?
    ensures DoServe(c, s, p, CommitSolve).db.reports == s.db.reports + [SolveCommit(c, s, p).report]
  {
  }

  lemma OverlapIsRepeat(c: Params, run: seq<State>, v: nat, w: nat)
    requires IsRun(c, run) && v < w && w + 1 < |run| && Overlapped(c, run, v, w)
    ensures Repeats(TableHistory(run), w)
  {
    var p, m :| 0 <= m <= v && Seen(run[w], p) == run[m].db && FilesAgain(c, run, v, w, p);
    var r := SolveCommit(c, run[w], p).report;
    assert Reported(run[w].db.reports, r) by { CommitRepeatsExactly(c, run, m, w, p); }
    CommitAppends(c, run[w], p);
    RepeatsIs(run, w, r);
  }

  /** The cheat log holds an entry twice exactly if two submissions that file it have overlapped. */
  lemma DuplicatesExactly(c: Params, run: seq<State>, n: nat)
    requires IsRun(c, run) && n < |run|
    ensures !Unique(run[n].db.reports) <==> exists v, w :: 0 <= v < w < n && Overlapped(c, run, v, w)
  {
    var h := TableHistory(run);
    RunIsHistory(c, run);
    ReportsUniqueExactly(c.cfg, h, n);
    if w :| 0 <= w < n && Repeats(h, w) {
      var v := RepeatIsOverlap(c, run, w);
    }
    if v, w :| 0 <= v < w < n && Overlapped(c, run, v, w) {
      OverlapIsRepeat(c, run, v, w);
    }
  }
}
