/**
 What the lifecycle protocol guarantees in every reachable state of every interleaving, and
 which of its precautions those guarantees need.
 */
module ProtocolSafety {
  import opened Options
  import opened Sets
  import opened Tables
  import opened Ledger
  import opened Protocol
  import opened ProtocolInvariant

  function AtLeastZero(n: int): nat { if n > 0 then n else 0 }

  // ---- Capacity ----

  /** No account ever has more committed instances than `max_containers`. */
  lemma CapacityHolds(c: Params, run: seq<State>, n: nat, account: int)
    requires IsRun(c, run) && n < |run| && Safe(c)
    ensures |Rows(c, run[n], account)| <= AtLeastZero(c.max)
  {
    RunInv(c, run, n);
  }

  /** A create that holds its lock and has rolled back sees every committed row of its account. */
  lemma CreateReadsFresh(c: Params, run: seq<State>, n: nat, p: Pid, cid: Cid)
    requires IsRun(c, run) && n < |run| && Safe(c)
    requires Reading(PhaseOf(run[n], p)).Some? && cid in Rows(c, run[n], Reading(PhaseOf(run[n], p)).value)
    ensures HoldsLock(run[n], p, Reading(PhaseOf(run[n], p)).value)
    ensures cid in OwnedBy(c.cfg, View(run[n], p), Reading(PhaseOf(run[n], p)).value)
  {
    RunInv(c, run, n);
    assert Good(c, run[n], p);
    assert SameLaunch(View(run[n], p)[cid], run[n].db.instances[cid]);
  }

  // ---- The daemon ----

  /** Every running container is recorded, in flight, or one whose own cleanup kill raised. */
  lemma NoOrphanContainers(c: Params, run: seq<State>, n: nat, cid: Cid)
    requires IsRun(c, run) && n < |run| && cid in run[n].running
    ensures cid in run[n].db.instances || cid in run[n].leaked || exists p :: InFlight(PhaseOf(run[n], p)) == Some(cid)
  {
    RunInv(c, run, n);
    assert Accounted(run[n], cid);
  }

  /** The running containers launched for an account, apart from leaked ones. */
  function Live(s: State, account: int): set<Cid> {
    set k | k in s.running && k in s.launched && s.launched[k].account == account && k !in s.leaked
  }

  /** The capacity also bounds what actually runs, including a create still in flight. */
  lemma DaemonBound(c: Params, run: seq<State>, n: nat, account: int)
    requires IsRun(c, run) && n < |run| && Safe(c)
    ensures |Live(run[n], account)| <= AtLeastZero(c.max)
  {
    RunInv(c, run, n);
    var s := run[n];
    var rows := Rows(c, s, account);
    if p, cid :| InFlight(PhaseOf(s, p)) == Some(cid) && cid in Live(s, account) {
      assert Good(c, s, p);
      assert Critical(PhaseOf(s, p)) == Some(account);
      forall k | k in Live(s, account) && k != cid
        ensures k in rows
      {
        LiveIsRecorded(c, s, account, k, p, cid);
      }
      SubsetCard(Live(s, account), rows + {cid});
    } else {
      forall k | k in Live(s, account)
        ensures k in rows
      {
        assert Accounted(s, k);
        OwnersDiffer(c.cfg, account, s.launched[k].account);
      }
      SubsetCard(Live(s, account), rows);
    }
  }

  lemma LiveIsRecorded(c: Params, s: State, account: int, k: Cid, p: Pid, cid: Cid)
    requires Inv(c, s) && Safe(c) && k in Live(s, account) && k != cid
    requires InFlight(PhaseOf(s, p)) == Some(cid) && Critical(PhaseOf(s, p)) == Some(account)
    ensures k in Rows(c, s, account)
  {
    assert Accounted(s, k);
    InFlightLocked(c, s, p);
    if k !in s.db.instances {
      var q :| InFlight(PhaseOf(s, q)) == Some(k);
      InFlightLocked(c, s, q);
    }
  }

  lemma InFlightLocked(c: Params, s: State, q: Pid)
    requires Inv(c, s) && c.locking && InFlight(PhaseOf(s, q)).Some?
    ensures InFlight(PhaseOf(s, q)).value in s.launched
    ensures Critical(PhaseOf(s, q)) == Some(s.launched[InFlight(PhaseOf(s, q)).value].account)
    ensures HoldsLock(s, q, s.launched[InFlight(PhaseOf(s, q)).value].account)
  {
    assert Good(c, s, q);
  }

  // ---- One instance per challenge and account ----

  /** The unique constraints hold in every state, with or without the named locks. */
  lemma OneInstancePerChallenge(c: Params, run: seq<State>, n: nat, j: Cid, k: Cid)
    requires IsRun(c, run) && n < |run| && j in run[n].db.instances && k in run[n].db.instances
    requires run[n].db.instances[j].challenge == run[n].db.instances[k].challenge
    requires run[n].db.instances[j].owner == run[n].db.instances[k].owner
    ensures j == k
  {
    RunInv(c, run, n);
  }

  /** Under the lock the insert cannot violate them. */
  lemma LockedInsertSucceeds(c: Params, run: seq<State>, n: nat, p: Pid)
    requires IsRun(c, run) && n < |run| && Safe(c) && PhaseOf(run[n], p).Ready?
    ensures var ph := PhaseOf(run[n], p);
      !Conflicts(run[n].db, ph.cid, ph.challenge, OwnerOf(c.cfg, ph.account))
  {
    RunInv(c, run, n);
    assert Good(c, run[n], p);
    var ph := PhaseOf(run[n], p);
    forall k | k in run[n].db.instances && Collides(run[n].db.instances[k], ph.challenge, OwnerOf(c.cfg, ph.account))
      ensures k in Rows(c, run[n], ph.account)
    {
      assert Launchable(c.cfg, run[n].db.instances[k]);
    }
  }

  /** A create that lost the race kills a container that is its own and that no row records. */
  lemma LoserKillsOnlyItsOwn(c: Params, run: seq<State>, n: nat, p: Pid)
    requires IsRun(c, run) && n < |run| && CanCreate(c, run[n], p, KillOwn)
    ensures var ph := PhaseOf(run[n], p);
      && run[n].running - DoCreate(c, run[n], p, KillOwn).running <= {ph.cid}
      && ph.cid !in run[n].db.instances
      && ph.cid in run[n].launched && run[n].launched[ph.cid].account == ph.account
      && forall q :: InFlight(PhaseOf(run[n], q)) == Some(ph.cid) ==> q == p
  {
    RunInv(c, run, n);
    assert Good(c, run[n], p);
    assert InFlight(PhaseOf(run[n], p)) == Some(PhaseOf(run[n], p).cid);
  }

  /** Every row records the account, the challenge and the flag that its container was started with. */
  lemma RowsRecordLaunches(c: Params, run: seq<State>, n: nat, cid: Cid)
    requires IsRun(c, run) && n < |run| && cid in run[n].db.instances
    ensures cid in run[n].launched
    ensures var inst, what := run[n].db.instances[cid], run[n].launched[cid];
      inst.owner == OwnerOf(c.cfg, what.account) && inst.challenge == what.challenge && inst.flag == what.flag
  {
    RunInv(c, run, n);
  }

  // ---- Teardown, sweeps and leases ----

  lemma StopsNext(c: Params, run: seq<State>, n: nat, k: Cid)
    requires IsRun(c, run) && n + 1 < |run|
    ensures k in run[n].launched ==>
      && k in run[n + 1].launched
      && (k !in run[n].running ==> k !in run[n + 1].running)
      && (k in run[n].db.instances && k !in run[n + 1].db.instances ==> k !in run[n].running)
    ensures k in run[n].db.instances ==> k in run[n].launched
  {
    RunInv(c, run, n);
    assert StepAt(c, run, n);
    var s, t := run[n], run[n + 1];
    if k in s.launched {
      NextStops(c, s, t, k);
    }
  }

  /** A row disappears only once its container has stopped, and the container never runs again. */
  lemma RowsOutliveContainers(c: Params, run: seq<State>, n: nat, m: nat, cid: Cid)
    requires IsRun(c, run) && n + 1 <= m < |run|
    requires cid in run[n].db.instances && cid !in run[n + 1].db.instances
    ensures cid !in run[m].running
  {
    StopsNext(c, run, n, cid);
    StaysStopped(c, run, n + 1, m, cid);
  }

  lemma {:induction false} StaysStopped(c: Params, run: seq<State>, n: nat, m: nat, cid: Cid)
    requires IsRun(c, run) && n <= m < |run| && cid in run[n].launched && cid !in run[n].running
    ensures cid in run[m].launched && cid !in run[m].running
    decreases m
  {
    if n < m {
      StaysStopped(c, run, n, m - 1, cid);
      StopsNext(c, run, m - 1, cid);
    }
  }

  /** At most one sweep body at a time, although sessions that failed to get the lock release it too. */
  lemma OneSweepAtATime(c: Params, run: seq<State>, n: nat, p: Pid, q: Pid)
    requires IsRun(c, run) && n < |run| && c.locking
    requires SweepBody(PhaseOf(run[n], p)) && SweepBody(PhaseOf(run[n], q))
    ensures p == q
  {
    RunInv(c, run, n);
    assert Good(c, run[n], p) && Good(c, run[n], q);
  }

  /** Every lease runs at least its full length from launch and never past a renewal made now. */
  lemma LeaseClock(c: Params, run: seq<State>, n: nat, cid: Cid)
    requires IsRun(c, run) && n < |run| && cid in run[n].db.instances
    ensures run[n].db.instances[cid].timestamp + c.lease
         <= run[n].db.instances[cid].expires
         <= run[n].now.Floor + c.lease
  {
    RunInv(c, run, n);
  }

  // ---- Flags: the protocol refines the ledger ----

  ghost function TableHistory(run: seq<State>): seq<Db> {
    seq(|run|, i requires 0 <= i < |run| => run[i].db)
  }

  /** Any run of the protocol is a history of the ledger. */
  lemma RunIsHistory(c: Params, run: seq<State>)
    requires IsRun(c, run)
    ensures History(c.cfg, TableHistory(run))
  {
    var h := TableHistory(run);
    forall i | 0 <= i < |h| - 1
      ensures Follows(c.cfg, h, i)
    {
      RunInv(c, run, i);
      assert StepAt(c, run, i);
      var step :| Enabled(c, run[i], step) && run[i + 1] == Do(c, run[i], step);
      if step.Create? { assert Good(c, run[i], step.p); }
      if step.Serve? { assert Informed(c, run[i], step.p); }
      StepTransacts(c, run[i], step);
    }
  }

  /**
   In every reachable state, also one that a submission sees through a snapshot from state `m`
   while it commits in state `n`, a random flag is accepted from an account exactly if by state
   `m` the account had an instance of that challenge carrying it.  A random flag's row, which is to
   be marked used, is still there, and still about that flag, at the commit.
   */
  lemma FlagsUnderConcurrency(c: Params, run: seq<State>, m: nat, n: nat, challenge: int, account: int, f: string,
                              now: int, found: Option<Cid>, v: Verdict, after: Db)
    requires IsRun(c, run) && m <= n < |run| && challenge in c.cfg.challenges
    requires LooksUp(c.cfg, run[m].db, challenge, account, f, now, found, v, after)
    ensures IsRandom(c.cfg, challenge) ==>
      (v.Accept? <==> exists i, cid :: 0 <= i <= m && Holds(run[i].db, cid, challenge, OwnerOf(c.cfg, account), f))
    ensures IsStatic(c.cfg, challenge) ==> (v.Accept? <==> Spells(f, c.cfg.challenges[challenge]))
    ensures IsRandom(c.cfg, challenge) && v.Accept? ==>
      v.row in OwnedRows(run[n].db, challenge, f, OwnerOf(c.cfg, account))
  {
    var h := TableHistory(run);
    RunIsHistory(c, run);
    if IsRandom(c.cfg, challenge) {
      RandomFlagAccepted(c.cfg, h, m, challenge, account, f, now, found, v, after);
      IssuedInRun(run, m, challenge, OwnerOf(c.cfg, account), f);
      if v.Accept? {
        AcceptedRowStays(c.cfg, h, m, n, challenge, account, f, now, found, v, after);
      }
    } else {
      StaticFlagAccepted(c.cfg, h, m, challenge, account, f, now, found, v, after);
    }
  }

  lemma IssuedInRun(run: seq<State>, n: nat, challenge: int, o: Owner, f: string)
    requires n < |run|
    ensures Issued(TableHistory(run), n, challenge, o, f)
       <==> exists i, cid :: 0 <= i <= n && Holds(run[i].db, cid, challenge, o, f)
  {
    var h := TableHistory(run);
    if Issued(h, n, challenge, o, f) {
      var i, cid :| 0 <= i <= n && Holds(h[i], cid, challenge, o, f);
      assert Holds(run[i].db, cid, challenge, o, f);
    }
    if i, cid :| 0 <= i <= n && Holds(run[i].db, cid, challenge, o, f) {
      assert Holds(h[i], cid, challenge, o, f);
    }
  }

  /** The row a random flag was accepted by outlives whatever happens before the commit. */
  lemma AcceptedRowStays(cfg: Config, h: seq<Db>, m: nat, n: nat, c: int, account: int, f: string, now: int,
                         found: Option<Cid>, v: Verdict, b: Db)
    requires History(cfg, h) && m <= n < |h| && IsRandom(cfg, c) && v.Accept?
    requires LooksUp(cfg, h[m], c, account, f, now, found, v, b)
    ensures v.row in OwnedRows(h[n], c, f, OwnerOf(cfg, account))
  {
    assert v.row in OwnedRows(h[m], c, f, OwnerOf(cfg, account)) by {
      HistorySound(cfg, h, m);
      AcceptedRow(cfg, h[m], c, account, f, now, found, v, b);
    }
    IssuedFlagsConserved(cfg, h, m, n);
    assert Conserves(h[m].flags[v.row], h[n].flags[v.row]);
  }

  lemma AcceptedRow(cfg: Config, a: Db, c: int, account: int, f: string, now: int,
                    found: Option<Cid>, v: Verdict, b: Db)
    requires Sound(cfg, a) && IsRandom(cfg, c) && v.Accept? && LooksUp(cfg, a, c, account, f, now, found, v, b)
    ensures v.row in OwnedRows(a, c, f, OwnerOf(cfg, account))
  {
    LookupSound(cfg, a, c, account, f, now, found, v, b);
  }
}
