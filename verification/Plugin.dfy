/**
 The plugin's request handlers and jobs as they run one at a time: each changes the tables and
 the daemon step by step, and is specified by the ledger transactions it amounts to.
 */
module Plugin {
  import opened Options
  import opened Sets
  import opened Tables
  import opened Ledger
  import opened Health
  import Identity
  import Networks
  import Capabilities
  import Text

  datatype View = ChallengeUnknown | Running(port: string, expires: int) | NotStarted | Failed

  datatype Stop = NothingToStop | Stopped | DockerError

  datatype Renewal = NoChallenge | NoInstance | NoLongerRunning | LookupFailed | Extended(expires: int)

  datatype Creation = Unknown | Solved | Unavailable | AtCapacity | AlreadyRunning(port: string, expires: int)
                    | LaunchFailed | Created(port: string, expires: int) | LimitInvalid

  datatype Attempt = NoFlag | Incorrect | Correct | Crashed

  /** What a challenge's author asks for. */
  datatype Recipe = Recipe(image: string, capabilities: string)

  /** A running container: where it comes from, what it may do, and the flag in its environment. */
  datatype Container = Container(labels: Identity.Labels, network: string, image: string, capAdd: seq<string>,
                                 flag: string)

  /**
   What the outside world contributes to a launch: the challenge network that Docker reports (if
   any), whether the daemon, the image's contents and the volumes pass their checks, the container
   Docker starts (if it does), its health polls, its published port, the time, the random draws for
   a flag, and whether the container lingers because the failed launch's own kill raises, which the source swallows.
   */
  datatype Startup = Startup(network: Option<Networks.Network>, admitted: bool, cid: Option<Cid>, timeout: nat,
                             clock: nat -> real, polls: nat -> Poll, port: Option<string>, now: real,
                             draws: nat -> string, lingers: bool)

  function IntText(n: int): string { if n < 0 then "-" + Identity.Decimal(-n) else Identity.Decimal(n) }

  /** The rows of one account. */
  function AccountRows(db: Db, o: Owner): set<Cid> {
    set k | k in db.instances && db.instances[k].owner == o
  }

  /** Every lease lasts at least its full length from launch, and at most that from now. */
  predicate InLease(db: Db, lease: nat, now: real) {
    forall k :: k in db.instances ==>
      db.instances[k].timestamp + lease <= db.instances[k].expires <= now.Floor + lease
  }

  function Expired(db: Db, now: real): set<Cid> {
    set k | k in db.instances && db.instances[k].expires <= now.Floor
  }

  /** The selected ids that have a row. */
  function Chosen(selected: seq<Cid>, db: Db): set<Cid> { set k | k in selected && k in db.instances }

  function ActiveRows(db: Db, c: int, o: Owner): set<Cid> {
    set k | k in db.instances && Active(db, c, o, k)
  }

  /** After any history the first match is the only one. */
  lemma ActiveRowsAre(cfg: Config, h: seq<Db>, db: Db, c: int, o: Owner, found: Option<Cid>)
    requires Chronicle(cfg, h, db) && FindsActive(db, c, o, found)
    ensures ActiveRows(db, c, o) == if found.Some? then {found.value} else {}
  {
    ChronicleSound(cfg, h, db);
  }

  class Manager {
    const cfg: Config
    const identity: Identity.RuntimeIdentity
    const lease: nat
    /** The setting as a number; none if it is not one. */
    const maxContainers: Option<int>
    const recipes: int -> Recipe
    const json: string -> Capabilities.Json
    const allowlist: string
    var instances: map<Cid, Instance>
    var flags: map<nat, FlagRow>
    var nextFlag: nat
    var reports: seq<Report>
    /** The daemon's running containers. */
    var daemon: map<Cid, Container>
    /** The tables after each transaction so far. */
    ghost var history: seq<Db>
    /** The containers that this process has launched. */
    ghost var launched: set<Cid>

    constructor (cfg: Config, identity: Identity.RuntimeIdentity, lease: nat, maxContainers: Option<int>,
                 recipes: int -> Recipe, json: string -> Capabilities.Json, allowlist: string,
                 daemon: map<Cid, Container>)
      ensures this.cfg == cfg && this.identity == identity && this.lease == lease && this.maxContainers == maxContainers
      ensures this.recipes == recipes && this.json == json && this.allowlist == allowlist
      ensures Store() == EMPTY && this.daemon == daemon && launched == {} && Valid()
    {
      this.cfg, this.identity, this.lease, this.maxContainers := cfg, identity, lease, maxContainers;
      this.recipes, this.json, this.allowlist := recipes, json, allowlist;
      instances, flags, nextFlag, reports := map[], map[], 0, [];
      this.daemon := daemon;
      history, launched := [EMPTY], {};
    }

    function Store(): Db
      reads this
    {
      Db(instances, flags, nextFlag, reports)
    }

    /** On the process's own network, of an image under its prefix, with sorted capabilities from the allowlist. */
    predicate Permitted(ct: Container) {
      && identity.Owns(ct.labels) && identity.Lists(ct.labels)
      && ct.network == identity.network
      && Identity.Launchable(identity, ct.image)
      && Capabilities.StrictlySorted(ct.capAdd) && Capabilities.NoDuplicates(ct.capAdd)
      && (ct.capAdd != [] ==>
            && Capabilities.ParseCapabilities(json, allowlist).Ok?
            && Capabilities.AllAllowed(ct.capAdd, Capabilities.ParseCapabilities(json, allowlist).value))
    }

    /** Every container that this process has launched is permitted, and carries the flag it is recorded with. */
    ghost predicate LaunchesFit()
      reads this
    {
      Fits(launched, daemon, instances)
    }

    ghost predicate Fits(launched: set<Cid>, running: map<Cid, Container>, rows: map<Cid, Instance>) {
      forall k :: k in launched && k in running ==>
        Permitted(running[k]) && (k in rows ==> rows[k].flag == running[k].flag)
    }

    /** Containers and rows may go, and leases may change. */
    lemma FitsShrunk(launched: set<Cid>, running: map<Cid, Container>, rows: map<Cid, Instance>,
                     left: map<Cid, Container>, after: map<Cid, Instance>)
      requires Fits(launched, running, rows)
      requires forall k :: k in left ==> k in running && left[k] == running[k]
      requires forall k :: k in after ==> k in rows && after[k].flag == rows[k].flag
      ensures Fits(launched, left, after)
    {
    }

    /** One launch more, of a container that runs on if `stays`. */
    lemma FitsNext(launched: set<Cid>, running: map<Cid, Container>, rows: map<Cid, Instance>,
                   cid: Cid, ct: Container, stays: bool, after: map<Cid, Instance>)
      requires Fits(launched, running, rows) && Permitted(ct) && cid !in running
      requires forall k :: k in after && k != cid ==> k in rows && after[k].flag == rows[k].flag
      requires cid in after && stays ==> after[cid].flag == ct.flag
      ensures Fits(launched + {cid}, if stays then running[cid := ct] else running, after)
    {
    }

    /** The tables are what a history of launches, teardowns, renewals and submissions has made of them. */
    ghost predicate Valid()
      reads this
    {
      Chronicle(cfg, history, Store()) && LaunchesFit()
    }

    /** At some point of that history the account held an instance of the challenge that carried the flag. */
    ghost predicate WasIssued(c: int, account: int, f: string)
      reads this
      requires history != []
    {
      Issued(history, |history| - 1, c, OwnerOf(cfg, account), f)
    }

    /** The owned lookup succeeds: no error from Docker, and no labels of another event or target. */
    predicate Usable(running: map<Cid, Container>, cid: Cid, faults: set<Cid>) {
      cid !in faults && (cid in running ==> identity.Owns(running[cid].labels))
    }

    // ---- Cleaning up ----

    /** Delete an instance row; the foreign key takes every flag still attached to it along. */
    method DeleteInstance(cid: Cid)
      modifies this`instances, this`flags
      ensures instances == old(instances) - {cid}
      ensures flags == map id | id in old(flags) && old(flags)[id].container != Some(cid) :: old(flags)[id]
    {
      instances := instances - {cid};
      flags := map id | id in flags && flags[id].container != Some(cid) :: flags[id];
    }

    /** Static flags go with their instance; random flags are detached first, so the cascade spares them. */
    method CleanupContainerRecords(cid: Cid)
      requires cid in instances
      modifies this`instances, this`flags
      ensures Store() == Teardown(cfg, old(Store()), {cid})
    {
      var isStatic := IsStatic(cfg, instances[cid].challenge);
      var attached := set id | id in flags && flags[id].container == Some(cid);
      var todo := attached;
      while todo != {}
        invariant todo <= attached && instances == old(instances)
        invariant flags.Keys == if isStatic then old(flags).Keys - (attached - todo) else old(flags).Keys
        invariant forall id :: id in flags ==>
          flags[id] == if id in attached && id !in todo then old(flags)[id].(container := None) else old(flags)[id]
        decreases todo
      {
        var id :| id in todo;
        if isStatic {
          flags := flags - {id};
        } else {
          flags := flags[id := flags[id].(container := None)];
        }
        todo := todo - {id};
      }
      CleanupIsTeardown(cfg, old(Store()), cid, attached, flags);
      DeleteInstance(cid);
    }

    /** Stop a container and forget its records, unless the lookup or the kill raises. */
    method KillContainer(cid: Cid, faults: set<Cid>) returns (ok: bool)
      modifies this`instances, this`flags, this`daemon
      ensures ok == Usable(old(daemon), cid, faults)
      ensures Store() == if ok then Teardown(cfg, old(Store()), {cid}) else old(Store())
      ensures daemon == if ok then old(daemon) - {cid} else old(daemon)
    {
      if cid in faults {
        return false;
      }
      if cid in daemon {
        if !identity.Owns(daemon[cid].labels) {
          return false;
        }
        daemon := daemon - {cid};
      }
      if cid in instances {
        CleanupContainerRecords(cid);
      } else {
        TeardownNothing(cfg, Store(), {cid});
      }
      ok := true;
    }

    // ---- The expiry sweep and the purge ----

    /** What a loop that kills each of `targets` removes. */
    ghost function Removable(targets: set<Cid>, running: map<Cid, Container>, faults: set<Cid>): set<Cid> {
      set k | k in targets && Usable(running, k, faults)
    }

    /** Where a loop stands after it has tried to kill each of `tried`, starting from `db` and `running`. */
    ghost predicate Removed(tried: set<Cid>, faults: set<Cid>, db: Db, running: map<Cid, Container>)
      reads this
    {
      && Store() == Teardown(cfg, db, Removable(tried, running, faults))
      && daemon == running - Removable(tried, running, faults)
    }

    lemma RemovableNext(tried: set<Cid>, cid: Cid, running: map<Cid, Container>, faults: set<Cid>)
      ensures Usable(running - Removable(tried, running, faults), cid, faults) == Usable(running, cid, faults)
      ensures Removable(tried + {cid}, running, faults)
           == Removable(tried, running, faults) + if Usable(running, cid, faults) then {cid} else {}
    {
    }

    /** One more kill of such a loop. */
    method KillNext(cid: Cid, faults: set<Cid>, ghost tried: set<Cid>, ghost db: Db,
                    ghost running: map<Cid, Container>)
      returns (ok: bool)
      requires Removed(tried, faults, db, running)
      modifies this`instances, this`flags, this`daemon
      ensures Removed(tried + {cid}, faults, db, running) && ok == Usable(running, cid, faults)
    {
      ghost var gone := Removable(tried, running, faults);
      RemovableNext(tried, cid, running, faults);
      ok := KillContainer(cid, faults);
      if ok {
        TeardownCompose(cfg, db, gone, {cid});
      }
    }

    /** The sweep's loop over the rows that have expired by `now`. */
    method CleanupExpired(now: real, faults: set<Cid>)
      modifies this`instances, this`flags, this`daemon
      ensures Removed(Expired(old(Store()), now), faults, old(Store()), old(daemon))
    {
      var expired := set k | k in instances && instances[k].expires <= now.Floor;
      var todo := expired;
      TeardownNothing(cfg, Store(), {});
      assert Removable({}, daemon, faults) == {};
      while todo != {}
        invariant todo <= expired
        invariant Removed(expired - todo, faults, old(Store()), old(daemon))
        decreases todo
      {
        var cid :| cid in todo;
        assert expired - (todo - {cid}) == expired - todo + {cid};
        var _ := KillNext(cid, faults, expired - todo, old(Store()), old(daemon));
        todo := todo - {cid};
      }
      assert expired - todo == expired;
    }

    /**
     The table loses exactly the expired rows whose kill succeeded; unexpired rows, and rows whose
     kill raised, are untouched.
     */
    method KillExpiredContainers(now: real, faults: set<Cid>)
      requires Valid()
      modifies this`instances, this`flags, this`daemon, this`history
      ensures Valid() && old(history) <= history
      ensures var gone := Removable(Expired(old(Store()), now), old(daemon), faults);
        Store() == Teardown(cfg, old(Store()), gone) && daemon == old(daemon) - gone
      ensures forall k :: k in old(instances) ==>
        (k in instances <==>
           || old(instances)[k].expires > now.Floor || k in faults
           || (k in old(daemon) && !identity.Owns(old(daemon)[k].labels)))
    {
      ghost var before, gone := Store(), Removable(Expired(Store(), now), daemon, faults);
      CleanupExpired(now, faults);
      ChronicleGrows(cfg, history, before, Forget(gone), Store());
      history := history + [Store()];
    }

    lemma ChosenNext(selected: seq<Cid>, i: nat, db: Db)
      requires i < |selected|
      ensures Chosen(selected[..i + 1], db) == Considered(Chosen(selected[..i], db), selected[i], db)
    {
      assert selected[..i + 1] == selected[..i] + [selected[i]];
    }

    /** What the purge has tried once it has come to `cid`. */
    ghost function Considered(tried: set<Cid>, cid: Cid, db: Db): set<Cid> {
      if cid in db.instances then tried + {cid} else tried
    }

    /** A killed row counts once; a row that is gone, or that cannot be killed, does not. */
    lemma CountNext(tried: set<Cid>, cid: Cid, db: Db, running: map<Cid, Container>, faults: set<Cid>)
      ensures var before := Removable(tried, running, faults);
        var after := Removable(Considered(tried, cid, db), running, faults);
        if cid in db.instances - before && Usable(running, cid, faults) then
          after == before + {cid} && |after| == |before| + 1
        else after == before
    {
      RemovableNext(tried, cid, running, faults);
    }

    /** One row of the purge: skipped if it is gone already, else killed. */
    method PurgeNext(cid: Cid, faults: set<Cid>, ghost tried: set<Cid>, ghost db: Db,
                     ghost running: map<Cid, Container>)
      returns (ok: bool)
      requires Removed(tried, faults, db, running)
      modifies this`instances, this`flags, this`daemon
      ensures Removed(Considered(tried, cid, db), faults, db, running)
      ensures |Removable(Considered(tried, cid, db), running, faults)|
           == |Removable(tried, running, faults)| + if ok then 1 else 0
    {
      CountNext(tried, cid, db, running, faults);
      assert instances == db.instances - Removable(tried, running, faults);
      if cid !in instances {
        return false;
      }
      ok := KillNext(cid, faults, tried, db, running);
    }

    /** The loop over the selected ids; a container counts once, when its kill succeeds. */
    method PurgeEach(selected: seq<Cid>, faults: set<Cid>) returns (deleted: nat)
      modifies this`instances, this`flags, this`daemon
      ensures Removed(Chosen(selected, old(Store())), faults, old(Store()), old(daemon))
      ensures deleted == |Removable(Chosen(selected, old(Store())), old(daemon), faults)|
    {
      deleted := 0;
      TeardownNothing(cfg, Store(), {});
      assert Removable({}, daemon, faults) == {};
      for i := 0 to |selected|
        invariant Removed(Chosen(selected[..i], old(Store())), faults, old(Store()), old(daemon))
        invariant deleted == |Removable(Chosen(selected[..i], old(Store())), old(daemon), faults)|
      {
        ChosenNext(selected, i, old(Store()));
        var ok := PurgeNext(selected[i], faults, Chosen(selected[..i], old(Store())), old(Store()), old(daemon));
        if ok {
          deleted := deleted + 1;
        }
      }
      assert selected[..|selected|] == selected;
    }

    /** Purging removes exactly the selected rows that can be killed, and reports how many. */
    method RoutePurgeContainers(selected: seq<Cid>, faults: set<Cid>) returns (deleted: nat)
      requires Valid()
      modifies this`instances, this`flags, this`daemon, this`history
      ensures Valid() && old(history) <= history
      ensures var gone := Removable(Chosen(selected, old(Store())), old(daemon), faults);
        && Store() == Teardown(cfg, old(Store()), gone) && daemon == old(daemon) - gone
        && deleted == |gone|
    {
      ghost var before, gone := Store(), Removable(Chosen(selected, Store()), daemon, faults);
      deleted := PurgeEach(selected, faults);
      ChronicleGrows(cfg, history, before, Forget(gone), Store());
      history := history + [Store()];
    }

    // ---- Looking at one account ----

    /** `None` if the lookup raises. */
    method IsContainerRunning(cid: Cid, faults: set<Cid>) returns (running: Option<bool>)
      ensures running == if Usable(daemon, cid, faults) then Some(cid in daemon) else None
    {
      if cid in faults {
        return None;
      }
      if cid !in daemon {
        return Some(false);
      }
      running := if identity.Owns(daemon[cid].labels) then Some(true) else None;
    }

    /**
     The account's running containers, after its stopped ones have been forgotten; if a lookup
     raises, the session's pending deletes are never committed.
     */
    method PruneStaleAccountContainers(o: Owner, faults: set<Cid>) returns (active: Option<set<Cid>>)
      modifies this`instances, this`flags
      ensures var rows := AccountRows(old(Store()), o);
        if exists k :: k in rows && !Usable(daemon, k, faults) then active.None? && Store() == old(Store())
        else active == Some(rows * daemon.Keys) && Store() == Teardown(cfg, old(Store()), rows - daemon.Keys)
    {
      var rows := set k | k in instances && instances[k].owner == o;
      var savedInstances, savedFlags := instances, flags;
      var todo, found := rows, {};
      ghost var stale := {};
      TeardownNothing(cfg, Store(), {});
      while todo != {}
        invariant todo <= rows && nextFlag == old(nextFlag) && reports == old(reports)
        invariant found == (rows - todo) * daemon.Keys && stale == (rows - todo) - daemon.Keys
        invariant forall k :: k in rows - todo ==> Usable(daemon, k, faults)
        invariant Store() == Teardown(cfg, old(Store()), stale)
        decreases todo
      {
        var cid :| cid in todo;
        var running := IsContainerRunning(cid, faults);
        if running.None? {
          instances, flags := savedInstances, savedFlags;
          return None;
        }
        if running.value {
          found := found + {cid};
        } else {
          TeardownCompose(cfg, old(Store()), stale, {cid});
          CleanupContainerRecords(cid);
          stale := stale + {cid};
        }
        todo := todo - {cid};
      }
      assert rows - todo == rows;
      active := Some(found);
    }

    /** The account's instance of a challenge, if any. */
    method FindActiveContainer(c: int, o: Owner) returns (found: Option<Cid>)
      ensures FindsActive(Store(), c, o, found)
    {
      var hits := set k | k in instances && instances[k].challenge == c && instances[k].owner == o;
      if hits == {} {
        forall cid ensures !Active(Store(), c, o, cid) {
          assert cid !in hits;
        }
        found := None;
      } else {
        var cid :| cid in hits;
        found := Some(cid);
      }
    }

    method ViewContainerInfo(c: int, account: int, faults: set<Cid>) returns (view: View)
      requires Valid()
      modifies this`instances, this`flags, this`history
      ensures Valid() && old(history) <= history
      ensures view.ChallengeUnknown? <==> c !in cfg.challenges
      ensures !view.NotStarted? ==> Store() == old(Store())
      ensures view.Failed? ==> exists k ::
        k in ActiveRows(old(Store()), c, OwnerOf(cfg, account)) && !Usable(daemon, k, faults)
      ensures view.Running? ==> exists k ::
        && k in ActiveRows(Store(), c, OwnerOf(cfg, account)) && k in daemon && Usable(daemon, k, faults)
        && view == Running(instances[k].port, instances[k].expires)
      ensures view.NotStarted? ==>
        var stopped := ActiveRows(old(Store()), c, OwnerOf(cfg, account));
        && (forall k :: k in stopped ==> k !in daemon && Usable(daemon, k, faults))
        && Store() == Teardown(cfg, old(Store()), stopped)
    {
      if c !in cfg.challenges {
        return ChallengeUnknown;
      }
      var found := FindActiveContainer(c, OwnerOf(cfg, account));
      ActiveRowsAre(cfg, history, Store(), c, OwnerOf(cfg, account), found);
      if found.None? {
        TeardownNothing(cfg, Store(), {});
        return NotStarted;
      }
      var cid := found.value;
      var running := IsContainerRunning(cid, faults);
      if running.None? {
        return Failed;
      }
      if running.value {
        return Running(instances[cid].port, instances[cid].expires);
      }
      ghost var before := Store();
      CleanupContainerRecords(cid);
      ChronicleGrows(cfg, history, before, Forget({cid}), Store());
      history := history + [Store()];
      view := NotStarted;
    }

    // ---- Stopping ----

    /** Kill by id, for a container that has a row. */
    method KillRecorded(cid: Cid, faults: set<Cid>) returns (r: Stop)
      modifies this`instances, this`flags, this`daemon
      ensures r == if cid !in old(instances) then NothingToStop
                   else if Usable(old(daemon), cid, faults) then Stopped else DockerError
      ensures Store() == if r.Stopped? then Teardown(cfg, old(Store()), {cid}) else old(Store())
      ensures daemon == if r.Stopped? then old(daemon) - {cid} else old(daemon)
    {
      if cid !in instances {
        return NothingToStop;
      }
      var ok := KillContainer(cid, faults);
      r := if ok then Stopped else DockerError;
    }

    /** The account's instance of the challenge is gone afterwards, or nothing has changed. */
    method RouteStopContainer(c: int, account: int, faults: set<Cid>) returns (r: Stop)
      requires Valid()
      modifies this`instances, this`flags, this`daemon, this`history
      ensures Valid() && old(history) <= history
      ensures var targets := ActiveRows(old(Store()), c, OwnerOf(cfg, account));
        && (r.NothingToStop? <==> targets == {})
        && (r.Stopped? <==> targets != {} && forall k :: k in targets ==> Usable(old(daemon), k, faults))
        && Store() == (if r.Stopped? then Teardown(cfg, old(Store()), targets) else old(Store()))
        && daemon == if r.Stopped? then old(daemon) - targets else old(daemon)
    {
      var found := FindActiveContainer(c, OwnerOf(cfg, account));
      ActiveRowsAre(cfg, history, Store(), c, OwnerOf(cfg, account), found);
      if found.None? {
        return NothingToStop;
      }
      ghost var before := Store();
      r := KillRecorded(found.value, faults);
      if r.Stopped? {
        ChronicleGrows(cfg, history, before, Forget({found.value}), Store());
        history := history + [Store()];
      }
    }

    // ---- Renewing ----

    /**
     What a renewal answers, and what it does to the instance it finds.  Read as one step, it keeps
     every lease within its bounds and shortens none.
     */
    method RenewContainer(c: int, account: int, now: real, faults: set<Cid>)
      returns (r: Renewal, ghost target: Option<Cid>)
      modifies this`instances, this`flags
      ensures r.NoChallenge? <==> c !in cfg.challenges
      ensures !r.NoChallenge? ==> FindsActive(old(Store()), c, OwnerOf(cfg, account), target)
      ensures r.NoInstance? <==> c in cfg.challenges && target.None?
      ensures r.LookupFailed? <==> c in cfg.challenges && target.Some? && !Usable(daemon, target.value, faults)
      ensures r.Extended? ==>
        && target.value in daemon && r.expires == now.Floor + lease
        && Store() == Renewed(old(Store()), target.value, r.expires)
      ensures r.NoLongerRunning? ==> target.value !in daemon && Store() == Teardown(cfg, old(Store()), {target.value})
      ensures r.NoChallenge? || r.NoInstance? || r.LookupFailed? ==> Store() == old(Store())
      ensures Renews(cfg, old(Store()), Store(), target, now.Floor + lease)
      ensures InLease(old(Store()), lease, now) ==> InLease(Store(), lease, now) && NotShortened(old(Store()), Store())
    {
      target := None;
      if c !in cfg.challenges {
        r := NoChallenge;
        return;
      }
      var found := FindActiveContainer(c, OwnerOf(cfg, account));
      target := found;
      if found.None? {
        r := NoInstance;
        return;
      }
      var cid := found.value;
      var running := IsContainerRunning(cid, faults);
      if running.None? {
        r := LookupFailed;
      } else if !running.value {
        CleanupContainerRecords(cid);
        r := NoLongerRunning;
      } else {
        var expires := (now + lease as real).Floor;
        instances := instances[cid := instances[cid].(expires := expires)];
        r := Extended(expires);
      }
      if InLease(old(Store()), lease, now) {
        RenewalInLease(cfg, old(Store()), Store(), target, lease, now);
      }
    }

    /** The route: a renewal is a transaction of the history. */
    method RouteRenewContainer(c: int, account: int, now: real, faults: set<Cid>) returns (r: Renewal)
      requires Valid()
      modifies this`instances, this`flags, this`history
      ensures Valid() && old(history) <= history
      ensures InLease(old(Store()), lease, now) ==>
        InLease(Store(), lease, now) && NotShortened(old(Store()), Store())
    {
      ghost var target, before := None, Store();
      r, target := RenewContainer(c, account, now, faults);
      ghost var op := RenewalOp(cfg, before, Store(), target, now.Floor + lease);
      assert LaunchesFit() by {
        RenewalKeepsFlags(cfg, before, Store(), target, now.Floor + lease);
        FitsShrunk(launched, daemon, before.instances, daemon, instances);
      }
      ChronicleGrows(cfg, history, before, op, Store());
      history := history + [Store()];
    }

    // ---- Launching ----

    /** One of the ten draws is not in the challenge's flag table yet. */
    ghost predicate Drawable(db: Db, c: int, draws: nat -> string) {
      exists k: nat :: k < 10 && MatchingRows(db, c, draws(k)) == {}
    }

    /** The first of ten draws that the challenge's flag table does not contain yet. */
    method GenerateUniqueRandomFlag(c: int, draws: nat -> string) returns (flag: Option<string>)
      ensures flag.Some? ==>
        MatchingRows(Store(), c, flag.value) == {} && exists k: nat :: k < 10 && flag.value == draws(k)
      ensures flag.Some? <==> Drawable(Store(), c, draws)
    {
      for k := 0 to 10
        invariant forall j: nat :: j < k ==> MatchingRows(Store(), c, draws(j)) != {}
      {
        var candidate := draws(k);
        if MatchingRows(Store(), c, candidate) == {} {
          return Some(candidate);
        }
      }
      flag := None;
    }

    /** The flag put into the container's environment. */
    method LaunchFlag(c: int, draws: nat -> string) returns (flag: Option<string>)
      requires c in cfg.challenges
      ensures IsStatic(cfg, c) ==> flag == Some(ExpectedStaticFlag(cfg.challenges[c]))
      ensures IsStatic(cfg, c) ==> Spells(flag.value, cfg.challenges[c])
      ensures IsRandom(cfg, c) ==> (flag.Some? <==> Drawable(Store(), c, draws))
      ensures IsRandom(cfg, c) && flag.Some? ==> MatchingRows(Store(), c, flag.value) == {}
    {
      var ch := cfg.challenges[c];
      if ch.mode.Random? {
        flag := GenerateUniqueRandomFlag(c, draws);
      } else if ch.content.Some? {
        flag := Some(ch.prefix + ch.content.value + ch.suffix);
      } else {
        flag := Some(ch.prefix + ch.suffix);
        assert ch.prefix + "" == ch.prefix;
      }
      ExpectedSpelled(ch, ExpectedStaticFlag(ch));
    }

    /** The checks before a launch, with the flag drawn between those of the image and the capabilities. */
    method Prepare(c: int, up: Startup) returns (flag: Option<string>)
      requires c in cfg.challenges
      ensures flag.Some? <==> Prepared(c, up) && (IsRandom(cfg, c) ==> Drawable(Store(), c, up.draws))
      ensures IsStatic(cfg, c) && flag.Some? ==> flag == Some(ExpectedStaticFlag(cfg.challenges[c]))
      ensures IsRandom(cfg, c) && flag.Some? ==> MatchingRows(Store(), c, flag.value) == {}
    {
      if up.network.None? || Networks.Refusal(up.network.value, identity).Some? {
        return None;
      }
      if !up.admitted || Identity.ValidateImageReference(recipes(c).image, identity).Err? {
        return None;
      }
      flag := LaunchFlag(c, up.draws);
      if Capabilities.LaunchCapabilities(json, recipes(c).capabilities, allowlist).Err? {
        flag := None;
      }
    }

    /** A launch gets as far as a container: there is a flag for it, and Docker starts it. */
    ghost predicate Starts(db: Db, c: int, up: Startup) {
      Prepared(c, up) && (IsRandom(cfg, c) ==> Drawable(db, c, up.draws)) && up.cid.Some?
    }

    /** The challenge's image and capabilities pass their checks. */
    predicate Cleared(c: int) {
      && Identity.ValidateImageReference(recipes(c).image, identity).Ok?
      && Capabilities.LaunchCapabilities(json, recipes(c).capabilities, allowlist).Ok?
    }

    /** All checks before the container is started. */
    predicate Prepared(c: int, up: Startup) {
      && up.network.Some? && Networks.Refusal(up.network.value, identity).None?
      && up.admitted && Cleared(c)
    }

    /** What has to go right for a launch to be recorded. */
    ghost predicate LaunchSucceeds(db: Db, c: int, account: int, up: Startup)
      requires Sleeps(up.clock)
    {
      && Starts(db, c, up)
      && HealthySeen(up.timeout, up.clock, up.polls) && up.port.Some?
      && !Conflicts(db, up.cid.value, c, OwnerOf(cfg, account))
    }

    /** Insert the instance and its flag and commit, unless a unique constraint is violated. */
    method CommitLaunch(cid: Cid, inst: Instance) returns (ok: bool)
      modifies this`instances, this`flags, this`nextFlag
      ensures ok == !Conflicts(old(Store()), cid, inst.challenge, inst.owner)
      ensures Store() == if ok then Launch(old(Store()), cid, inst) else old(Store())
    {
      ok := !Conflicts(Store(), cid, inst.challenge, inst.owner);
      if ok {
        instances := instances[cid := inst];
        flags := flags[nextFlag := FlagRow(inst.challenge, Some(cid), inst.flag, inst.owner, false)];
        nextFlag := nextFlag + 1;
      }
    }

    /** The labels of a launch; the process's own ownership check and listing filter accept them. */
    function LabelsFor(c: int, account: int): (labels: Identity.Labels)
      ensures identity.Owns(labels) && identity.Lists(labels)
    {
      var scope := if cfg.teams then "team" else "user";
      Identity.OwnershipIsEventAndTarget(identity, identity, IntText(c), scope, IntText(account));
      identity.LaunchLabels(IntText(c), scope, IntText(account))
    }

    /** The container that a launch starts. */
    function ContainerFor(c: int, account: int, flag: string): (ct: Container)
      requires Cleared(c)
      ensures Permitted(ct) && ct.flag == flag
    {
      var image := Identity.ValidateImageReference(recipes(c).image, identity).value;
      var capabilities := Capabilities.LaunchCapabilities(json, recipes(c).capabilities, allowlist).value;
      Identity.ImageAccepted(recipes(c).image, identity);
      if capabilities.Some? then
        Capabilities.LaunchedCapabilitiesAllowed(json, recipes(c).capabilities, allowlist);
        Container(LabelsFor(c, account), identity.network, image, capabilities.value, flag)
      else
        Container(LabelsFor(c, account), identity.network, image, [], flag)
    }

    /** Which image, which capabilities and which labels that is. */
    lemma ContainerIsAsked(c: int, account: int, flag: string)
      requires Cleared(c)
      ensures var ct := ContainerFor(c, account, flag);
        && ct.image == Text.Trim(recipes(c).image) && ct.labels == LabelsFor(c, account)
        && (Text.Trim(recipes(c).capabilities) == "" ==> ct.capAdd == [])
        && (Text.Trim(recipes(c).capabilities) != "" ==>
              && Capabilities.ParseCapabilities(json, recipes(c).capabilities).Ok?
              && forall x :: x in ct.capAdd <==>
                   x in Capabilities.ParseCapabilities(json, recipes(c).capabilities).value)
    {
      Identity.ImageAccepted(recipes(c).image, identity);
      Capabilities.LaunchAllowedExactly(json, recipes(c).capabilities, allowlist);
      if Text.Trim(recipes(c).capabilities) != "" {
        Capabilities.LaunchedCapabilitiesAllowed(json, recipes(c).capabilities, allowlist);
      }
    }

    /** The labels name the challenge and the account. */
    lemma LabelsSay(c: int, account: int)
      ensures ("ctfd.challenge_id", IntText(c)) in LabelsFor(c, account).Items
      ensures ("ctfd.scope", if cfg.teams then "team" else "user") in LabelsFor(c, account).Items
      ensures ("ctfd.scope_id", IntText(account)) in LabelsFor(c, account).Items
    {
      Identity.LaunchLabelsSay(identity, IntText(c), if cfg.teams then "team" else "user", IntText(account));
    }

    /** The row a healthy container is recorded with. */
    function RowFor(c: int, account: int, port: string, flag: string, now: real): Instance {
      Instance(c, OwnerOf(cfg, account), port, flag, now.Floor, now.Floor + lease)
    }

    /** Wait for the started container, and record it if it is healthy and has a port. */
    method AwaitAndRecord(cid: Cid, c: int, account: int, flag: string, up: Startup) returns (ok: bool)
      requires Sleeps(up.clock)
      modifies this`instances, this`flags, this`nextFlag
      ensures ok <==>
        && HealthySeen(up.timeout, up.clock, up.polls) && up.port.Some?
        && !Conflicts(old(Store()), cid, c, OwnerOf(cfg, account))
      ensures Store() == if !ok then old(Store()) else
        Launch(old(Store()), cid, RowFor(c, account, up.port.value, flag, up.now))
    {
      var outcome, looked := WaitUntilHealthy(up.timeout, up.clock, up.polls);
      ok := false;
      if outcome.Healthy? && up.port.Some? {
        ok := CommitLaunch(cid, RowFor(c, account, up.port.value, flag, up.now));
      }
    }

    /**
     Start a container and record it once it is healthy.  Every failure leaves the tables as they
     were, and the daemon too unless the container lingers: the branch that has a container kills it.
     */
    method LaunchContainer(c: int, account: int, up: Startup) returns (flag: Option<string>, ok: bool)
      requires c in cfg.challenges && Sleeps(up.clock)
      requires up.cid.Some? ==> up.cid.value !in daemon
      modifies this`instances, this`flags, this`nextFlag, this`daemon, this`launched
      ensures ok || Starts(old(Store()), c, up) ==> flag.Some? && up.cid.Some? && Cleared(c)
      ensures IsStatic(cfg, c) && flag.Some? ==> flag == Some(ExpectedStaticFlag(cfg.challenges[c]))
      ensures IsRandom(cfg, c) && flag.Some? ==> MatchingRows(old(Store()), c, flag.value) == {}
      ensures ok <==> LaunchSucceeds(old(Store()), c, account, up)
      ensures Store() == if !ok then old(Store()) else
        Launch(old(Store()), up.cid.value, RowFor(c, account, up.port.value, flag.value, up.now))
      ensures
        if Starts(old(Store()), c, up)
        then Started(old(daemon), old(launched), daemon, launched, c, account, up, flag, ok || up.lingers)
        else daemon == old(daemon) && launched == old(launched)
    {
      flag := Prepare(c, up);
      ok := false;
      if flag.None? || up.cid.None? {
        return;
      }
      var cid := up.cid.value;
      ghost var before := daemon;
      var container := ContainerFor(c, account, flag.value);
      daemon := daemon[cid := container];
      launched := launched + {cid};
      ok := AwaitAndRecord(cid, c, account, flag.value, up);
      if !ok && !up.lingers {
        daemon := daemon - {cid};
        AddedAndRemoved(before, cid, container);
      }
    }

    /** The tables once the account's stopped containers are forgotten, and those still running. */
    function Pruned(db: Db, o: Owner, running: map<Cid, Container>): Db {
      Teardown(cfg, db, AccountRows(db, o) - running.Keys)
    }

    function StillRunning(db: Db, o: Owner, running: map<Cid, Container>): set<Cid> {
      AccountRows(db, o) * running.Keys
    }

    /** Docker raises for one of the account's containers. */
    ghost predicate Blocked(db: Db, o: Owner, running: map<Cid, Container>, faults: set<Cid>) {
      exists k :: k in AccountRows(db, o) && !Usable(running, k, faults)
    }

    /** One of the account's running containers is of this challenge. */
    ghost predicate Serves(db: Db, active: set<Cid>, c: int) {
      exists k :: k in active && k in db.instances && db.instances[k].challenge == c
    }

    ghost predicate Reused(db: Db, active: set<Cid>, c: int, r: Creation) {
      exists k :: Reuses(db, active, k, c, r)
    }

    /**
     Forget stopped containers, then check the limit, then look for an instance of the same
     challenge; no answer means that one may be launched.
     */
    method CheckAccount(c: int, o: Owner, limit: int, faults: set<Cid>) returns (refusal: Option<Creation>)
      modifies this`instances, this`flags
      ensures var active := StillRunning(old(Store()), o, daemon);
        if Blocked(old(Store()), o, daemon, faults) then refusal == Some(Unavailable) && Store() == old(Store())
        else
          && Store() == Pruned(old(Store()), o, daemon)
          && if |active| >= limit then refusal == Some(AtCapacity)
             else if Serves(Store(), active, c) then refusal.Some? && Reused(Store(), active, c, refusal.value)
             else refusal.None?
    {
      var pruned := PruneStaleAccountContainers(o, faults);
      if pruned.None? {
        return Some(Unavailable);
      }
      refusal := CheckActive(c, limit, pruned.value);
    }

    /** The limit first, then an instance of the same challenge. */
    method CheckActive(c: int, limit: int, active: set<Cid>) returns (refusal: Option<Creation>)
      ensures
        if |active| >= limit then refusal == Some(AtCapacity)
        else if Serves(Store(), active, c) then refusal.Some? && Reused(Store(), active, c, refusal.value)
        else refusal.None?
    {
      if |active| >= limit {
        return Some(AtCapacity);
      }
      var same := set k | k in active && k in instances && instances[k].challenge == c;
      if same != {} {
        var k :| k in same;
        refusal := Some(AlreadyRunning(instances[k].port, instances[k].expires));
        assert Reuses(Store(), active, k, c, refusal.value);
        return;
      }
      assert forall k :: k in active && k in instances && instances[k].challenge == c ==> k in same;
      refusal := None;
    }

    /** A container with the flag has been launched; it runs on if `stays`. */
    ghost predicate Started(before: map<Cid, Container>, earlier: set<Cid>, after: map<Cid, Container>, later: set<Cid>,
                            c: int, account: int, up: Startup, flag: Option<string>, stays: bool)
    {
      && up.cid.Some? && flag.Some? && Cleared(c)
      && after == (if stays then before[up.cid.value := ContainerFor(c, account, flag.value)] else before)
      && later == earlier + {up.cid.value}
    }

    /** What a create request that answers `r` does to the daemon, given the pruned tables. */
    ghost predicate Leaves(before: map<Cid, Container>, earlier: set<Cid>, after: map<Cid, Container>, later: set<Cid>,
                           pruned: Db, c: int, account: int, up: Startup, flag: Option<string>, r: Creation)
    {
      if r.Created? then Started(before, earlier, after, later, c, account, up, flag, true)
      else if r.LaunchFailed? && Starts(pruned, c, up) then
        Started(before, earlier, after, later, c, account, up, flag, up.lingers)
      else after == before && later == earlier
    }

    /** The answer to a create request, in the order of its checks, and the tables `b` that it makes of `a`. */
    ghost predicate Creates(a: Db, b: Db, running: map<Cid, Container>, c: int, account: int, solved: bool,
                            faults: set<Cid>, up: Startup, r: Creation)
      requires Sleeps(up.clock)
    {
      var o := OwnerOf(cfg, account);
      var active, pruned := StillRunning(a, o, running), Pruned(a, o, running);
      if c !in cfg.challenges then r.Unknown? && b == a
      else if solved then r.Solved? && b == a
      else if maxContainers.None? then r.LimitInvalid? && b == a
      else if Blocked(a, o, running, faults) then r.Unavailable? && b == a
      else if |active| >= maxContainers.value then r.AtCapacity? && b == pruned
      else if Serves(pruned, active, c) then Reused(pruned, active, c, r) && b == pruned
      else if !LaunchSucceeds(pruned, c, account, up) then r.LaunchFailed? && b == pruned
      else
        && r.Created? && up.cid.value in b.instances
        && b == Launch(pruned, up.cid.value, b.instances[up.cid.value])
        && Recorded(pruned, c, account, up, b.instances[up.cid.value])
        && r == Created(b.instances[up.cid.value].port, b.instances[up.cid.value].expires)
    }

    /** The create request: which answer it gives, and what it does to tables and daemon. */
    method CreateContainer(c: int, account: int, solved: bool, faults: set<Cid>, up: Startup)
      returns (r: Creation, ghost flag: Option<string>)
      requires Sleeps(up.clock) && (up.cid.Some? ==> up.cid.value !in daemon)
      modifies this`instances, this`flags, this`nextFlag, this`daemon, this`launched
      ensures Creates(old(Store()), Store(), old(daemon), c, account, solved, faults, up, r)
      ensures Leaves(old(daemon), old(launched), daemon, launched,
                     Pruned(old(Store()), OwnerOf(cfg, account), old(daemon)), c, account, up, flag, r)
      ensures r.Created? ==> up.cid.Some? && up.cid.value in instances && flag == Some(instances[up.cid.value].flag)
    {
      flag := None;
      if c !in cfg.challenges {
        r := Unknown;
        return;
      }
      if solved {
        r := Solved;
        return;
      }
      if maxContainers.None? {
        r := LimitInvalid;
        return;
      }
      var refusal := CheckAccount(c, OwnerOf(cfg, account), maxContainers.value, faults);
      if refusal.Some? {
        r := refusal.value;
        return;
      }
      var drawn, ok := LaunchContainer(c, account, up);
      flag := drawn;
      r := if ok then Created(up.port.value, instances[up.cid.value].expires) else LaunchFailed;
    }

    /** A row that a launch may insert into `db`: it fits the challenge, and nothing is in its way. */
    ghost predicate Recorded(db: Db, c: int, account: int, up: Startup, inst: Instance)
      requires c in cfg.challenges && up.cid.Some?
    {
      && up.port.Some? && inst == RowFor(c, account, up.port.value, inst.flag, up.now)
      && (IsStatic(cfg, c) ==> inst.flag == ExpectedStaticFlag(cfg.challenges[c]))
      && (IsRandom(cfg, c) ==> MatchingRows(db, c, inst.flag) == {})
      && !Conflicts(db, up.cid.value, c, OwnerOf(cfg, account))
    }

    lemma CreatesKeepsFlags(a: Db, b: Db, running: map<Cid, Container>, c: int, account: int, solved: bool,
                            faults: set<Cid>, up: Startup, r: Creation)
      requires Sleeps(up.clock) && Creates(a, b, running, c, account, solved, faults, up, r)
      ensures forall k :: k in b.instances && !(r.Created? && up.cid == Some(k)) ==>
        k in a.instances && b.instances[k].flag == a.instances[k].flag
    {
    }

    /** Whatever it answers, the containers that this process has launched are still permitted ones. */
    method CreateFitting(c: int, account: int, solved: bool, faults: set<Cid>, up: Startup) returns (r: Creation)
      requires LaunchesFit() && Sleeps(up.clock)
      requires up.cid.Some? ==> up.cid.value !in daemon && up.cid.value !in instances
      modifies this`instances, this`flags, this`nextFlag, this`daemon, this`launched
      ensures LaunchesFit()
      ensures Creates(old(Store()), Store(), old(daemon), c, account, solved, faults, up, r)
    {
      ghost var a, rows, running, earlier, flag := Store(), instances, daemon, launched, None;
      r, flag := CreateContainer(c, account, solved, faults, up);
      CreatesKeepsFlags(a, Store(), running, c, account, solved, faults, up, r);
      LeavesFit(running, earlier, daemon, launched, Pruned(a, OwnerOf(cfg, account), running), c, account, up, flag, r,
                rows, instances);
    }

    lemma LeavesFit(before: map<Cid, Container>, earlier: set<Cid>, after: map<Cid, Container>, later: set<Cid>,
                    pruned: Db, c: int, account: int, up: Startup, flag: Option<string>, r: Creation,
                    rows: map<Cid, Instance>, left: map<Cid, Instance>)
      requires Fits(earlier, before, rows)
      requires up.cid.Some? ==> up.cid.value !in before && up.cid.value !in rows
      requires forall k :: k in left && !(r.Created? && up.cid == Some(k)) ==> k in rows && left[k].flag == rows[k].flag
      requires r.Created? && up.cid.Some? && up.cid.value in left ==> flag == Some(left[up.cid.value].flag)
      ensures Leaves(before, earlier, after, later, pruned, c, account, up, flag, r) ==> Fits(later, after, left)
    {
      if !Leaves(before, earlier, after, later, pruned, c, account, up, flag, r) {
        return;
      }
      if r.Created? || (r.LaunchFailed? && Starts(pruned, c, up)) {
        FitsNext(earlier, before, rows, up.cid.value, ContainerFor(c, account, flag.value),
                 r.Created? || up.lingers, left);
      } else {
        FitsShrunk(earlier, before, rows, after, left);
      }
    }

    /** The route: what it creates has been issued to the account and never exceeds the limit. */
    method RouteRequestContainer(c: int, account: int, solved: bool, faults: set<Cid>, up: Startup)
      returns (r: Creation)
      requires Valid() && Sleeps(up.clock) && (up.cid.Some? ==> up.cid.value !in daemon && up.cid.value !in instances)
      modifies this`instances, this`flags, this`nextFlag, this`daemon, this`history, this`launched
      ensures Valid() && old(history) <= history
      ensures r.Created? ==>
        && maxContainers.Some? && |AccountRows(Store(), OwnerOf(cfg, account))| <= maxContainers.value
        && up.cid.Some? && up.cid.value in instances && WasIssued(c, account, instances[up.cid.value].flag)
        && up.port.Some? && r == Created(up.port.value, up.now.Floor + lease)
        && instances[up.cid.value].timestamp == up.now.Floor
        && instances[up.cid.value].port == r.port && instances[up.cid.value].expires == r.expires
      ensures InLease(old(Store()), lease, up.now) ==> InLease(Store(), lease, up.now)
      ensures r.AtCapacity? ==>
        var own := set k | k in old(instances) && old(instances)[k].owner == OwnerOf(cfg, account) && k in old(daemon);
        maxContainers.Some? && |own| >= maxContainers.value
      ensures r.AlreadyRunning? ==> exists k ::
        && k in old(instances) && old(instances)[k].owner == OwnerOf(cfg, account) && k in old(daemon)
        && old(instances)[k].challenge == c && r == AlreadyRunning(old(instances)[k].port, old(instances)[k].expires)
      ensures r.Unavailable? ==> exists k ::
        && k in old(instances) && old(instances)[k].owner == OwnerOf(cfg, account)
        && (k in faults || (k in old(daemon) && !identity.Owns(old(daemon)[k].labels)))
      ensures r.LaunchFailed? ==>
        || up.network.None? || Networks.Refusal(up.network.value, identity).Some?
        || !up.admitted || Identity.ValidateImageReference(recipes(c).image, identity).Err?
        || Capabilities.LaunchCapabilities(json, recipes(c).capabilities, allowlist).Err?
        || (IsRandom(cfg, c) && forall k: nat :: k < 10 ==> MatchingRows(Store(), c, up.draws(k)) != {})
        || up.cid.None? || up.port.None? || !HealthySeen(up.timeout, up.clock, up.polls)
      ensures forall k :: k in old(instances) ==>
        (old(instances)[k].owner != OwnerOf(cfg, account) || k in old(daemon)) ==>
        k in instances && instances[k] == old(instances)[k]
    {
      ghost var before, running := Store(), daemon;
      r := CreateFitting(c, account, solved, faults, up);
      ghost var mid := CreationIsHistory(history, before, Store(), running, c, account, solved, faults, up, r);
      history := history + [mid, Store()];
      CreationLeases(before, Store(), running, c, account, solved, faults, up, r);
      CreationSpares(before, Store(), running, c, account, solved, faults, up, r);
      match r {
        case AtCapacity => CapacityAnswer(before, Store(), running, c, account, solved, faults, up, r);
        case AlreadyRunning(_, _) => RunningAnswer(before, Store(), running, c, account, solved, faults, up, r);
        case Unavailable => UnavailableAnswer(before, Store(), running, c, account, solved, faults, up, r);
        case LaunchFailed =>
          FailureHasReason(old(history), before, Store(), running, c, account, solved, faults, up, r);
        case _ =>
      }
    }

    /** Each refusal has its reason in the account's rows and the daemon's containers. */
    lemma CapacityAnswer(a: Db, b: Db, running: map<Cid, Container>, c: int, account: int, solved: bool,
                         faults: set<Cid>, up: Startup, r: Creation)
      requires Sleeps(up.clock) && Creates(a, b, running, c, account, solved, faults, up, r) && r.AtCapacity?
      ensures maxContainers.Some?
      ensures var own := set k | k in a.instances && a.instances[k].owner == OwnerOf(cfg, account) && k in running;
        |own| >= maxContainers.value
    {
      OwnRunning(a, OwnerOf(cfg, account), running);
    }

    lemma OwnRunning(a: Db, o: Owner, running: map<Cid, Container>)
      ensures StillRunning(a, o, running) == set k | k in a.instances && a.instances[k].owner == o && k in running
    {
    }

    lemma RunningAnswer(a: Db, b: Db, running: map<Cid, Container>, c: int, account: int, solved: bool,
                        faults: set<Cid>, up: Startup, r: Creation)
      requires Sleeps(up.clock) && Creates(a, b, running, c, account, solved, faults, up, r) && r.AlreadyRunning?
      ensures exists k ::
        && k in a.instances && a.instances[k].owner == OwnerOf(cfg, account) && k in running
        && a.instances[k].challenge == c && r == AlreadyRunning(a.instances[k].port, a.instances[k].expires)
    {
      ReusedIsOwn(a, running, c, OwnerOf(cfg, account), r);
    }

    lemma UnavailableAnswer(a: Db, b: Db, running: map<Cid, Container>, c: int, account: int, solved: bool,
                            faults: set<Cid>, up: Startup, r: Creation)
      requires Sleeps(up.clock) && Creates(a, b, running, c, account, solved, faults, up, r) && r.Unavailable?
      ensures exists k ::
        && k in a.instances && a.instances[k].owner == OwnerOf(cfg, account)
        && (k in faults || (k in running && !identity.Owns(running[k].labels)))
    {
      var k :| k in AccountRows(a, OwnerOf(cfg, account)) && !Usable(running, k, faults);
    }

    lemma ReusedIsOwn(a: Db, running: map<Cid, Container>, c: int, o: Owner, r: Creation)
      requires Reused(Pruned(a, o, running), StillRunning(a, o, running), c, r)
      ensures exists k ::
        && k in a.instances && a.instances[k].owner == o && k in running
        && a.instances[k].challenge == c && r == AlreadyRunning(a.instances[k].port, a.instances[k].expires)
    {
      var k :| Reuses(Pruned(a, o, running), StillRunning(a, o, running), k, c, r);
      assert k in a.instances && a.instances[k].owner == o;
    }

    /** A launch of its own never meets a conflict, so a failed one lacks something before that. */
    lemma FailureHasReason(h: seq<Db>, a: Db, b: Db, running: map<Cid, Container>, c: int, account: int, solved: bool,
                           faults: set<Cid>, up: Startup, r: Creation)
      requires Chronicle(cfg, h, a) && Sleeps(up.clock)
      requires Creates(a, b, running, c, account, solved, faults, up, r) && r.LaunchFailed?
      requires up.cid.Some? ==> up.cid.value !in a.instances
      ensures
        || up.network.None? || Networks.Refusal(up.network.value, identity).Some?
        || !up.admitted || Identity.ValidateImageReference(recipes(c).image, identity).Err?
        || Capabilities.LaunchCapabilities(json, recipes(c).capabilities, allowlist).Err?
        || (IsRandom(cfg, c) && forall k: nat :: k < 10 ==> MatchingRows(b, c, up.draws(k)) != {})
        || up.cid.None? || up.port.None? || !HealthySeen(up.timeout, up.clock, up.polls)
    {
      var o := OwnerOf(cfg, account);
      if up.cid.Some? {
        NoConflictAlone(h, a, running.Keys, c, account, up.cid.value);
      }
    }

    lemma NoConflictAlone(h: seq<Db>, a: Db, running: set<Cid>, c: int, account: int, cid: Cid)
      requires Chronicle(cfg, h, a) && cid !in a.instances
      requires var o := OwnerOf(cfg, account);
        !Serves(Teardown(cfg, a, AccountRows(a, o) - running), AccountRows(a, o) * running, c)
      ensures var o := OwnerOf(cfg, account);
        !Conflicts(Teardown(cfg, a, AccountRows(a, o) - running), cid, c, o)
    {
      var o := OwnerOf(cfg, account);
      var pruned := Teardown(cfg, a, AccountRows(a, o) - running);
      ChronicleSound(cfg, h, a);
      forall k | k in pruned.instances
        ensures !Collides(pruned.instances[k], c, o)
      {
        assert Launchable(cfg, a.instances[k]);
        if a.instances[k].owner == o {
          assert k in AccountRows(a, o) * running;
        }
      }
    }

    /** The new lease runs a full length from the time of the launch, and the answer says so. */
    lemma CreationLeases(a: Db, b: Db, running: map<Cid, Container>, c: int, account: int, solved: bool,
                         faults: set<Cid>, up: Startup, r: Creation)
      requires Sleeps(up.clock) && Creates(a, b, running, c, account, solved, faults, up, r)
      ensures r.Created? ==>
        && up.cid.Some? && up.cid.value in b.instances && up.port.Some?
        && r == Created(up.port.value, up.now.Floor + lease)
        && b.instances[up.cid.value].timestamp == up.now.Floor
        && b.instances[up.cid.value].port == r.port && b.instances[up.cid.value].expires == r.expires
      ensures InLease(a, lease, up.now) ==> InLease(b, lease, up.now)
    {
    }

    /** Other accounts' rows, and the account's own running ones, are left as they are. */
    lemma CreationSpares(a: Db, b: Db, running: map<Cid, Container>, c: int, account: int, solved: bool,
                         faults: set<Cid>, up: Startup, r: Creation)
      requires Sleeps(up.clock) && Creates(a, b, running, c, account, solved, faults, up, r)
      requires up.cid.Some? ==> up.cid.value !in a.instances
      ensures forall k :: k in a.instances && (a.instances[k].owner != OwnerOf(cfg, account) || k in running) ==>
        k in b.instances && b.instances[k] == a.instances[k]
    {
    }

    /** A create request is at most two transactions: the prune, and a launch within the limit. */
    lemma CreationIsHistory(h: seq<Db>, a: Db, b: Db, running: map<Cid, Container>, c: int, account: int, solved: bool,
                            faults: set<Cid>, up: Startup, r: Creation) returns (mid: Db)
      requires Chronicle(cfg, h, a) && Sleeps(up.clock) && Creates(a, b, running, c, account, solved, faults, up, r)
      ensures Chronicle(cfg, h + [mid, b], b)
      ensures r.Created? ==>
        && maxContainers.Some? && |AccountRows(b, OwnerOf(cfg, account))| <= maxContainers.value
        && up.cid.Some? && up.cid.value in b.instances
        && Issued(h + [mid, b], |h| + 1, c, OwnerOf(cfg, account), b.instances[up.cid.value].flag)
    {
      var o := OwnerOf(cfg, account);
      if r.Created? {
        mid := Pruned(a, o, running);
        CreationKeeps(cfg, h, a, o, running.Keys, up.cid.value, b.instances[up.cid.value], maxContainers.value);
      } else {
        mid := b;
        PruneOp(cfg, h, a, b, AccountRows(a, o) - running.Keys);
        ChronicleGrows(cfg, h + [b], b, Skip, b);
        assert h + [b] + [b] == h + [b, b];
      }
    }

    predicate Reuses(db: Db, active: set<Cid>, k: Cid, c: int, r: Creation) {
      && k in active && k in db.instances && db.instances[k].challenge == c
      && r == AlreadyRunning(db.instances[k].port, db.instances[k].expires)
    }

    // ---- Submitting a flag ----

    /** File evidence unless the same pair has been reported for this flag before. */
    method LogReusedFlagSubmission(id: nat, account: int, now: int)
      requires id in flags
      modifies this`reports
      ensures Store() == FileReport(old(Store()), ReportOf(cfg, flags[id], account, now))
    {
      var r := ReportOf(cfg, flags[id], account, now);
      var known := false;
      for i := 0 to |reports|
        invariant known <==> exists j :: 0 <= j < i && reports[j].Key() == r.Key()
      {
        if reports[i].Key() == r.Key() {
          known := true;
        }
      }
      if !known {
        reports := reports + [r];
      }
    }

    method GetContainerFlag(f: string, account: int, found: Option<Cid>, c: int, now: int) returns (v: Verdict)
      requires c in cfg.challenges && FindsActive(Store(), c, OwnerOf(cfg, account), found)
      modifies this`flags, this`nextFlag, this`reports
      ensures LooksUp(cfg, old(Store()), c, account, f, now, found, v, Store())
    {
      var o := OwnerOf(cfg, account);
      if found.Some? && f == instances[found.value].flag {
        var attached := AttachedRows(Store(), c, found.value, f);
        if attached == {} {
          v := Accept(nextFlag);
          flags, nextFlag := flags[nextFlag := FlagRow(c, found, f, o, false)], nextFlag + 1;
        } else {
          var id :| id in attached;
          v := Accept(id);
        }
        return;
      }
      var owned := OwnedRows(Store(), c, f, o);
      if owned != {} {
        var id :| id in owned;
        return Accept(id);
      }
      var ch := cfg.challenges[c];
      if ch.mode.Static? && f == ExpectedStaticFlag(ch) {
        v := Accept(nextFlag);
        flags, nextFlag := flags[nextFlag := FlagRow(c, found, f, o, false)], nextFlag + 1;
        return;
      }
      var matching := MatchingRows(Store(), c, f);
      if matching == {} {
        return Reject(None);
      }
      var id :| id in matching;
      v := Reject(Some(id));
      if ch.mode.Random? && OtherAccount(cfg, flags[id], account) {
        LogReusedFlagSubmission(id, account, now);
      }
    }

    /** Mark the accepted row used, commit, and stop the submitter's instance. */
    method AcceptSubmission(row: nat, found: Option<Cid>, faults: set<Cid>) returns (ok: bool)
      requires row in flags
      modifies this`instances, this`flags, this`daemon
      ensures ok <==> found.None? || Usable(old(daemon), found.value, faults)
      ensures Store() == if ok && found.Some? then Teardown(cfg, MarkUsed(old(Store()), row), {found.value})
                         else MarkUsed(old(Store()), row)
      ensures daemon == if ok && found.Some? then old(daemon) - {found.value} else old(daemon)
    {
      flags := flags[row := flags[row].(used := true)];
      ok := true;
      if found.Some? {
        ok := KillContainer(found.value, faults);
      }
    }

    /** The steps of a submission; `v` and `mid` are the lookup's outcome and the tables after it. */
    method SubmitFlag(submission: string, account: int, c: int, now: int, faults: set<Cid>)
      returns (r: Attempt, ghost found: Option<Cid>, ghost v: Verdict, ghost mid: Db)
      requires c in cfg.challenges
      modifies this`instances, this`flags, this`nextFlag, this`reports, this`daemon
      ensures r.NoFlag? <==> Text.Trim(submission) == ""
      ensures r.NoFlag? ==> Store() == old(Store()) && daemon == old(daemon)
      ensures !r.NoFlag? ==>
        && LooksUp(cfg, old(Store()), c, account, Text.Trim(submission), now, found, v, mid)
        && (r.Incorrect? <==> v.Reject?)
        && (v.Reject? ==> Store() == mid && daemon == old(daemon))
        && (v.Accept? ==>
              && v.row in mid.flags
              && (r.Correct? <==> found.None? || Usable(old(daemon), found.value, faults))
              && Store() == (if r.Correct? && found.Some? then Teardown(cfg, MarkUsed(mid, v.row), {found.value})
                             else MarkUsed(mid, v.row))
              && daemon == if r.Correct? && found.Some? then old(daemon) - {found.value} else old(daemon))
    {
      found, v, mid := None, Reject(None), Store();
      var f := Text.Trim(submission);
      if f == "" {
        r := NoFlag;
        return;
      }
      var instance := FindActiveContainer(c, OwnerOf(cfg, account));
      var verdict := GetContainerFlag(f, account, instance, c, now);
      found, v, mid := instance, verdict, Store();
      if verdict.Reject? {
        r := Incorrect;
      } else {
        var ok := AcceptSubmission(verdict.row, instance, faults);
        r := if ok then Correct else Crashed;
      }
    }

    /**
     A submission.  It is accepted exactly if the account was issued the flag at some time (random)
     or the flag is the configured one (static); an accepted submission also stops the account's
     instance, and only that last step can fail.
     */
    method AttemptFlag(submission: string, account: int, c: int, now: int, faults: set<Cid>) returns (r: Attempt)
      requires Valid() && c in cfg.challenges
      modifies this
      ensures Valid() && old(history) <= history
      ensures r.NoFlag? <==> Text.Trim(submission) == ""
      ensures r.NoFlag? ==> Store() == old(Store())
      ensures !r.NoFlag? && IsRandom(cfg, c) ==>
        (r.Incorrect? <==> !old(WasIssued(c, account, Text.Trim(submission))))
      ensures !r.NoFlag? && IsStatic(cfg, c) ==>
        (r.Incorrect? <==> !Spells(Text.Trim(submission), cfg.challenges[c]))
      ensures !r.Correct? ==> instances == old(instances) && daemon == old(daemon)
      ensures r.Incorrect? ==> flags == old(flags)
      ensures r.Correct? || r.Crashed? ==> reports == old(reports)
      ensures (r.Correct? || r.Crashed?) && IsRandom(cfg, c) ==>
        Used(Store(), c, Text.Trim(submission), OwnerOf(cfg, account))
      ensures r.Crashed? ==> exists k ::
        k in ActiveRows(old(Store()), c, OwnerOf(cfg, account)) && !Usable(old(daemon), k, faults)
      ensures r.Correct? ==> NoneActive(Store(), c, OwnerOf(cfg, account))
    {
      ghost var before, found, v, mid := Store(), None, Reject(None), Store();
      ghost var f := Text.Trim(submission);
      r, found, v, mid := SubmitFlag(submission, account, c, now, faults);
      if !r.NoFlag? {
        SubmissionMeans(cfg, history, before, c, account, f, now, found, v, mid);
        ghost var marked := if v.Accept? then MarkUsed(mid, v.row) else mid;
        AttemptIsHistory(cfg, history, before, c, account, f, now, found, v, mid, Store());
        history := history + [marked, Store()];
      }
    }
  }

  /** Flags removed or detached before the instance is deleted: the cascade then finds nothing to take. */
  lemma CleanupIsTeardown(cfg: Config, db: Db, cid: Cid, attached: set<nat>, flags: map<nat, FlagRow>)
    requires cid in db.instances && attached == set id | id in db.flags && db.flags[id].container == Some(cid)
    requires flags.Keys ==
      if IsStatic(cfg, db.instances[cid].challenge) then db.flags.Keys - attached else db.flags.Keys
    requires forall id :: id in flags ==>
      flags[id] == if id in attached then db.flags[id].(container := None) else db.flags[id]
    ensures Teardown(cfg, db, {cid}).flags == flags
    ensures (map id | id in flags && flags[id].container != Some(cid) :: flags[id]) == flags
  {
    var after := Teardown(cfg, db, {cid}).flags;
    forall id | id in db.flags
      ensures id in after <==> id in flags
      ensures id in after ==> after[id] == flags[id]
    {
      assert AttachedTo(db, {cid}, db.flags[id]) <==> id in attached;
    }
    assert after.Keys == flags.Keys;
    assert after == flags;
  }

  lemma LastIssued(h: seq<Db>, cid: Cid, c: int, o: Owner, f: string)
    requires h != [] && Holds(h[|h| - 1], cid, c, o, f)
    ensures Issued(h, |h| - 1, c, o, f)
  {
    assert 0 <= |h| - 1 <= |h| - 1;
  }

  lemma AddedAndRemoved<K, V>(m: map<K, V>, k: K, v: V)
    requires k !in m
    ensures m[k := v] - {k} == m
  {
  }

  /** A launch after the prune leaves the account with its running containers and the new one. */
  lemma CountAfterLaunch(cfg: Config, db: Db, o: Owner, running: set<Cid>, cid: Cid, inst: Instance)
    requires inst.owner == o
    ensures var rows := AccountRows(db, o);
      |AccountRows(Launch(Teardown(cfg, db, rows - running), cid, inst), o)| <= |rows * running| + 1
  {
    var rows := AccountRows(db, o);
    var after := AccountRows(Launch(Teardown(cfg, db, rows - running), cid, inst), o);
    forall k | k in after && k != cid
      ensures k in rows * running
    {
      assert k in db.instances - (rows - running);
    }
    SubsetCard(after, rows * running + {cid});
  }

  lemma PruneOp(cfg: Config, h: seq<Db>, a: Db, b: Db, stale: set<Cid>)
    requires Chronicle(cfg, h, a) && (b == a || b == Teardown(cfg, a, stale))
    ensures Chronicle(cfg, h + [b], b)
  {
    ChronicleGrows(cfg, h, a, if b == a then Skip else Forget(stale), b);
  }

  lemma CreationKeeps(cfg: Config, h: seq<Db>, a: Db, o: Owner, running: set<Cid>, cid: Cid, inst: Instance, max: int)
    requires Chronicle(cfg, h, a) && Launchable(cfg, inst) && inst.owner == o
    requires |AccountRows(a, o) * running| < max
    requires !Conflicts(Teardown(cfg, a, AccountRows(a, o) - running), cid, inst.challenge, o)
    ensures var mid := Teardown(cfg, a, AccountRows(a, o) - running);
      var b := Launch(mid, cid, inst);
      && Chronicle(cfg, h + [mid, b], b)
      && Issued(h + [mid, b], |h| + 1, inst.challenge, o, inst.flag)
      && |AccountRows(b, o)| <= max
  {
    var mid := Teardown(cfg, a, AccountRows(a, o) - running);
    PruneOp(cfg, h, a, mid, AccountRows(a, o) - running);
    ChronicleGrows(cfg, h + [mid], mid, Insert(cid, inst), Launch(mid, cid, inst));
    assert h + [mid] + [Launch(mid, cid, inst)] == h + [mid, Launch(mid, cid, inst)];
    CountAfterLaunch(cfg, a, o, running, cid, inst);
    LastIssued(h + [mid, Launch(mid, cid, inst)], cid, inst.challenge, o, inst.flag);
  }

  /** In sound tables the verdict of the staged lookup has a one-line meaning. */
  lemma VerdictMeans(cfg: Config, a: Db, c: int, account: int, f: string, now: int,
                     found: Option<Cid>, v: Verdict, b: Db)
    requires Sound(cfg, a) && c in cfg.challenges && LooksUp(cfg, a, c, account, f, now, found, v, b)
    ensures IsRandom(cfg, c) ==> (v.Accept? <==> OwnedRows(a, c, f, OwnerOf(cfg, account)) != {})
    ensures IsStatic(cfg, c) ==> (v.Accept? <==> f == ExpectedStaticFlag(cfg.challenges[c]))
    ensures v.Reject? ==> b.flags == a.flags
    ensures v.Accept? ==> v.row in OwnedRows(b, c, f, OwnerOf(cfg, account))
  {
    if found.Some? && f == a.instances[found.value].flag {
      assert HasFlagRow(a, found.value);
      var id :| id in a.flags && Matches(a.flags[id], found.value, a.instances[found.value]);
      assert id in OwnedRows(a, c, f, OwnerOf(cfg, account));
    }
  }

  /** The account's acceptance of this flag is on record. */
  ghost predicate Used(db: Db, c: int, f: string, o: Owner) {
    exists id :: id in OwnedRows(db, c, f, o) && db.flags[id].used
  }

  /** A random flag's row is still there, and marked, after its instance is gone. */
  lemma AcceptUsed(cfg: Config, db: Db, c: int, f: string, o: Owner, row: nat, found: Option<Cid>)
    requires Sound(cfg, db) && row in OwnedRows(db, c, f, o) && IsRandom(cfg, c)
    ensures Used(MarkUsed(db, row), c, f, o)
    ensures found.Some? ==> Used(Teardown(cfg, MarkUsed(db, row), {found.value}), c, f, o)
  {
    assert row in OwnedRows(MarkUsed(db, row), c, f, o);
    if found.Some? {
      assert row in OwnedRows(Teardown(cfg, MarkUsed(db, row), {found.value}), c, f, o);
    }
  }

  predicate NotShortened(a: Db, b: Db) {
    forall k :: k in b.instances ==> k in a.instances && a.instances[k].expires <= b.instances[k].expires
  }

  lemma RenewedLeases(a: Db, b: Db, cid: Cid, lease: nat, now: real)
    requires InLease(a, lease, now) && cid in a.instances && b == Renewed(a, cid, now.Floor + lease)
    ensures InLease(b, lease, now) && NotShortened(a, b)
  {
  }

  lemma ShrunkLeases(a: Db, b: Db, lease: nat, now: real)
    requires InLease(a, lease, now)
    requires forall k :: k in b.instances ==> k in a.instances && b.instances[k] == a.instances[k]
    ensures InLease(b, lease, now) && NotShortened(a, b)
  {
  }

  /** What a renewal may do to the tables: nothing, extend its target, or forget it. */
  predicate Renews(cfg: Config, a: Db, b: Db, target: Option<Cid>, expires: int) {
    b == a || (target.Some? && target.value in a.instances
               && (b == Renewed(a, target.value, expires) || b == Teardown(cfg, a, {target.value})))
  }

  lemma RenewalOp(cfg: Config, a: Db, b: Db, target: Option<Cid>, expires: int) returns (op: Op)
    requires Renews(cfg, a, b, target, expires)
    ensures Atomic(op) && Does(cfg, a, op, b)
  {
    op := if b == a then Skip
          else if b == Renewed(a, target.value, expires) then Extend(target.value, expires)
          else Forget({target.value});
  }

  lemma RenewalKeepsFlags(cfg: Config, a: Db, b: Db, target: Option<Cid>, expires: int)
    requires Renews(cfg, a, b, target, expires)
    ensures forall k :: k in b.instances ==> k in a.instances && b.instances[k].flag == a.instances[k].flag
  {
  }

  lemma RenewalInLease(cfg: Config, a: Db, b: Db, target: Option<Cid>, lease: nat, now: real)
    requires InLease(a, lease, now) && Renews(cfg, a, b, target, now.Floor + lease)
    ensures InLease(b, lease, now) && NotShortened(a, b)
  {
    if target.Some? && target.value in a.instances && b == Renewed(a, target.value, now.Floor + lease) {
      RenewedLeases(a, b, target.value, lease, now);
    } else {
      ShrunkLeases(a, b, lease, now);
    }
  }

  /** A submission is a transaction, and stopping the instance is another. */
  lemma AttemptIsHistory(cfg: Config, h: seq<Db>, a: Db, c: int, account: int, f: string, now: int,
                         found: Option<Cid>, v: Verdict, mid: Db, b: Db)
    requires Chronicle(cfg, h, a) && c in cfg.challenges && LooksUp(cfg, a, c, account, f, now, found, v, mid)
    requires v.Accept? ==> v.row in mid.flags
    requires var marked := if v.Accept? then MarkUsed(mid, v.row) else mid;
      b == marked || (found.Some? && b == Teardown(cfg, marked, {found.value}))
    ensures Chronicle(cfg, h + [if v.Accept? then MarkUsed(mid, v.row) else mid, b], b)
  {
    var marked := if v.Accept? then MarkUsed(mid, v.row) else mid;
    ChronicleGrows(cfg, h, a, Submit(c, account, f, now, found, v), marked);
    ChronicleGrows(cfg, h + [marked], marked, if b == marked then Skip else Forget({found.value}), b);
    assert h + [marked] + [b] == h + [marked, b];
  }

  /** All that a submission needs to know about the lookup's outcome `b`, after history `h`. */
  lemma SubmissionMeans(cfg: Config, h: seq<Db>, a: Db, c: int, account: int, f: string, now: int,
                        found: Option<Cid>, v: Verdict, b: Db)
    requires Chronicle(cfg, h, a) && c in cfg.challenges && LooksUp(cfg, a, c, account, f, now, found, v, b)
    ensures IsRandom(cfg, c) ==> (v.Accept? <==> Issued(h, |h| - 1, c, OwnerOf(cfg, account), f))
    ensures IsStatic(cfg, c) ==> (v.Accept? <==> Spells(f, cfg.challenges[c]))
    ensures b.instances == a.instances && (v.Reject? ==> b.flags == a.flags)
    ensures v.Accept? ==>
      && b.reports == a.reports && v.row in b.flags
      && (IsRandom(cfg, c) ==>
            && Used(MarkUsed(b, v.row), c, f, OwnerOf(cfg, account))
            && (found.Some? ==> Used(Teardown(cfg, MarkUsed(b, v.row), {found.value}), c, f, OwnerOf(cfg, account))))
    ensures v.Accept? ==>
      NoneActive(if found.Some? then Teardown(cfg, MarkUsed(b, v.row), {found.value}) else MarkUsed(b, v.row),
                 c, OwnerOf(cfg, account))
  {
    ChronicleSound(cfg, h, a);
    ExpectedSpelled(cfg.challenges[c], f);
    VerdictMeans(cfg, a, c, account, f, now, found, v, b);
    LookupSound(cfg, a, c, account, f, now, found, v, b);
    if IsRandom(cfg, c) {
      RandomFlagAccepted(cfg, h, |h| - 1, c, account, f, now, found, v, b);
    }
    ActiveRowsAre(cfg, h, a, c, OwnerOf(cfg, account), found);
    if v.Accept? {
      AcceptanceMeans(cfg, a, b, c, f, OwnerOf(cfg, account), v.row, found);
    }
  }

  /** Marking the row and stopping the instance. */
  lemma AcceptanceMeans(cfg: Config, a: Db, b: Db, c: int, f: string, o: Owner, row: nat, found: Option<Cid>)
    requires Sound(cfg, b) && b.instances == a.instances && row in OwnedRows(b, c, f, o)
    requires ActiveRows(a, c, o) == if found.Some? then {found.value} else {}
    ensures IsRandom(cfg, c) ==>
      && Used(MarkUsed(b, row), c, f, o)
      && (found.Some? ==> Used(Teardown(cfg, MarkUsed(b, row), {found.value}), c, f, o))
    ensures NoneActive(if found.Some? then Teardown(cfg, MarkUsed(b, row), {found.value}) else MarkUsed(b, row), c, o)
  {
    if IsRandom(cfg, c) {
      AcceptUsed(cfg, b, c, f, o, row, found);
    }
    StoppedIsGone(cfg, a, MarkUsed(b, row), c, o, found);
  }

  predicate NoneActive(db: Db, c: int, o: Owner) { ActiveRows(db, c, o) == {} }

  lemma StoppedIsGone(cfg: Config, a: Db, b: Db, c: int, o: Owner, found: Option<Cid>)
    requires b.instances == a.instances && ActiveRows(a, c, o) == if found.Some? then {found.value} else {}
    ensures NoneActive(if found.Some? then Teardown(cfg, b, {found.value}) else b, c, o)
  {
    assert ActiveRows(b, c, o) == ActiveRows(a, c, o);
    if found.Some? {
      assert ActiveRows(Teardown(cfg, b, {found.value}), c, o) == ActiveRows(b, c, o) - {found.value};
    }
  }
}
