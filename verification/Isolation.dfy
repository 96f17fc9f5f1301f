/**
 Several CTFd processes on one Docker daemon.  Labels are stamped at launch and never change;
 every operation on a container first checks them.
 */
module Isolation {
  import opened Identity

  type Cid = nat

  /** Who launched a container, and for what. */
  datatype Stamp = Stamp(launcher: RuntimeIdentity, challenge: string, scope: string, scopeId: string)

  /** The daemon's running containers, and the history of plugin launches. */
  datatype World = World(daemon: map<Cid, Labels>, launches: map<Cid, Stamp>)

  datatype Event =
    | Start(cid: Cid, stamp: Stamp)
    | Kill(actor: RuntimeIdentity, cid: Cid)
    | Abandon(actor: RuntimeIdentity, cid: Cid)
    | StartForeign(cid: Cid, labels: Labels)
    | Vanish(cid: Cid)

  /** `Kill` looks the container up and refuses foreign labels; `Abandon` is the failure branch's
      kill of the container that the same request has just started. */
  predicate Possible(w: World, e: Event) {
    match e
    case Start(cid, stamp) => cid !in w.daemon && cid !in w.launches
    case Kill(actor, cid) => cid in w.daemon && actor.Owns(w.daemon[cid])
    case Abandon(actor, cid) => cid in w.launches && w.launches[cid].launcher == actor
    case StartForeign(cid, labels) => cid !in w.daemon && cid !in w.launches
    case Vanish(cid) => true
  }

  function After(w: World, e: Event): World {
    match e
    case Start(cid, stamp) =>
      var labels := stamp.launcher.LaunchLabels(stamp.challenge, stamp.scope, stamp.scopeId);
      World(w.daemon[cid := labels], w.launches[cid := stamp])
    case StartForeign(cid, labels) => w.(daemon := w.daemon[cid := labels])
    case _ => w.(daemon := w.daemon - {e.cid})
  }

  function Replay(events: seq<Event>): World {
    if events == [] then World(map[], map[]) else After(Replay(events[..|events| - 1]), events[|events| - 1])
  }

  ghost predicate Plausible(events: seq<Event>) {
    forall i :: 0 <= i < |events| ==> Possible(Replay(events[..i]), events[i])
  }

  /** The containers that a process's bulk listing returns. */
  function Listing(w: World, me: RuntimeIdentity): set<Cid> {
    set cid | cid in w.daemon && me.Lists(w.daemon[cid])
  }

  lemma {:induction false} LabelsStay(events: seq<Event>, cid: Cid)
    requires Plausible(events) && cid in Replay(events).daemon && cid in Replay(events).launches
    ensures var s := Replay(events).launches[cid];
      Replay(events).daemon[cid] == s.launcher.LaunchLabels(s.challenge, s.scope, s.scopeId)
  {
    if events != [] {
      var before := events[..|events| - 1];
      assert forall i :: 0 <= i < |before| ==> before[..i] == events[..i];
      assert events[..|events| - 1] == before && Possible(Replay(before), events[|events| - 1]);
      if cid in Replay(before).daemon && cid in Replay(before).launches {
        LabelsStay(before, cid);
      }
    }
  }

  /**
   Over any run, a process can kill through the ownership check, and lists as running, exactly
   the plugin containers launched under its own event and target.
   */
  lemma {:induction false} ProcessesAreIsolated(events: seq<Event>, me: RuntimeIdentity, cid: Cid)
    requires Plausible(events) && cid in Replay(events).daemon && cid in Replay(events).launches
    ensures Possible(Replay(events), Kill(me, cid)) <==> me.SameOwner(Replay(events).launches[cid].launcher)
    ensures cid in Listing(Replay(events), me) <==> me.SameOwner(Replay(events).launches[cid].launcher)
    ensures After(Replay(events), Kill(me, cid)).daemon == Replay(events).daemon - {cid}
  {
    LabelsStay(events, cid);
    var s := Replay(events).launches[cid];
    OwnershipIsEventAndTarget(me, s.launcher, s.challenge, s.scope, s.scopeId);
  }

  /** So no event of a run takes down a container launched under another event or target. */
  lemma KillsStayAtHome(events: seq<Event>, i: nat, cid: Cid)
    requires Plausible(events) && i < |events| && cid in Replay(events[..i]).launches
    requires cid in Replay(events[..i]).daemon && cid !in Replay(events[..i + 1]).daemon
    ensures events[i] == Vanish(cid)
         || ((events[i].Kill? || events[i].Abandon?) && events[i].cid == cid
             && events[i].actor.SameOwner(Replay(events[..i]).launches[cid].launcher))
  {
    var before := events[..i];
    assert events[..i + 1][..i] == before;
    assert Possible(Replay(before), events[i]);
    assert forall j :: 0 <= j < i ==> before[..j] == events[..j];
    if events[i].Kill? {
      ProcessesAreIsolated(before, events[i].actor, cid);
    }
  }
}
