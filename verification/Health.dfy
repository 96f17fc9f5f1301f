/** The wait for a newly started container's health check. */
module Health {
  import opened Text

  /** One look at the container: the status and health strings Docker reports, or an error from Docker. */
  datatype Poll = Poll(status: string, health: string) | Raises

  datatype Outcome = Healthy | Exited | Unhealthy | TimedOut | Raised

  predicate Stopped(p: Poll) { p.Poll? && Lower(p.status) in {"dead", "exited", "removing"} }

  predicate SeesHealthy(p: Poll) { p.Poll? && !Stopped(p) && Lower(p.health) == "healthy" }

  predicate Decisive(p: Poll) { p.Raises? || Stopped(p) || Lower(p.health) in {"healthy", "unhealthy"} }

  /** What a decisive poll means; a stopped container is a failure whatever its health says. */
  function Meaning(p: Poll): Outcome
    requires Decisive(p)
  {
    if p.Raises? then Raised
    else if Stopped(p) then Exited
    else if Lower(p.health) == "healthy" then Healthy
    else Unhealthy
  }

  /**
   A monotonic clock read once for the deadline (`clock(0)`) and once before each poll `i`
   (`clock(i + 1)`), with a sleep of a quarter second after every undecided poll.
   */
  ghost predicate Sleeps(clock: nat -> real) {
    clock(0) <= clock(1) && forall i: nat :: 1 <= i ==> clock(i) + 0.25 <= clock(i + 1)
  }

  /** Poll `i` begins before the deadline, and no earlier poll decided. */
  ghost predicate Reached(timeout: nat, clock: nat -> real, polls: nat -> Poll, i: nat) {
    && clock(i + 1) < clock(0) + timeout as real
    && forall j: nat :: j < i ==> !Decisive(polls(j))
  }

  /** Some poll begun before the deadline saw a healthy, unstopped container, and none before it decided. */
  ghost predicate HealthySeen(timeout: nat, clock: nat -> real, polls: nat -> Poll) {
    exists i: nat :: Reached(timeout, clock, polls, i) && SeesHealthy(polls(i))
  }

  /**
   The outcome is that of the first decisive poll begun before the deadline, and a timeout if
   there is none; a container is looked at no more than four times per second of the timeout.
   */
  method WaitUntilHealthy(timeout: nat, clock: nat -> real, polls: nat -> Poll) returns (outcome: Outcome, looked: nat)
    requires Sleeps(clock)
    ensures looked <= 4 * timeout
    ensures !outcome.TimedOut? ==> looked > 0 && Reached(timeout, clock, polls, looked - 1)
                                   && Decisive(polls(looked - 1)) && outcome == Meaning(polls(looked - 1))
    ensures outcome.Healthy? <==> HealthySeen(timeout, clock, polls)
    ensures outcome.Raised? ==> polls(looked - 1).Raises?
    ensures outcome.Exited? ==>
      polls(looked - 1).Poll? && Lower(polls(looked - 1).status) in {"dead", "exited", "removing"}
    ensures outcome.Healthy? || outcome.Unhealthy? ==>
      && polls(looked - 1).Poll? && Lower(polls(looked - 1).status) !in {"dead", "exited", "removing"}
      && Lower(polls(looked - 1).health) == if outcome.Healthy? then "healthy" else "unhealthy"
    ensures forall j: nat :: j < looked - 1 || (j < looked && outcome.TimedOut?) ==>
      && polls(j).Poll? && Lower(polls(j).status) !in {"dead", "exited", "removing"}
      && Lower(polls(j).health) !in {"healthy", "unhealthy"}
    ensures outcome.TimedOut? ==> forall i: nat :: Reached(timeout, clock, polls, i) ==> !Decisive(polls(i))
  {
    var deadline := clock(0) + timeout as real;
    looked := 0;
    while clock(looked + 1) < deadline
      invariant looked as real * 0.25 + clock(0) <= clock(looked + 1)
      invariant looked <= 4 * timeout
      invariant forall j: nat :: j < looked ==> !Decisive(polls(j))
      decreases 4 * timeout - looked
    {
      var poll := polls(looked);
      looked := looked + 1;
      if poll.Raises? {
        return Raised, looked;
      }
      if Stopped(poll) {
        return Exited, looked;
      }
      var health := Lower(poll.health);
      if health == "healthy" {
        return Healthy, looked;
      }
      if health == "unhealthy" {
        return Unhealthy, looked;
      }
      assert clock(looked) + 0.25 <= clock(looked + 1);
    }
    outcome := TimedOut;
    forall i: nat | Reached(timeout, clock, polls, i)
      ensures !Decisive(polls(i))
    {
      if looked <= i {
        ClockAdvances(clock, looked + 1, i + 1);
      }
    }
  }

  lemma {:induction false} ClockAdvances(clock: nat -> real, i: nat, j: nat)
    requires Sleeps(clock) && i <= j
    ensures clock(i) <= clock(j)
    decreases j
  {
    if i < j {
      ClockAdvances(clock, i, j - 1);
      assert j - 1 >= 1 ==> clock(j - 1) + 0.25 <= clock(j - 1 + 1);
    }
  }
}
