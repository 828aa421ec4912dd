/** Block times across interrupted waits: vTaskSetTimeOutState and
    xTaskCheckForTimeOut of tasks.c.

    A wait may be resumed and re-entered many times before it is satisfied or
    expires.  Each check rewrites the recorded entry time and the remaining
    ticks; what has to stay put is their sum, the deadline. */
module TimeOuts {
  import opened ListSpec
  import opened DelayedLists

  /** TimeOut_t: xOverflowCount and xTimeOnEntering. */
  datatype Entered = Entered(overflows: nat, tick: nat)

  datatype Answer = Answer(expired: bool, entered: Entered, wait: nat)

  /** What xNumOfOverflows and xTickCount read at absolute tick `n`. */
  function At(n: nat): Entered {
    Entered(n / WRAP % WRAP, n % WRAP)
  }

  /** xTaskCheckForTimeOut */
  function Check(clock: Entered, aborted: bool, e: Entered, wait: nat): Answer {
    var elapsed := (clock.tick - e.tick) % WRAP;
    if aborted then Answer(true, e, wait)
    else if wait == MAX_DELAY then Answer(false, e, wait)
    else if clock.overflows != e.overflows && clock.tick >= e.tick then Answer(true, e, 0)
    else if elapsed < wait then Answer(false, clock, wait - elapsed)
    else Answer(true, e, 0)
  }

  /** While the counter wraps at most once since the recorded entry, the check
      expires just when the deadline has come, and otherwise keeps the deadline. */
  lemma CheckKeepsDeadline(entry: nat, n: nat, wait: nat)
    requires entry <= n && n / WRAP <= entry / WRAP + 1 && wait < MAX_DELAY
    ensures var a := Check(At(n), false, At(entry), wait);
            && (a.expired <==> entry + wait <= n)
            && (a.expired ==> a.wait == 0)
            && (!a.expired ==> a.entered == At(n) && 0 < a.wait && n + a.wait == entry + wait)
  {
  }

  /** Over any distance the check answers rightly except in one case: the counter
      has wrapped twice or more, the check does not see that it has passed the
      entry tick again, and the distance modulo 2^32 is still within the wait. */
  lemma CheckExact(entry: nat, n: nat, wait: nat)
    requires entry <= n && wait < MAX_DELAY
    ensures (Check(At(n), false, At(entry), wait).expired <==> entry + wait <= n) <==>
            !(&& n / WRAP > entry / WRAP + 1
              && (n % WRAP < entry % WRAP || (n / WRAP - entry / WRAP) % WRAP == 0)
              && (n % WRAP - entry % WRAP) % WRAP < wait)
  {
  }

  /** That case exists: 2^32 + 1 ticks after the entry a wait of 10 goes on. */
  lemma CheckMissesTwoWraps()
    ensures !Check(At(2 * WRAP), false, At(WRAP - 1), 10).expired
  {
  }

  /** The checks of one wait, at absolute ticks `times`, until one expires:
      the number of checks that let the caller go on waiting. */
  function Polls(e: Entered, wait: nat, times: seq<nat>): nat
    decreases |times|
  {
    if times == [] then 0 else
      var a := Check(At(times[0]), false, e, wait);
      if a.expired then 0 else 1 + Polls(a.entered, a.wait, times[1..])
  }

  /** The checks are in order, and close enough together. */
  ghost predicate Paced(entry: nat, times: seq<nat>)
    decreases |times|
  {
    times != [] ==>
      && entry <= times[0] && times[0] / WRAP <= entry / WRAP + 1
      && Paced(times[0], times[1..])
  }

  /** However often a wait is interrupted, it ends at its original deadline: the
      caller goes on at exactly the checks before it. */
  lemma {:induction false} WaitEndsAtDeadline(entry: nat, wait: nat, times: seq<nat>)
    requires wait < MAX_DELAY && Paced(entry, times)
    ensures var k := Polls(At(entry), wait, times);
            && k <= |times|
            && (forall i | 0 <= i < k :: times[i] < entry + wait)
            && (k < |times| ==> entry + wait <= times[k])
    decreases |times|
  {
    hide Check;
    if times != [] {
      CheckKeepsDeadline(entry, times[0], wait);
      var a := Check(At(times[0]), false, At(entry), wait);
      if !a.expired {
        WaitEndsAtDeadline(times[0], a.wait, times[1..]);
        var k := Polls(At(times[0]), a.wait, times[1..]);
        assert forall i | 0 <= i < k + 1 :: times[i] == if i == 0 then times[0] else times[1..][i - 1];
      }
    }
  }

  /** A wait without limit goes on at every check, however often the counter wraps. */
  lemma {:induction false} UnlimitedWaitGoesOn(e: Entered, times: seq<nat>)
    ensures Polls(e, MAX_DELAY, times) == |times|
    decreases |times|
  {
    if times != [] {
      UnlimitedWaitGoesOn(e, times[1..]);
    }
  }

  /** An aborted wait ends at once, with its time as it was; that comes before anything else. */
  lemma AbortEndsWait(entry: nat, n: nat, wait: nat)
    ensures Check(At(n), true, At(entry), wait) == Answer(true, At(entry), wait)
    ensures wait == MAX_DELAY ==> !Check(At(n), false, At(entry), wait).expired
  {
  }

  /** TimeOut_t as a task keeps it, rewritten in place by each check. */
  class TimeOut {
    var overflowCount: nat
    var timeOnEntering: nat

    ghost function Model(): Entered
      reads this
    {
      Entered(overflowCount, timeOnEntering)
    }

    /** vTaskSetTimeOutState */
    constructor (clock: Entered)
      ensures Model() == clock
    {
      overflowCount, timeOnEntering := clock.overflows, clock.tick;
    }

    /** vTaskInternalSetTimeOutState */
    method InternalSet(clock: Entered)
      modifies this
      ensures Model() == clock
    {
      overflowCount := clock.overflows;
      timeOnEntering := clock.tick;
    }

    /** xTaskCheckForTimeOut */
    method CheckForTimeOut(clock: Entered, aborted: bool, wait: nat) returns (expired: bool, remaining: nat, delayAborted: bool)
      modifies this
      ensures Answer(expired, Model(), remaining) == Check(clock, aborted, old(Model()), wait)
      // an abort is reported once
      ensures !delayAborted
    {
      delayAborted := aborted;
      var elapsed := (clock.tick - timeOnEntering) % WRAP;
      remaining := wait;
      if aborted {
        delayAborted := false;
        expired := true;
      } else if wait == MAX_DELAY {
        expired := false;
      } else if clock.overflows != overflowCount && clock.tick >= timeOnEntering {
        expired := true;
        remaining := 0;
      } else if elapsed < wait {
        remaining := wait - elapsed;
        InternalSet(clock);
        expired := false;
      } else {
        remaining := 0;
        expired := true;
      }
    }
  }
}
