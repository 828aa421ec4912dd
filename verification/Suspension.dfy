/** The scheduler of tasks.c suspended and resumed.

    While it is suspended ticks are only counted and tasks that an event wakes are
    only noted; the last resume makes up for both.  In tickless idle the counter
    itself is moved on.  The specification is that of `DelayedLists`: an unbounded
    clock and a table of deadlines. */
module Suspension {
  import opened ListSpec
  import opened DelayedLists

  // ---------------------------------------------------------------- what a resume does

  /** Tasks leave the delayed lists in the order in which they were made pending. */
  function WakeEach(s: State, ts: seq<Task>): State {
    if ts == [] then s else Wake(WakeEach(s, ts[..|ts| - 1]), ts[|ts| - 1], NoReset)
  }

  function Members(ts: seq<Task>): set<Task> {
    set t | t in ts
  }

  function Resumed(s: State, ts: seq<Task>): State {
    var w := WakeEach(s, ts);
    if ts == [] then w else w.(next := HeadValue(w.delayed))
  }

  /** `n` ticks in a row, and all they ready. */
  function Replay(s: State, n: nat): (State, seq<Task>) {
    if n == 0 then (s, []) else
      var (s1, out) := Replay(s, n - 1);
      (Tick(s1).0, out + Tick(s1).1)
  }

  function ReplayDue(now: nat, due: map<Task, nat>, n: nat): map<Task, nat> {
    if n == 0 then due else NotDueAt(ReplayDue(now, due, n - 1), now + n)
  }

  lemma NextIsFree(s: State, now: nat, due: map<Task, nat>)
    requires Inv(s, now, due)
    ensures Inv(s.(next := HeadValue(s.delayed)), now, due)
  {
  }

  lemma {:induction false} ReplayDueIs(now: nat, due: map<Task, nat>, n: nat)
    requires forall t | t in due :: now < due[t]
    ensures forall t :: t in ReplayDue(now, due, n) <==> t in due && now + n < due[t]
    ensures forall t | t in ReplayDue(now, due, n) :: ReplayDue(now, due, n)[t] == due[t]
  {
    if n > 0 {
      ReplayDueIs(now, due, n - 1);
    }
  }

  lemma {:induction false} ReplayInv(s: State, now: nat, due: map<Task, nat>, n: nat)
    requires Inv(s, now, due)
    ensures Inv(Replay(s, n).0, now + n, ReplayDue(now, due, n))
  {
    hide Inv, Tick, NotDueAt;
    if n > 0 {
      ReplayInv(s, now, due, n - 1);
      TickInv(Replay(s, n - 1).0, now + n - 1, ReplayDue(now, due, n - 1));
    }
  }

  /** A replay of held-back ticks readies exactly the tasks that fell due meanwhile,
      once each and in the order of their deadlines. */
  lemma {:induction false} ReplayReadiesWhatFellDue(s: State, now: nat, due: map<Task, nat>, n: nat)
    requires Inv(s, now, due)
    ensures forall t :: multiset(Replay(s, n).1)[t] == if t in due && due[t] <= now + n then 1 else 0
    ensures InOrderOf(due, Replay(s, n).1)
  {
    hide Inv, Tick, NotDueAt, InOrderOf, Replay;
    if n == 0 {
      ReplayNothing(s, now, due);
    } else {
      ReplayReadiesWhatFellDue(s, now, due, n - 1);
      ReplayOneMore(s, now, due, n);
    }
  }

  lemma ReplayNothing(s: State, now: nat, due: map<Task, nat>)
    requires Inv(s, now, due)
    ensures Replay(s, 0).1 == [] && forall t | t in due :: now < due[t]
    ensures InOrderOf(due, [])
  {
    DueAhead(s, now, due);
  }

  lemma ReplayOneMore(s: State, now: nat, due: map<Task, nat>, n: nat)
    requires Inv(s, now, due) && n > 0
    requires forall t :: multiset(Replay(s, n - 1).1)[t] == if t in due && due[t] <= now + n - 1 then 1 else 0
    requires InOrderOf(due, Replay(s, n - 1).1)
    ensures forall t :: multiset(Replay(s, n).1)[t] == if t in due && due[t] <= now + n then 1 else 0
    ensures InOrderOf(due, Replay(s, n).1)
  {
    hide Inv, Tick, InOrderOf;
    NextReplayed(s, now, due, n);
    var (s1, a) := Replay(s, n - 1);
    hide Replay;
    ReadiedAppends(due, a, Tick(s1).1, now + n);
  }

  lemma NextReplayed(s: State, now: nat, due: map<Task, nat>, n: nat)
    requires Inv(s, now, due) && n > 0
    ensures forall t :: multiset(Tick(Replay(s, n - 1).0).1)[t] == if t in due && due[t] == now + n then 1 else 0
  {
    hide *;
    DueAhead(s, now, due);
    var s1, due1 := Replay(s, n - 1).0, ReplayDue(now, due, n - 1);
    ReplayInv(s, now, due, n - 1);
    ReplayDueIs(now, due, n - 1);
    TickInv(s1, now + (n - 1), due1);
  }

  lemma ReadiedAppends(due: map<Task, nat>, a: seq<Task>, b: seq<Task>, at: nat)
    requires at > 0 && InOrderOf(due, a)
    requires forall t :: multiset(a)[t] == if t in due && due[t] <= at - 1 then 1 else 0
    requires forall t :: multiset(b)[t] == if t in due && due[t] == at then 1 else 0
    ensures forall t :: multiset(a + b)[t] == if t in due && due[t] <= at then 1 else 0
    ensures InOrderOf(due, a + b)
  {
  }

  ghost predicate InOrderOf(due: map<Task, nat>, out: seq<Task>) {
    && (forall i | 0 <= i < |out| :: out[i] in due)
    && (forall i, j | 0 <= i < j < |out| :: due[out[i]] <= due[out[j]])
  }

  lemma DueAhead(s: State, now: nat, due: map<Task, nat>)
    requires Inv(s, now, due)
    ensures forall t | t in due :: now < due[t]
  {
    var base := now - s.tick;
    forall t | t in due
      ensures now < due[t]
    {
      if due[t] < base + WRAP {
        var e := Entry(t, due[t] - base);
        assert Count(s.delayed, e) == 1;
        var i :| 0 <= i < |s.delayed| && s.delayed[i] == e;
      }
    }
  }

  lemma {:induction false} WakeEachInv(s: State, now: nat, due: map<Task, nat>, ts: seq<Task>)
    requires Inv(s, now, due)
    ensures Inv(WakeEach(s, ts), now, due - Members(ts))
  {
    hide Inv, Wake;
    if ts == [] {
      assert due - Members(ts) == due;
    } else {
      var some, last := ts[..|ts| - 1], ts[|ts| - 1];
      WakeEachInv(s, now, due, some);
      WakeInv(WakeEach(s, some), now, due - Members(some), last, NoReset);
      assert ts == some + [last];
      assert due - Members(some) - {last} == due - Members(ts);
    }
  }

  lemma ResumedInv(s: State, now: nat, due: map<Task, nat>, ts: seq<Task>)
    requires Inv(s, now, due)
    ensures Inv(Resumed(s, ts), now, due - Members(ts))
  {
    hide Inv, WakeEach;
    WakeEachInv(s, now, due, ts);
    NextIsFree(WakeEach(s, ts), now, due - Members(ts));
  }

  // ---------------------------------------------------------------- vTaskStepTick

  /** How far the counter is moved: one tick less if that would reach the next
      unblock time, and that tick is left to the resume. */
  function Moved(s: State, n: nat): nat {
    if (s.tick + n) % WRAP == s.next && n > 0 then n - 1 else n
  }

  function StepTick(s: State, n: nat): State {
    s.(tick := (s.tick + Moved(s, n)) % WRAP)
  }

  /** What the code asserts: the sum, which may have wrapped, is not beyond the next unblock time. */
  predicate Asserted(s: State, n: nat) {
    n < WRAP && (s.tick + n) % WRAP <= s.next && ((s.tick + n) % WRAP == s.next ==> n > 0)
  }

  /** The assertion lets a jump over the wrap pass, and then the lists are not
      switched: the step is right just if it does not wrap, or nobody has a deadline. */
  lemma StepTickExact(s: State, now: nat, due: map<Task, nat>, n: nat)
    requires Inv(s, now, due) && Asserted(s, n)
    ensures Inv(StepTick(s, n), now + Moved(s, n), due) <==> s.tick + Moved(s, n) < WRAP || due == map[]
  {
    var m := Moved(s, n);
    StepTickDigits(s, now, n);
    if s.tick + m >= WRAP {
      if due != map[] {
        var t :| t in due;
        StepTickWraps(s, now, due, n, t);
      } else {
        RepresentsEmpty(s.delayed, now - s.tick);
        RepresentsEmpty(s.overflow, now - s.tick + WRAP);
        hide Represents;
        assert Represents([], now - s.tick + WRAP, map[]) by { RepresentsNothing(now - s.tick + WRAP, map[]); }
        assert Represents([], now - s.tick + 2 * WRAP, map[]) by { RepresentsNothing(now - s.tick + 2 * WRAP, map[]); }
      }
    }
  }

  /** So with the counter 2 below the wrap, a task due 5 ticks behind it, and a jump of 4. */
  lemma StepTickSkipsSwitch()
    ensures var s, now, due := State(WRAP - 2, [], [Entry(0, 5)], MAX_DELAY), WRAP - 2, map[0 := WRAP + 5];
            Inv(s, now, due) && Asserted(s, 4) && !Inv(StepTick(s, 4), now + 4, due)
  {
    var s, now, due := State(WRAP - 2, [], [Entry(0, 5)], MAX_DELAY), WRAP - 2, map[0 := WRAP + 5];
    assert Represents([], 0, due);
    assert Represents([Entry(0, 5)], WRAP, due);
    StepTickExact(s, now, due, 4);
  }

  lemma StepTickDigits(s: State, now: nat, n: nat)
    requires s.tick == now % WRAP && s.tick <= s.next && Asserted(s, n)
    ensures var m := Moved(s, n);
            && (now + m) % WRAP == StepTick(s, n).tick == (if s.tick + m < WRAP then s.tick + m else s.tick + m - WRAP)
            && (s.tick + m < WRAP && m > 0 ==> s.tick + m < s.next)
            && StepTick(s, n).tick <= s.next
  {
  }

  /** Whoever is due is due in a turn of the counter that no list stands for any more. */
  lemma StepTickWraps(s: State, now: nat, due: map<Task, nat>, n: nat, t: Task)
    requires Inv(s, now, due) && Asserted(s, n) && s.tick + Moved(s, n) >= WRAP && t in due
    ensures !Inv(StepTick(s, n), now + Moved(s, n), due)
  {
    StepTickDigits(s, now, n);
    var base := now - s.tick;
    var v := if due[t] < base + WRAP then due[t] - base else due[t] - base - WRAP;
    assert DueAs(Entry(t, v), base, due) != DueAs(Entry(t, v), base + WRAP, due);
  }

  // ---------------------------------------------------------------- the kernel's calls

  /** The lists, uxSchedulerSuspended, xPendedTicks and xPendingReadyList */
  datatype Kernel = Kernel(lists: State, suspended: nat, pended: nat, pending: seq<Task>)

  datatype Call = TickInterrupt | Delay(t: Task, d: nat) | Wakeup(t: Task) | Suspend | Resume | Jump(n: nat)

  /** What a call does, and whom it readies. */
  function Step(k: Kernel, c: Call): (Kernel, seq<Task>) {
    match c
    case TickInterrupt =>
      if k.suspended == 0 then
        var (s, out) := Tick(k.lists);
        (k.(lists := s), out)
      else (k.(pended := (k.pended + 1) % WRAP), [])
    case Delay(t, d) => (k.(lists := Block(k.lists, t, d)), [])
    case Wakeup(t) =>
      if k.suspended == 0 then (k.(lists := Wake(k.lists, t, ResetAfter)), [t])
      else (k.(pending := k.pending + [t]), [])
    case Suspend => (k.(suspended := k.suspended + 1), [])
    case Resume =>
      if k.suspended > 1 then (k.(suspended := k.suspended - 1), [])
      else
        var (s, out) := Replay(Resumed(k.lists, k.pending), k.pended);
        (Kernel(s, 0, 0, []), k.pending + out)
    case Jump(n) =>
      (k.(lists := StepTick(k.lists, n), pended := (k.pended + n - Moved(k.lists, n)) % WRAP), [])
  }

  /** What callers owe: only a task that is not blocked blocks, and only one that has
      not been woken is woken; suspensions are short enough for their ticks to be
      counted, and the counter is not moved beyond the next unblock time. */
  ghost predicate Allowed(k: Kernel, c: Call, due: map<Task, nat>) {
    match c
    case TickInterrupt => k.suspended > 0 ==> k.pended + 1 < WRAP
    case Delay(t, d) => t !in due && t !in k.pending && 0 < d < WRAP
    case Wakeup(t) => t !in k.pending
    case Suspend => true
    case Resume => k.suspended > 0
    case Jump(n) =>
      k.lists.tick + n <= k.lists.next
      && (k.lists.tick + n == k.lists.next ==> k.suspended > 0 && n > 0 && k.pended + 1 < WRAP)
  }

  /** The specification's clock and deadlines. */
  function ClockAfter(k: Kernel, c: Call, now: nat): nat {
    match c
    case TickInterrupt => if k.suspended == 0 then now + 1 else now
    case Resume => if k.suspended > 1 then now else now + k.pended
    case Jump(n) => now + Moved(k.lists, n)
    case _ => now
  }

  function DueAfter(k: Kernel, c: Call, now: nat, due: map<Task, nat>): map<Task, nat> {
    match c
    case TickInterrupt => if k.suspended == 0 then NotDueAt(due, now + 1) else due
    case Delay(t, d) => due[t := now + d]
    case Wakeup(t) => if k.suspended == 0 then due - {t} else due
    case Resume => if k.suspended > 1 then due else ReplayDue(now, due - Members(k.pending), k.pended)
    case _ => due
  }

  ghost predicate NoneTwice(ts: seq<Task>) {
    forall i, j | 0 <= i < j < |ts| :: ts[i] != ts[j]
  }

  ghost predicate Sound(k: Kernel, now: nat, due: map<Task, nat>) {
    && Inv(k.lists, now, due) && k.pended < WRAP && NoneTwice(k.pending)
    && (k.suspended == 0 ==> k.pended == 0 && k.pending == [])
  }

  /** Whom a call readies: by a tick of a running scheduler those that are due at it; by
      the last resume those that were woken meanwhile and those that fell due. */
  ghost predicate Readies(k: Kernel, c: Call, now: nat, due: map<Task, nat>, t: Task) {
    match c
    case TickInterrupt => k.suspended == 0 && t in due && due[t] == now + 1
    case Wakeup(u) => k.suspended == 0 && t == u
    case Resume => k.suspended == 1 && (t in k.pending || (t in due && due[t] <= now + k.pended))
    case _ => false
  }

  /** Every call keeps the lists in step with the deadlines, and readies exactly those
      it should, once each. */
  lemma StepSound(k: Kernel, now: nat, due: map<Task, nat>, c: Call)
    requires Sound(k, now, due) && Allowed(k, c, due)
    ensures Sound(Step(k, c).0, ClockAfter(k, c, now), DueAfter(k, c, now, due))
    ensures forall t :: multiset(Step(k, c).1)[t] == if Readies(k, c, now, due, t) then 1 else 0
  {
    hide Inv, Tick, Block, Wake, Replay, ReplayDue, Resumed;
    match c
    case TickInterrupt =>
      if k.suspended == 0 {
        TickInv(k.lists, now, due);
      }
    case Delay(t, d) => BlockInv(k.lists, now, due, t, d);
    case Wakeup(t) => WakeInv(k.lists, now, due, t, ResetAfter);
    case Suspend =>
    case Resume => ResumeSound(k, now, due);
    case Jump(n) => JumpSound(k, now, due, n);
  }

  lemma ResumeSound(k: Kernel, now: nat, due: map<Task, nat>)
    requires Sound(k, now, due) && k.suspended > 0
    ensures Sound(Step(k, Resume).0, ClockAfter(k, Resume, now), DueAfter(k, Resume, now, due))
    ensures forall t :: multiset(Step(k, Resume).1)[t] == if Readies(k, Resume, now, due, t) then 1 else 0
  {
    hide Inv, Replay, ReplayDue, Resumed;
    if k.suspended == 1 {
      var due1 := due - Members(k.pending);
      ResumedInv(k.lists, now, due, k.pending);
      ReplayInv(Resumed(k.lists, k.pending), now, due1, k.pended);
      ReplayReadiesWhatFellDue(Resumed(k.lists, k.pending), now, due1, k.pended);
      forall t
        ensures multiset(k.pending)[t] == if t in k.pending then 1 else 0
      {
        OnceEach(k.pending, t);
      }
    }
  }

  lemma {:induction false} OnceEach(ts: seq<Task>, t: Task)
    requires NoneTwice(ts)
    ensures multiset(ts)[t] == if t in ts then 1 else 0
  {
    if ts != [] {
      assert ts == [ts[0]] + ts[1..];
      OnceEach(ts[1..], t);
    }
  }

  lemma JumpSound(k: Kernel, now: nat, due: map<Task, nat>, n: nat)
    requires Sound(k, now, due) && Allowed(k, Jump(n), due)
    ensures Sound(Step(k, Jump(n)).0, now + Moved(k.lists, n), due)
  {
    NextBelowWrap(k.lists, now, due);
    StepTickExact(k.lists, now, due, n);
    hide Inv;
  }

  lemma NextBelowWrap(s: State, now: nat, due: map<Task, nat>)
    requires Inv(s, now, due)
    ensures s.next < WRAP && s.tick < WRAP
  {
  }

  // ---------------------------------------------------------------- runs

  ghost predicate AllowedRun(k: Kernel, cs: seq<Call>, now: nat, due: map<Task, nat>)
    decreases |cs|
  {
    cs != [] ==>
      Allowed(k, cs[0], due) && AllowedRun(Step(k, cs[0]).0, cs[1..], ClockAfter(k, cs[0], now), DueAfter(k, cs[0], now, due))
  }

  function Run(k: Kernel, cs: seq<Call>): Kernel
    decreases |cs|
  {
    if cs == [] then k else Run(Step(k, cs[0]).0, cs[1..])
  }

  function RunClock(k: Kernel, cs: seq<Call>, now: nat): nat
    decreases |cs|
  {
    if cs == [] then now else RunClock(Step(k, cs[0]).0, cs[1..], ClockAfter(k, cs[0], now))
  }

  function RunDue(k: Kernel, cs: seq<Call>, now: nat, due: map<Task, nat>): map<Task, nat>
    decreases |cs|
  {
    if cs == [] then due
    else RunDue(Step(k, cs[0]).0, cs[1..], ClockAfter(k, cs[0], now), DueAfter(k, cs[0], now, due))
  }

  /** Calls that leave task `t` to its time-out. */
  ghost predicate LeavesAlone(cs: seq<Call>, t: Task) {
    forall i | 0 <= i < |cs| :: !(cs[i].Delay? && cs[i].t == t) && !(cs[i].Wakeup? && cs[i].t == t)
  }

  /** The ticks that a call brings, by what the tick interrupt and the caller of
      vTaskStepTick say. */
  function TicksOf(c: Call): nat {
    match c
    case TickInterrupt => 1
    case Jump(n) => n
    case _ => 0
  }

  function Ticks(cs: seq<Call>): nat {
    if cs == [] then 0 else TicksOf(cs[0]) + Ticks(cs[1..])
  }

  /** No tick is lost and none is made up: over every run the clock and the ticks held
      back add up to the ticks that came. */
  lemma {:induction false} NoTickIsLost(k: Kernel, now: nat, due: map<Task, nat>, cs: seq<Call>)
    requires Sound(k, now, due) && AllowedRun(k, cs, now, due)
    ensures RunClock(k, cs, now) + Run(k, cs).pended == now + k.pended + Ticks(cs)
    decreases |cs|
  {
    hide Inv, Step, DueAfter, ClockAfter, Allowed, Sound;
    if cs != [] {
      StepSound(k, now, due, cs[0]);
      StepKeepsTicks(k, now, due, cs[0]);
      NoTickIsLost(Step(k, cs[0]).0, ClockAfter(k, cs[0], now), DueAfter(k, cs[0], now, due), cs[1..]);
    }
  }

  lemma StepKeepsTicks(k: Kernel, now: nat, due: map<Task, nat>, c: Call)
    requires Sound(k, now, due) && Allowed(k, c, due)
    ensures ClockAfter(k, c, now) + Step(k, c).0.pended == now + k.pended + TicksOf(c)
  {
    NextBelowWrap(k.lists, now, due);
    hide Inv, Tick, Block, Wake, Replay, Resumed, StepTick;
  }

  /** How a run changes the number of suspensions. */
  function Nesting(cs: seq<Call>): int {
    if cs == [] then 0 else (if cs[0].Suspend? then 1 else if cs[0].Resume? then -1 else 0) + Nesting(cs[1..])
  }

  /** Suspensions nest: the scheduler runs again when there were as many resumes. */
  lemma {:induction false} SuspensionsNest(k: Kernel, now: nat, due: map<Task, nat>, cs: seq<Call>)
    requires AllowedRun(k, cs, now, due)
    ensures Run(k, cs).suspended == k.suspended + Nesting(cs)
    decreases |cs|
  {
    if cs != [] {
      StepNests(k, cs[0], due);
      hide Step, DueAfter, ClockAfter, Allowed;
      SuspensionsNest(Step(k, cs[0]).0, ClockAfter(k, cs[0], now), DueAfter(k, cs[0], now, due), cs[1..]);
    }
  }

  lemma StepNests(k: Kernel, c: Call, due: map<Task, nat>)
    requires Allowed(k, c, due)
    ensures Step(k, c).0.suspended == k.suspended + if c.Suspend? then 1 else if c.Resume? then -1 else 0
  {
  }

  /** A task with deadline `at` that is left alone, over any run of ticks, delays,
      wake-ups, suspensions, resumes and jumps, `time` being the ticks that came: it
      is blocked as long as the time is below `at`, and while the scheduler runs just
      as long; it is readied by a tick of a running scheduler exactly if that is tick
      `at`, by a resume exactly if it is still blocked, the resume is the last one and
      `at` has come, and by nothing else. */
  lemma {:induction false} ReadiedWhenDueOrOnResume(k: Kernel, now: nat, due: map<Task, nat>, cs: seq<Call>, c: Call, t: Task, at: nat)
    requires Sound(k, now, due) && AllowedRun(k, cs + [c], now, due) && LeavesAlone(cs + [c], t) && t !in k.pending
    requires if t in due then due[t] == at else at <= now
    ensures var k', due' := Run(k, cs), RunDue(k, cs, now, due);
            var time := now + k.pended + Ticks(cs);
            && Sound(k', RunClock(k, cs, now), due')
            && (t in due' ==> due'[t] == at) && (time < at ==> t in due') && (k'.suspended == 0 ==> (t in due' <==> time < at))
            && (t in Step(k', c).1 <==>
                  t in due' && if c.TickInterrupt? then k'.suspended == 0 && time + 1 == at
                               else c.Resume? && k'.suspended == 1 && at <= time)
    decreases |cs|
  {
    AllowedFirst(k, cs, c, now, due);
    NoTickIsLost(k, now, due, cs);
    ReadiedByTheClock(k, now, due, cs, c, t, at);
    hide Inv, Step, DueAfter;
  }

  lemma {:induction false} AllowedFirst(k: Kernel, cs: seq<Call>, c: Call, now: nat, due: map<Task, nat>)
    requires AllowedRun(k, cs + [c], now, due)
    ensures AllowedRun(k, cs, now, due)
    decreases |cs|
  {
    hide Step, DueAfter, ClockAfter, Allowed;
    if cs != [] {
      assert (cs + [c])[0] == cs[0] && (cs + [c])[1..] == cs[1..] + [c];
      AllowedFirst(Step(k, cs[0]).0, cs[1..], c, ClockAfter(k, cs[0], now), DueAfter(k, cs[0], now, due));
    }
  }

  /** The same by the kernel's clock and its ticks held back. */
  lemma {:induction false} ReadiedByTheClock(k: Kernel, now: nat, due: map<Task, nat>, cs: seq<Call>, c: Call, t: Task, at: nat)
    requires Sound(k, now, due) && AllowedRun(k, cs + [c], now, due) && LeavesAlone(cs + [c], t) && t !in k.pending
    requires if t in due then due[t] == at else at <= now
    ensures var k', now', due' := Run(k, cs), RunClock(k, cs, now), RunDue(k, cs, now, due);
            && Sound(k', now', due')
            && (t in due' <==> now' < at) && (t in due' ==> due'[t] == at)
            && (t in Step(k', c).1 <==>
                  now' < at && if c.TickInterrupt? then k'.suspended == 0 && now' + 1 == at
                               else c.Resume? && k'.suspended == 1 && at <= now' + k'.pended)
    decreases |cs|
  {
    hide Inv, Step, DueAfter;
    var all := cs + [c];
    StepSound(k, now, due, all[0]);
    StaysDue(k, now, due, all[0], t, at);
    if cs == [] {
      assert t in Step(k, c).1 <==> multiset(Step(k, c).1)[t] > 0;
    } else {
      assert all[0] == cs[0] && all[1..] == cs[1..] + [c];
      assert LeavesAlone(cs[1..] + [c], t);
      ReadiedByTheClock(Step(k, cs[0]).0, ClockAfter(k, cs[0], now), DueAfter(k, cs[0], now, due), cs[1..], c, t, at);
    }
  }

  /** One step of that. */
  lemma StaysDue(k: Kernel, now: nat, due: map<Task, nat>, c: Call, t: Task, at: nat)
    requires Sound(k, now, due) && Allowed(k, c, due) && LeavesAlone([c], t) && t !in k.pending
    requires if t in due then due[t] == at else at <= now
    ensures t in due <==> now < at
    ensures var now', due' := ClockAfter(k, c, now), DueAfter(k, c, now, due);
            && (if t in due' then due'[t] == at else at <= now') && t !in Step(k, c).0.pending
  {
    assert [c][0] == c;
    DueAhead(k.lists, now, due);
    hide Inv, Tick, Block, Wake, Replay, Resumed;
    if c.Resume? && k.suspended == 1 {
      ReplayDueIs(now, due - Members(k.pending), k.pended);
    }
  }

  /** The scheduler stays suspended throughout a run. */
  ghost predicate StaysSuspended(k: Kernel, cs: seq<Call>)
    decreases |cs|
  {
    k.suspended > 0 && (cs != [] ==> StaysSuspended(Step(k, cs[0]).0, cs[1..]))
  }

  /** A task woken while the scheduler is suspended is readied by the last resume. */
  lemma WokenOnResume(k: Kernel, t: Task, cs: seq<Call>)
    requires k.suspended > 0
    requires StaysSuspended(Step(k, Wakeup(t)).0, cs) && Run(Step(k, Wakeup(t)).0, cs).suspended == 1
    ensures t in Step(Run(Step(k, Wakeup(t)).0, cs), Resume).1
    ensures Step(k, Wakeup(t)).0.lists == k.lists && t !in Step(k, Wakeup(t)).1
  {
    StaysPending(Step(k, Wakeup(t)).0, t, cs);
    hide Replay, Resumed, Run, StaysSuspended;
  }

  lemma {:induction false} StaysPending(k: Kernel, t: Task, cs: seq<Call>)
    requires StaysSuspended(k, cs) && t in k.pending
    ensures t in Run(k, cs).pending
    decreases |cs|
  {
    if cs != [] {
      KeepsPending(k, t, cs[0]);
      hide Step;
      StaysPending(Step(k, cs[0]).0, t, cs[1..]);
    }
  }

  lemma KeepsPending(k: Kernel, t: Task, c: Call)
    requires t in k.pending && k.suspended > 0 && Step(k, c).0.suspended > 0
    ensures t in Step(k, c).0.pending
  {
  }
}
