/** The tick count and the two delayed lists of tasks.c.

    The kernel's clock is a 32-bit counter.  A task that blocks for `d` ticks is
    kept under its wake tick modulo 2^32, in one of two lists that change places
    each time the counter wraps.  The specification counts ticks without bound:
    `due` says, for every task blocked with a time-out, the absolute tick at which
    it has to be readied.  `Inv` relates the two. */
module DelayedLists {
  import opened ListSpec

  /** One more than the largest TickType_t value. */
  const WRAP: nat := 0x1_0000_0000

  type Task = nat

  /** xTickCount, pxDelayedTaskList, pxOverflowDelayedTaskList, xNextTaskUnblockTime */
  datatype State = State(tick: nat, delayed: seq<Entry<Task>>, overflow: seq<Entry<Task>>, next: nat)

  // ---------------------------------------------------------------- lists of wake times

  /** The list holds, once each, exactly the tasks due in the 2^32 ticks from `base`. */
  ghost predicate Represents(s: seq<Entry<Task>>, base: nat, due: map<Task, nat>) {
    forall e: Entry<Task> :: Count(s, e) == if DueAs(e, base, due) then 1 else 0
  }

  function Count(s: seq<Entry<Task>>, e: Entry<Task>): nat {
    multiset(s)[e]
  }

  ghost predicate DueAs(e: Entry<Task>, base: nat, due: map<Task, nat>) {
    e.value < WRAP && e.owner in due && due[e.owner] == base + e.value
  }

  lemma {:induction false} WithoutCounts(s: seq<Entry<Task>>, t: Task)
    ensures forall e: Entry<Task> :: Count(Without(s, t), e) == if e.owner == t then 0 else Count(s, e)
  {
    if s != [] {
      WithoutCounts(s[1..], t);
      assert s == [s[0]] + s[1..];
    }
  }

  function Owners(s: seq<Entry<Task>>): seq<Task> {
    seq(|s|, i requires 0 <= i < |s| => s[i].owner)
  }

  // ---------------------------------------------------------------- the steps

  /** prvResetNextTaskUnblockTime */
  function HeadValue(s: seq<Entry<Task>>): nat {
    if s == [] then MAX_DELAY else s[0].value
  }

  /** prvAddCurrentTaskToDelayedList for a task that can time out. */
  function Block(s: State, t: Task, d: nat): State {
    var wake := (s.tick + d) % WRAP;
    if wake < s.tick then
      s.(overflow := Insert(s.overflow, Entry(t, wake)))
    else
      s.(delayed := Insert(s.delayed, Entry(t, wake)), next := if wake < s.next then wake else s.next)
  }

  /** When a caller that wakes a task recomputes xNextTaskUnblockTime. */
  datatype Recalc = ResetAfter | ResetBefore | NoReset

  /** A blocked task leaves its delayed list for another reason than its time-out. */
  function Wake(s: State, t: Task, r: Recalc): State {
    var d, o := Without(s.delayed, t), Without(s.overflow, t);
    State(s.tick, d, o,
          match r
          case ResetAfter => HeadValue(d)
          case ResetBefore => HeadValue(s.delayed)
          case NoReset => s.next)
  }

  /** taskSWITCH_DELAYED_LISTS, when the counter wraps. */
  function Switch(s: State): State {
    State(s.tick, s.overflow, s.delayed, HeadValue(s.overflow))
  }

  /** The counter of xTaskIncrementTick, with the list switch. */
  function Advance(s: State): State {
    var t := (s.tick + 1) % WRAP;
    if t == 0 then Switch(s.(tick := t)) else s.(tick := t)
  }

  /** The expiry part of xTaskIncrementTick: entries that are no longer in the future leave. */
  function Expire(s: State): (r: (State, seq<Task>)) {
    if s.tick >= s.next then
      var k := InsertPos(s.delayed, s.tick);
      (s.(delayed := s.delayed[k..], next := HeadValue(s.delayed[k..])), Owners(s.delayed[..k]))
    else
      (s, [])
  }

  function Tick(s: State): (State, seq<Task>) {
    Expire(Advance(s))
  }

  // ---------------------------------------------------------------- the invariant

  ghost predicate Inv(s: State, now: nat, due: map<Task, nat>) {
    && Lists(s, now, due)
    && (s.delayed != [] ==> s.tick < s.delayed[0].value)
    && s.tick <= s.next
  }

  ghost predicate Lists(s: State, now: nat, due: map<Task, nat>) {
    && s.tick == now % WRAP
    && Sorted(s.delayed) && Sorted(s.overflow)
    && Represents(s.delayed, now - s.tick, due)
    && Represents(s.overflow, now - s.tick + WRAP, due)
    && (forall t | t in due :: now - s.tick <= due[t] < now - s.tick + 2 * WRAP)
    && NextBounds(s)
  }

  /** xNextTaskUnblockTime never exceeds the head of the delayed list. */
  ghost predicate NextBounds(s: State) {
    s.next <= HeadValue(s.delayed) < WRAP
  }

  lemma InitInv()
    ensures Inv(State(0, [], [], MAX_DELAY), 0, map[])
  {
  }

  lemma RepresentsInsert(s: seq<Entry<Task>>, base: nat, due: map<Task, nat>, e: Entry<Task>)
    requires Sorted(s) && Represents(s, base, due) && e.owner !in due && e.value < WRAP
    ensures Represents(Insert(s, e), base, due[e.owner := base + e.value])
    ensures Sorted(Insert(s, e)) && Insert(s, e) != []
    ensures HeadValue(Insert(s, e)) == if s == [] || e.value < s[0].value then e.value else s[0].value
  {
    InsertSorts(s, e);
    forall f: Entry<Task>
      ensures Count(Insert(s, e), f) == Count(s, f) + if f == e then 1 else 0
    {
    }
  }

  lemma RepresentsElsewhere(s: seq<Entry<Task>>, base: nat, due: map<Task, nat>, t: Task, at: nat)
    requires Represents(s, base, due) && t !in due && !(base <= at < base + WRAP)
    ensures Represents(s, base, due[t := at])
  {
  }

  /** Blocking for `d` ticks makes the task due exactly `d` ticks from now. */
  lemma BlockInv(s: State, now: nat, due: map<Task, nat>, t: Task, d: nat)
    requires Inv(s, now, due) && t !in due && 0 < d < WRAP
    ensures Inv(Block(s, t, d), now, due[t := now + d])
  {
    hide Represents, Sorted, Insert;
    var base := now - s.tick;
    var e := Entry(t, (s.tick + d) % WRAP);
    assert s.tick + d == if e.value < s.tick then e.value + WRAP else e.value;
    if e.value < s.tick {
      RepresentsInsert(s.overflow, base + WRAP, due, e);
      RepresentsElsewhere(s.delayed, base, due, t, now + d);
    } else {
      RepresentsInsert(s.delayed, base, due, e);
      RepresentsElsewhere(s.overflow, base + WRAP, due, t, now + d);
    }
  }

  lemma RepresentsWithout(s: seq<Entry<Task>>, base: nat, due: map<Task, nat>, t: Task)
    requires Represents(s, base, due)
    ensures Represents(Without(s, t), base, due - {t})
  {
    WithoutCounts(s, t);
  }

  lemma WithoutHead(s: seq<Entry<Task>>, t: Task)
    requires Sorted(s)
    ensures s == [] ==> Without(s, t) == []
    ensures Without(s, t) != [] ==> HeadValue(s) <= HeadValue(Without(s, t))
  {
  }

  /** A task woken early is due no more; nobody else is affected. */
  lemma WakeInv(s: State, now: nat, due: map<Task, nat>, t: Task, r: Recalc)
    requires Inv(s, now, due)
    ensures Inv(Wake(s, t, r), now, due - {t})
  {
    hide Represents, Sorted, Without;
    var d := Without(s.delayed, t);
    WithoutHead(s.delayed, t);
    WithoutKeeps(s.delayed, t);
    WithoutKeeps(s.overflow, t);
    RepresentsWithout(s.delayed, now - s.tick, due, t);
    RepresentsWithout(s.overflow, now - s.tick + WRAP, due, t);
    HeadBounds(d, now - s.tick, due - {t});
  }

  lemma HeadBounds(s: seq<Entry<Task>>, base: nat, due: map<Task, nat>)
    requires Represents(s, base, due)
    ensures HeadValue(s) < WRAP
    ensures HeadValue(s) <= MAX_DELAY
  {
    if s != [] {
      assert Count(s, s[0]) > 0;
    }
  }

  /** When the counter wraps every task of the current list has been readied already. */
  lemma SwitchFindsEmpty(s: State, now: nat, due: map<Task, nat>)
    requires Inv(s, now, due) && (s.tick + 1) % WRAP == 0
    ensures s.delayed == []
  {
  }

  /** A tick readies, once each, exactly the tasks that are due at it. */
  lemma TickInv(s: State, now: nat, due: map<Task, nat>)
    requires Inv(s, now, due)
    ensures var (s', out) := Tick(s);
            && (forall t :: multiset(out)[t] == if t in due && due[t] == now + 1 then 1 else 0)
            && Inv(s', now + 1, NotDueAt(due, now + 1))
  {
    AdvanceLists(s, now, due);
    ExpireInv(Advance(s), now + 1, due);
  }

  function NotDueAt(due: map<Task, nat>, at: nat): map<Task, nat> {
    map t | t in due && due[t] != at :: due[t]
  }

  lemma AdvanceLists(s: State, now: nat, due: map<Task, nat>)
    requires Inv(s, now, due)
    ensures Lists(Advance(s), now + 1, due)
    ensures var a := Advance(s); a.delayed != [] ==> a.tick <= a.delayed[0].value
  {
    if (s.tick + 1) % WRAP == 0 {
      SwitchFindsEmpty(s, now, due);
      SwitchLists(s, now, due);
    }
    hide Represents, Sorted, Count, HeadValue;
  }

  /** The lists change places: the old list stands for the turn after the new one. */
  lemma SwitchLists(s: State, now: nat, due: map<Task, nat>)
    requires Lists(s, now, due) && (s.tick + 1) % WRAP == 0 && s.delayed == []
    ensures Lists(Switch(s.(tick := 0)), now + 1, due)
  {
    hide Represents, Sorted;
    assert s.tick == WRAP - 1 && (now + 1) % WRAP == 0;
    HeadBounds(s.overflow, now + 1, due);
    NothingRepresented(now + 1 - WRAP, due);
    RepresentsNothing(now + 1 + WRAP, due);
  }

  lemma NothingRepresented(base: nat, due: map<Task, nat>)
    requires Represents([], base, due)
    ensures forall t | t in due :: !(base <= due[t] < base + WRAP)
  {
    assert forall e: Entry<Task> :: Count([], e) == 0;
    forall t | t in due
      ensures !(base <= due[t] < base + WRAP)
    {
      assert !DueAs(Entry(t, if base <= due[t] then due[t] - base else WRAP), base, due);
    }
  }

  lemma RepresentsEmpty(s: seq<Entry<Task>>, base: nat)
    requires Represents(s, base, map[])
    ensures s == []
  {
    HeadCounts(s);
  }

  lemma HeadCounts(s: seq<Entry<Task>>)
    ensures s != [] ==> Count(s, s[0]) > 0
  {
  }

  lemma RepresentsNothing(base: nat, due: map<Task, nat>)
    requires forall t | t in due :: due[t] < base
    ensures Represents([], base, due)
  {
  }

  lemma ExpireInv(a: State, now: nat, due: map<Task, nat>)
    requires Lists(a, now, due)
    requires a.delayed != [] ==> a.tick <= a.delayed[0].value
    ensures var (s', out) := Expire(a);
            && (forall t :: multiset(out)[t] == if t in due && due[t] == now then 1 else 0)
            && Inv(s', now, NotDueAt(due, now))
  {
    hide Represents, Sorted, InsertPos;
    var base := now - a.tick;
    var k := if a.tick >= a.next then InsertPos(a.delayed, a.tick) else 0;
    var gone, d := a.delayed[..k], a.delayed[k..];
    ExpireSplits(a.delayed, a.tick, k);
    ExpireCounts(gone, d, a.tick, base, due);
    HeadBounds(d, base, NotDueAt(due, now));
    RepresentsLater(a.overflow, base + WRAP, due, now);
    var (s', out) := Expire(a);
    assert s'.delayed == d && out == Owners(gone) && s'.overflow == a.overflow && s'.tick == a.tick;
    assert NextBounds(s');
  }

  lemma RepresentsLater(s: seq<Entry<Task>>, base: nat, due: map<Task, nat>, now: nat)
    requires Represents(s, base, due) && now < base
    ensures Represents(s, base, NotDueAt(due, now))
  {
  }

  lemma ExpireSplits(s: seq<Entry<Task>>, tick: nat, k: nat)
    requires Sorted(s) && k <= |s| && (s != [] ==> tick <= s[0].value)
    requires k == InsertPos(s, tick) || (k == 0 && (s != [] ==> tick < s[0].value))
    ensures s == s[..k] + s[k..] && Sorted(s[k..])
    ensures forall i | 0 <= i < k :: s[..k][i].value == tick
    ensures s[k..] != [] ==> tick < s[k..][0].value
  {
    hide InsertPos;
    var d := s[k..];
    assert forall i | 0 <= i < |d| :: d[i] == s[k + i];
    assert Sorted(d);
  }

  lemma ExpireCounts(gone: seq<Entry<Task>>, d: seq<Entry<Task>>, tick: nat, base: nat, due: map<Task, nat>)
    requires tick < WRAP && Represents(gone + d, base, due)
    requires forall i | 0 <= i < |gone| :: gone[i].value == tick
    requires Sorted(d) && (d != [] ==> tick < d[0].value)
    ensures Represents(d, base, NotDueAt(due, base + tick))
    ensures forall t :: multiset(Owners(gone))[t] == if t in due && due[t] == base + tick then 1 else 0
  {
    CountsSplit(gone, d, tick);
    OwnersCount(gone, tick);
    ExpireCountsDue(gone, d, tick, base, due);
  }

  lemma ExpireCountsDue(gone: seq<Entry<Task>>, d: seq<Entry<Task>>, tick: nat, base: nat, due: map<Task, nat>)
    requires tick < WRAP && Represents(gone + d, base, due)
    requires forall e: Entry<Task> :: Count(gone, e) == if e.value == tick then Count(gone + d, e) else 0
    requires forall e: Entry<Task> :: Count(d, e) == if e.value == tick then 0 else Count(gone + d, e)
    requires forall t :: multiset(Owners(gone))[t] == Count(gone, Entry(t, tick))
    ensures Represents(d, base, NotDueAt(due, base + tick))
    ensures forall t :: multiset(Owners(gone))[t] == if t in due && due[t] == base + tick then 1 else 0
  {
  }

  lemma CountsSplit(gone: seq<Entry<Task>>, d: seq<Entry<Task>>, tick: nat)
    requires forall i | 0 <= i < |gone| :: gone[i].value == tick
    requires Sorted(d) && (d != [] ==> tick < d[0].value)
    ensures forall e: Entry<Task> :: Count(gone, e) == if e.value == tick then Count(gone + d, e) else 0
    ensures forall e: Entry<Task> :: Count(d, e) == if e.value == tick then 0 else Count(gone + d, e)
  {
    forall e: Entry<Task>
      ensures e.value != tick ==> Count(gone, e) == 0
      ensures e.value == tick ==> Count(d, e) == 0
    {
      assert Count(gone, e) > 0 ==> e in gone;
      assert Count(d, e) > 0 ==> e in d;
    }
  }

  lemma {:induction false} OwnersCount(s: seq<Entry<Task>>, v: nat)
    requires forall i | 0 <= i < |s| :: s[i].value == v
    ensures forall t :: multiset(Owners(s))[t] == Count(s, Entry(t, v))
  {
    if s != [] {
      OwnersCount(s[1..], v);
      assert s == [s[0]] + s[1..];
      assert Owners(s) == [s[0].owner] + Owners(s[1..]);
    }
  }

  // ---------------------------------------------------------------- runs

  datatype Event = Ticks | Blocks(t: Task, d: nat) | Wakes(t: Task, r: Recalc)

  /** What a caller owes: only a task that is not blocked blocks, for at least one tick. */
  ghost predicate Allowed(e: Event, due: map<Task, nat>) {
    e.Blocks? ==> e.t !in due && 0 < e.d < WRAP
  }

  function Step(s: State, e: Event): (State, seq<Task>) {
    match e
    case Ticks => Tick(s)
    case Blocks(t, d) => (Block(s, t, d), [])
    case Wakes(t, r) => (Wake(s, t, r), [])
  }

  /** The same step on the specification's clock and table of deadlines. */
  function IdealNow(e: Event, now: nat): nat {
    if e.Ticks? then now + 1 else now
  }

  function IdealDue(e: Event, now: nat, due: map<Task, nat>): map<Task, nat> {
    match e
    case Ticks => NotDueAt(due, now + 1)
    case Blocks(t, d) => due[t := now + d]
    case Wakes(t, _) => due - {t}
  }

  ghost predicate AllowedRun(es: seq<Event>, now: nat, due: map<Task, nat>) {
    es != [] ==>
      Allowed(es[0], due) && AllowedRun(es[1..], IdealNow(es[0], now), IdealDue(es[0], now, due))
  }

  /** The state after a run. */
  function Run(s: State, es: seq<Event>): State
    decreases |es|
  {
    if es == [] then s else Run(Step(s, es[0]).0, es[1..])
  }

  function RunNow(now: nat, es: seq<Event>): nat
    decreases |es|
  {
    if es == [] then now else RunNow(IdealNow(es[0], now), es[1..])
  }

  function RunDue(now: nat, due: map<Task, nat>, es: seq<Event>): map<Task, nat>
    decreases |es|
  {
    if es == [] then due else RunDue(IdealNow(es[0], now), IdealDue(es[0], now, due), es[1..])
  }

  lemma StepInv(s: State, now: nat, due: map<Task, nat>, e: Event)
    requires Inv(s, now, due) && Allowed(e, due)
    ensures Inv(Step(s, e).0, IdealNow(e, now), IdealDue(e, now, due))
    ensures forall t :: multiset(Step(s, e).1)[t] == if e.Ticks? && t in due && due[t] == now + 1 then 1 else 0
  {
    hide Inv, Tick, Block, Wake;
    match e
    case Ticks => TickInv(s, now, due);
    case Blocks(t, d) => BlockInv(s, now, due, t, d);
    case Wakes(t, r) => WakeInv(s, now, due, t, r);
  }

  /** The kernel's lists stand for the deadlines of the specification along every run. */
  lemma {:induction false} RunInv(s: State, now: nat, due: map<Task, nat>, es: seq<Event>)
    requires Inv(s, now, due) && AllowedRun(es, now, due)
    ensures Inv(Run(s, es), RunNow(now, es), RunDue(now, due, es))
    decreases |es|
  {
    hide Inv, Step;
    if es != [] {
      StepInv(s, now, due, es[0]);
      RunInv(Step(s, es[0]).0, IdealNow(es[0], now), IdealDue(es[0], now, due), es[1..]);
    }
  }

  /** Events that leave task `t` to its time-out. */
  ghost predicate LeavesAlone(es: seq<Event>, t: Task) {
    forall i | 0 <= i < |es| :: es[i].Ticks? || es[i].t != t
  }

  /** A blocked task left to its time-out stays blocked while its tick is ahead,
      and the next event readies it just when that event is the tick it waits for. */
  lemma {:induction false} ReadiedExactlyWhenDue(s: State, now: nat, due: map<Task, nat>, es: seq<Event>, t: Task, e: Event)
    requires Inv(s, now, due) && AllowedRun(es + [e], now, due)
    requires LeavesAlone(es + [e], t) && t in due && now < due[t]
    ensures var now', due' := RunNow(now, es), RunDue(now, due, es);
            && (t in due' <==> now' < due[t])
            && (t in due' ==> due'[t] == due[t])
            && (t in Step(Run(s, es), e).1 <==> e.Ticks? && now' + 1 == due[t])
    decreases |es|
  {
    hide Inv, Step;
    var all := es + [e];
    if es == [] {
      assert all[0] == e;
      StepInv(s, now, due, e);
      assert t in Step(s, e).1 <==> multiset(Step(s, e).1)[t] > 0;
    } else {
      assert all[0] == es[0] && all[1..] == es[1..] + [e];
      StepInv(s, now, due, es[0]);
      var s1, now1, due1 := Step(s, es[0]).0, IdealNow(es[0], now), IdealDue(es[0], now, due);
      assert LeavesAlone(es[1..] + [e], t);
      if now1 < due[t] {
        ReadiedExactlyWhenDue(s1, now1, due1, es[1..], t, e);
      } else {
        NotDueStays(s1, now1, due1, es[1..], t, e);
      }
    }
  }

  /** A task that is not blocked is readied by no event but its own. */
  lemma {:induction false} NotDueStays(s: State, now: nat, due: map<Task, nat>, es: seq<Event>, t: Task, e: Event)
    requires Inv(s, now, due) && AllowedRun(es + [e], now, due)
    requires LeavesAlone(es + [e], t) && t !in due
    ensures t !in RunDue(now, due, es) && t !in Step(Run(s, es), e).1
    ensures now <= RunNow(now, es)
    decreases |es|
  {
    hide Inv, Step;
    var all := es + [e];
    if es == [] {
      assert all[0] == e;
      StepInv(s, now, due, e);
      assert t in Step(s, e).1 <==> multiset(Step(s, e).1)[t] > 0;
    } else {
      assert all[0] == es[0] && all[1..] == es[1..] + [e];
      StepInv(s, now, due, es[0]);
      assert LeavesAlone(es[1..] + [e], t);
      NotDueStays(Step(s, es[0]).0, IdealNow(es[0], now), IdealDue(es[0], now, due), es[1..], t, e);
    }
  }

  // ---------------------------------------------------------------- xTaskDelayUntil

  /** The decision of xTaskDelayUntil on 32-bit values: whether to delay, and the
      new value of the caller's wake time variable. */
  function DelayUntil(tick: nat, prev: nat, inc: nat): (bool, nat) {
    var wake := (prev + inc) % WRAP;
    var delay := if tick < prev then wake < prev && wake > tick else wake < prev || wake > tick;
    (delay, wake)
  }

  /** Exactly what that decision means: with the last wake time at absolute tick
      `p` and the call at `n`, the task is delayed iff its next wake time is ahead,
      counted as if less than 2^32 ticks had passed since `p`. */
  lemma DelayUntilExact(n: nat, p: nat, inc: nat)
    requires p <= n && 0 < inc < WRAP
    ensures var (delay, wake) := DelayUntil(n % WRAP, p % WRAP, inc);
            && wake == (p + inc) % WRAP
            && (delay <==> (n - p) % WRAP < inc)
            && (delay && n - p < WRAP ==> (wake - n % WRAP) % WRAP == p + inc - n)
  {
    var x, y, k := p % WRAP, n % WRAP, n / WRAP - p / WRAP;
    assert n - p == y - x + k * WRAP;
    ModShift(y - x, k);
    ModShift(x + inc, p / WRAP);
    assert p + inc == x + inc + p / WRAP * WRAP;
    DelayUntilDigits(y, x, inc);
    if n - p < WRAP && (y - x) % WRAP < inc {
      assert n - p == (y - x) % WRAP;
    }
  }

  /** The case analysis of xTaskDelayUntil. */
  lemma DelayUntilDigits(y: nat, x: nat, inc: nat)
    requires x < WRAP && y < WRAP && 0 < inc < WRAP
    ensures var (delay, wake) := DelayUntil(y, x, inc);
            && wake == (if x + inc < WRAP then x + inc else x + inc - WRAP)
            && (delay <==> (y - x) % WRAP < inc)
            && (delay ==> (wake - y) % WRAP == inc - (y - x) % WRAP)
  {
  }

  lemma ModShift(x: int, k: int)
    ensures (x + k * WRAP) % WRAP == x % WRAP
  {
  }

  /** One turn of a periodic task: what happens until it is readied, the last
      event being the one that readies it, and what happens while its job runs. */
  datatype Turn = Turn(wait: seq<Event>, last: Event, job: seq<Event>)

  /** What xTaskDelayUntil does with its decision: `s` and its deadlines, with the task blocked if it is to be. */
  function DelayTask(s: State, now: nat, due: map<Task, nat>, t: Task, p: nat, inc: nat): (State, map<Task, nat>) {
    var (delay, wake) := DelayUntil(s.tick, p % WRAP, inc);
    var d := (wake - s.tick) % WRAP;
    if delay then (Block(s, t, d), due[t := now + d]) else (s, due)
  }

  /** A run of a task that calls xTaskDelayUntil each time its job is done, and is
      done each time before its next release is due. */
  ghost predicate InTime(s: State, now: nat, due: map<Task, nat>, t: Task, p: nat, inc: nat, turns: seq<Turn>)
    decreases |turns|
  {
    turns != [] ==>
      && p <= now < p + inc && t !in due
      && var (s1, due1) := DelayTask(s, now, due, t, p, inc);
      && var until, job := turns[0].wait + [turns[0].last], turns[0].job;
      && AllowedRun(until, now, due1) && LeavesAlone(until, t)
      && t in Step(Run(s1, turns[0].wait), turns[0].last).1
      && var s2, now2, due2 := Run(s1, until), RunNow(now, until), RunDue(now, due1, until);
      && AllowedRun(job, now2, due2)
      && InTime(Run(s2, job), RunNow(now2, job), RunDue(now2, due2, job), t, p + inc, inc, turns[1..])
  }

  /** The absolute ticks at which the task is readied. */
  function ReleaseTimes(now: nat, turns: seq<Turn>): seq<nat>
    decreases |turns|
  {
    if turns == [] then [] else
      var at := RunNow(now, turns[0].wait + [turns[0].last]);
      [at] + ReleaseTimes(RunNow(at, turns[0].job), turns[1..])
  }

  /** Such a task is released at p + inc, p + 2 inc, ...: it never drifts, through
      any number of wraps of the counter. */
  lemma {:induction false} PeriodicRelease(s: State, now: nat, due: map<Task, nat>, t: Task, p: nat, inc: nat, turns: seq<Turn>)
    requires Inv(s, now, due) && 0 < inc < WRAP && InTime(s, now, due, t, p, inc, turns)
    ensures |ReleaseTimes(now, turns)| == |turns|
    ensures forall k | 0 <= k < |turns| :: ReleaseTimes(now, turns)[k] == p + (k + 1) * inc
    decreases |turns|
  {
    hide Inv, Block, Step, DelayUntil, AllowedRun, LeavesAlone;
    if turns != [] {
      InvTick(s, now, due);
      DelayUntilExact(now, p, inc);
      var d := (DelayUntil(s.tick, p % WRAP, inc).1 - s.tick) % WRAP;
      assert d == p + inc - now;
      BlockInv(s, now, due, t, d);
      var (s1, due1) := DelayTask(s, now, due, t, p, inc);
      assert s1 == Block(s, t, d) && due1 == due[t := now + d];
      var wait, last := turns[0].wait, turns[0].last;
      ReadiedExactlyWhenDue(s1, now, due1, wait, t, last);
      RunAppend(now, wait, last);
      var until, job := wait + [last], turns[0].job;
      RunInv(s1, now, due1, until);
      var at := RunNow(now, until);
      assert at == p + inc;
      RunInv(Run(s1, until), at, RunDue(now, due1, until), job);
      var rest := ReleaseTimes(RunNow(at, job), turns[1..]);
      PeriodicRelease(Run(Run(s1, until), job), RunNow(at, job), RunDue(at, RunDue(now, due1, until), job), t, p + inc, inc, turns[1..]);
      forall k | 0 <= k < |turns|
        ensures ReleaseTimes(now, turns)[k] == p + (k + 1) * inc
      {
        if k > 0 {
          assert ReleaseTimes(now, turns)[k] == rest[k - 1];
          assert (k + 1) * inc == inc + (k - 1 + 1) * inc;
        }
      }
    }
  }

  lemma InvTick(s: State, now: nat, due: map<Task, nat>)
    requires Inv(s, now, due)
    ensures s.tick == now % WRAP
  {
  }

  lemma {:induction false} RunAppend(now: nat, es: seq<Event>, e: Event)
    ensures RunNow(now, es + [e]) == IdealNow(e, RunNow(now, es))
    decreases |es|
  {
    var all := es + [e];
    if es == [] {
      assert all[0] == e && all[1..] == [];
    } else {
      assert all[0] == es[0] && all[1..] == es[1..] + [e];
      RunAppend(IdealNow(es[0], now), es[1..], e);
    }
  }
}
