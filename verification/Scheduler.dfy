/** The scheduler of tasks.c for several cores.

    Every core runs the task `current[c]`, and every task knows in its run state
    which core runs it, if any.  One core asks another to yield by overwriting the
    run state of the task it runs, and itself by a flag.  A core that switches
    context picks a task from the ready lists.  The properties hold for any number
    of cores and priorities, whether or not tasks of different priorities may run at
    the same time; the shipped configuration has two cores, five priorities and one
    priority at a time, with idle tasks on the cores that are left over. */
module Scheduler {
  import opened Common

  type Task = nat
  type Core = nat

  /** taskTASK_NOT_RUNNING and taskTASK_SCHEDULED_TO_YIELD */
  const NOT_RUNNING := -1
  const SCHEDULED_TO_YIELD := -2

  /** uxPriority, uxCoreAffinityMask, xTaskRunState and the idle bit of uxTaskAttributes */
  datatype Tcb = Tcb(priority: nat, mask: set<Core>, run: int, idle: bool)

  /** The tasks that have not been freed, pxReadyTasksLists, uxTopReadyPriority,
      pxCurrentTCBs, xYieldPendings, xTasksWaitingTermination and whether
      configRUN_MULTIPLE_PRIORITIES is set. */
  datatype State = State(tcbs: map<Task, Tcb>, ready: seq<seq<Task>>, top: int,
                         current: seq<Task>, pending: seq<bool>, terminating: seq<Task>, multiple: bool)

  // ---------------------------------------------------------------- the invariant

  ghost predicate Distinct(s: seq<Task>) {
    forall i, j | 0 <= i < j < |s| :: s[i] != s[j]
  }

  /** No task is current on two cores; the task current on a core has that core as
      its run state or is scheduled to yield; nobody else is running. */
  ghost predicate Mapped(s: State) {
    && |s.pending| == |s.current| > 0
    && (forall c | 0 <= c < |s.current| :: s.current[c] in s.tcbs)
    && (forall c | 0 <= c < |s.current| :: s.tcbs[s.current[c]].run == c || s.tcbs[s.current[c]].run == SCHEDULED_TO_YIELD)
    && Distinct(s.current)
    && (forall t | t in s.tcbs && t !in s.current :: s.tcbs[t].run == NOT_RUNNING)
  }

  /** A task on a core outside its affinity mask has been asked to yield. */
  ghost predicate Outstanding(s: State, c: Core)
    requires c < |s.current| == |s.pending| && s.current[c] in s.tcbs
  {
    c in s.tcbs[s.current[c]].mask || s.pending[c] || s.tcbs[s.current[c]].run == SCHEDULED_TO_YIELD
  }

  ghost predicate MapSafe(s: State) {
    Mapped(s) && forall c | 0 <= c < |s.current| :: Outstanding(s, c)
  }

  /** The ready lists hold tasks of their own priority, each once. */
  ghost predicate Listed(s: State) {
    && |s.ready| > 0
    && (forall p, i | 0 <= p < |s.ready| && 0 <= i < |s.ready[p]| ::
          s.ready[p][i] in s.tcbs && s.tcbs[s.ready[p][i]].priority == p)
    && (forall p | 0 <= p < |s.ready| :: Distinct(s.ready[p]))
    && (forall t | t in s.tcbs :: s.tcbs[t].priority < |s.ready|)
  }

  ghost predicate EmptyAbove(s: State, p: int) {
    forall q | p < q < |s.ready| :: 0 <= q && s.ready[q] == []
  }

  /** uxTopReadyPriority is never below a list with a task on it. */
  ghost predicate TopBounds(s: State) {
    0 <= s.top < |s.ready| && EmptyAbove(s, s.top)
  }

  predicate InReady(s: State, t: Task) {
    t in s.tcbs && s.tcbs[t].priority < |s.ready| && t in s.ready[s.tcbs[t].priority]
  }

  /** Idle tasks are always ready at priority 0 and may run on every core. */
  ghost predicate IdleReady(s: State) {
    forall t | t in s.tcbs && s.tcbs[t].idle ::
      && s.tcbs[t].priority == 0 && InReady(s, t)
      && (forall c | 0 <= c < |s.current| :: c in s.tcbs[t].mask)
  }

  function IdleTasks(s: State): set<Task> {
    set t | t in s.tcbs && s.tcbs[t].idle
  }

  /** One idle task for every core was created when the scheduler started. */
  ghost predicate EnoughIdle(s: State) {
    |IdleTasks(s)| >= |s.current|
  }

  /** Deleted tasks that have not been freed are on no ready list. */
  ghost predicate Deleted(s: State) {
    && Distinct(s.terminating)
    && (forall i | 0 <= i < |s.terminating| :: s.terminating[i] in s.tcbs && !InReady(s, s.terminating[i]))
  }

  ghost predicate Inv(s: State) {
    MapSafe(s) && Shape(s)
  }

  // ---------------------------------------------------------------- asking for a yield

  /** taskTASK_IS_RUNNING */
  predicate IsRunning(s: State, t: Task)
    requires t in s.tcbs
  {
    0 <= s.tcbs[t].run < |s.current|
  }

  function SetRun(s: State, t: Task, run: int): State
    requires t in s.tcbs
  {
    s.(tcbs := s.tcbs[t := s.tcbs[t].(run := run)])
  }

  /** prvYieldCore, executed by core `caller` */
  function YieldCore(s: State, caller: Core, c: Core): State
    requires c < |s.current| == |s.pending| && s.current[c] in s.tcbs
  {
    if c == caller then s.(pending := s.pending[c := true])
    else SetRun(s, s.current[c], SCHEDULED_TO_YIELD)
  }

  /** Another task is ready at the priority of the one that core `x` runs. */
  predicate Shares(s: State, x: Core)
    requires x < |s.current| && s.current[x] in s.tcbs
  {
    s.tcbs[s.current[x]].priority < |s.ready| && |s.ready[s.tcbs[s.current[x]].priority]| > 1
  }

  /** The time slicing of xTaskIncrementTick, which marks the other cores' flags as well. */
  function TimeSlice(s: State): State
    requires Mapped(s)
  {
    s.(pending := seq(|s.pending|, x requires 0 <= x < |s.pending| => s.pending[x] || Shares(s, x)))
  }

  lemma TimeSliceSame(s: State)
    requires Mapped(s)
    ensures Mapped(TimeSlice(s)) && SamePlaces(s, TimeSlice(s))
  {
  }

  /** Two states with the same tasks in the same places, that differ at most in who
      has been asked to yield. */
  ghost predicate SamePlaces(s: State, s': State) {
    && s'.ready == s.ready && s'.top == s.top && s'.current == s.current && s'.terminating == s.terminating
    && s'.multiple == s.multiple && s'.tcbs.Keys == s.tcbs.Keys && |s'.pending| == |s.pending|
    && (forall t | t in s.tcbs :: s'.tcbs[t] == s.tcbs[t].(run := s'.tcbs[t].run))
    && (forall t | t in s.tcbs :: s'.tcbs[t].run == s.tcbs[t].run ||
                                 (s.tcbs[t].run != NOT_RUNNING && s'.tcbs[t].run == SCHEDULED_TO_YIELD))
    && (forall c | 0 <= c < |s.pending| :: s.pending[c] ==> s'.pending[c])
  }

  lemma YieldCoreSame(s: State, caller: Core, c: Core)
    requires Mapped(s) && c < |s.current|
    ensures Mapped(YieldCore(s, caller, c)) && SamePlaces(s, YieldCore(s, caller, c))
  {
  }

  lemma SameTransitive(s: State, s1: State, s2: State)
    requires SamePlaces(s, s1) && SamePlaces(s1, s2)
    ensures SamePlaces(s, s2)
  {
  }

  /** Asking for yields keeps the invariant. */
  lemma SamePlacesInv(s: State, s': State)
    requires Inv(s) && SamePlaces(s, s') && Mapped(s')
    ensures Inv(s')
  {
    hide Shape;
    SameListsShape(s, s');
    forall c | 0 <= c < |s'.current|
      ensures Outstanding(s', c)
    {
      assert Outstanding(s, c) && s.current[c] in s.tcbs;
    }
  }

  /** Two states that differ at most in what runs where and who has been asked to yield. */
  ghost predicate SameLists(s: State, s': State) {
    && s'.ready == s.ready && s'.top == s.top && s'.terminating == s.terminating && s'.multiple == s.multiple
    && s'.tcbs.Keys == s.tcbs.Keys && |s'.current| == |s.current|
    && (forall t | t in s.tcbs :: s'.tcbs[t] == s.tcbs[t].(run := s'.tcbs[t].run))
  }

  /** Everything the invariant says about lists and idle tasks. */
  ghost predicate Shape(s: State) {
    Listed(s) && TopBounds(s) && IdleReady(s) && EnoughIdle(s) && Deleted(s)
  }

  lemma SameListsShape(s: State, s': State)
    requires SameLists(s, s') && Shape(s)
    ensures Shape(s')
  {
    assert IdleTasks(s') == IdleTasks(s);
    assert forall t :: InReady(s', t) == InReady(s, t);
  }

  // ---------------------------------------------------------------- choosing a task

  /** Whether core `c` may take ready task `t`; only a true idle task when it looks
      below the highest ready priority and one priority runs at a time. */
  predicate Eligible(s: State, t: Task, c: Core, onlyIdle: bool)
    requires c < |s.current|
  {
    && t in s.tcbs && (onlyIdle ==> s.tcbs[t].idle) && c in s.tcbs[t].mask
    && (s.tcbs[t].run == NOT_RUNNING || t == s.current[c])
  }

  /** The scan of one ready list: the first eligible task's index, or the length. */
  function First(s: State, list: seq<Task>, c: Core, onlyIdle: bool): (k: nat)
    requires c < |s.current|
    ensures k <= |list|
    ensures forall i | 0 <= i < k :: !Eligible(s, list[i], c, onlyIdle)
    ensures k < |list| ==> Eligible(s, list[k], c, onlyIdle)
  {
    if list == [] || Eligible(s, list[0], c, onlyIdle) then 0 else 1 + First(s, list[1..], c, onlyIdle)
  }

  datatype Choice = Choice(task: Option<Task>, top: int, dropped: bool)

  /** The loop of prvSelectHighestPriorityTask, from `uxCurrentPriority` on. */
  function Scan(s: State, c: Core, priority: nat, decrement: bool, top: int, dropped: bool): (r: Choice)
    requires c < |s.current| && priority < |s.ready|
    ensures r.task.Some? ==> r.task.value in s.tcbs && Eligible(s, r.task.value, c, false)
    decreases priority
  {
    var level := if !s.multiple && priority < top then 0 else priority;
    var k := First(s, s.ready[level], c, !s.multiple && level < top);
    if s.ready[level] != [] then
      if k < |s.ready[level]| then Choice(Some(s.ready[level][k]), top, dropped)
      else if level > 0 then Scan(s, c, level - 1, false, top, dropped)
      else Choice(None, top, dropped)
    else
      var top' := if decrement then top - 1 else top;
      if level > 0 then Scan(s, c, level - 1, decrement, top', dropped || (decrement && !s.multiple))
      else Choice(None, top', dropped || (decrement && !s.multiple))
  }

  /** The task whose turn is over goes to the end of its ready list. */
  function Rotate(s: State, c: Core): State
    requires c < |s.current|
  {
    var t := s.current[c];
    if InReady(s, t) then
      var p := s.tcbs[t].priority;
      s.(ready := s.ready[p := Without(s.ready[p], t) + [t]])
    else s
  }

  function Without(s: seq<Task>, t: Task): seq<Task> {
    if s == [] then [] else if s[0] == t then s[1..] else [s[0]] + Without(s[1..], t)
  }

  /** Core `c` is given task `t`. */
  function Assign(s: State, c: Core, t: Task): State
    requires c < |s.current| && s.current[c] in s.tcbs && t in s.tcbs
  {
    if s.tcbs[t].run == NOT_RUNNING then
      SetRun(SetRun(s, s.current[c], NOT_RUNNING), t, c).(current := s.current[c := t])
    else
      SetRun(s, t, c)
  }

  /** When the highest ready priority has dropped, cores from `x` up that run idle
      tasks yield to the tasks that were held back. */
  function YieldIdle(s: State, c: Core, x: nat): State
    requires Mapped(s) && c < |s.current| && x <= |s.current|
    decreases |s.current| - x
  {
    if x == |s.current| then s
    else if s.tcbs[s.current[x]].idle then
      YieldCoreSame(s, c, x);
      YieldIdle(YieldCore(s, c, x), c, x + 1)
    else YieldIdle(s, c, x + 1)
  }

  /** The priority used in comparisons: idle tasks count as lower than priority 0. */
  function Effective(s: State, t: Task): int
    requires t in s.tcbs
  {
    s.tcbs[t].priority - if s.tcbs[t].idle then 1 else 0
  }

  /** The search for a core for the evicted task: of the cores below `x` in `cores`,
      the one that runs the lowest priority below `lowest` and has not been asked to
      yield; the highest numbered of equals. */
  function CoreFor(s: State, cores: set<Core>, x: nat, lowest: int, found: Option<Core>): (r: Option<Core>)
    requires Mapped(s) && x <= |s.current|
    ensures r == found || (r.Some? && r.value < x)
  {
    if x == 0 then found
    else
      var t := s.current[x - 1];
      if x - 1 in cores && Effective(s, t) < lowest && IsRunning(s, t) && !s.pending[x - 1] then
        CoreFor(s, cores, x - 1, Effective(s, t), Some(x - 1))
      else CoreFor(s, cores, x - 1, lowest, found)
  }

  /** A ready task that was evicted from core `c` may displace another. */
  function Displace(s: State, c: Core, evicted: Task): State
    requires Mapped(s) && c < |s.current| && evicted in s.tcbs
  {
    var mask := s.tcbs[evicted].mask;
    var cores := if c in mask then mask - s.tcbs[s.current[c]].mask else mask;
    match CoreFor(s, cores, |s.current|, Effective(s, evicted), None)
    case None => s
    case Some(x) => YieldCore(s, c, x)
  }

  /** What follows the choice: tasks that were held back, or that was evicted, may
      displace others. */
  function Settle(s: State, c: Core, dropped: bool, evicted: Option<Task>): State
    requires Mapped(s) && c < |s.current| && (evicted.Some? ==> evicted.value in s.tcbs)
  {
    YieldIdleSame(s, c, 0);
    var s1 := if dropped then YieldIdle(s, c, 0) else s;
    if evicted.Some? && InReady(s1, evicted.value) then Displace(s1, c, evicted.value) else s1
  }

  /** prvSelectHighestPriorityTask */
  function Select(s: State, c: Core): State
    requires Mapped(s) && Listed(s) && c < |s.current| && 0 <= s.top < |s.ready|
  {
    RotateSame(s, c);
    var s1 := Rotate(s, c);
    var choice := Scan(s1, c, s.top, true, s.top, false);
    var s2 := s1.(top := choice.top);
    match choice.task
    case None => s2
    case Some(t) =>
      AssignMapped(s2, c, t);
      AssignLists(s2, c, t);
      Settle(Assign(s2, c, t), c, choice.dropped, if s.tcbs[t].run == NOT_RUNNING then Some(s.current[c]) else None)
  }

  /** vTaskSwitchContext; nothing is switched while the scheduler is suspended. */
  function SwitchContext(s: State, c: Core, suspended: bool): State
    requires Mapped(s) && Listed(s) && c < |s.current| && 0 <= s.top < |s.ready|
  {
    if suspended then s.(pending := s.pending[c := true])
    else Select(s.(pending := s.pending[c := false]), c)
  }

  // ---------------------------------------------------------------- the steps of choosing

  lemma {:induction false} WithoutTask(s: seq<Task>, t: Task)
    requires Distinct(s)
    ensures Distinct(Without(s, t)) && t !in Without(s, t)
    ensures forall x :: x in Without(s, t) <==> x in s && x != t
  {
    if s != [] {
      assert s == [s[0]] + s[1..];
      assert forall i | 0 <= i < |s[1..]| :: s[1..][i] == s[i + 1];
      WithoutTask(s[1..], t);
      ConsDistinct(s[0], Without(s[1..], t));
    }
  }

  lemma ConsDistinct(x: Task, s: seq<Task>)
    requires Distinct(s) && x !in s
    ensures Distinct([x] + s) && Distinct(s + [x])
  {
  }

  /** Rotation changes the order of one ready list and nothing else. */
  lemma RotateSame(s: State, c: Core)
    requires Mapped(s) && Listed(s) && c < |s.current|
    ensures var r := Rotate(s, c);
            && r == s.(ready := r.ready) && |r.ready| == |s.ready| && Mapped(r) && Listed(r)
            && (forall p, t :: 0 <= p < |s.ready| ==> (t in r.ready[p] <==> t in s.ready[p]))
            && (forall p | 0 <= p < |s.ready| :: r.ready[p] == [] <==> s.ready[p] == [])
  {
    var t := s.current[c];
    var r := Rotate(s, c);
    if InReady(s, t) {
      var p := s.tcbs[t].priority;
      WithoutTask(s.ready[p], t);
      ConsDistinct(t, Without(s.ready[p], t));
      hide Without;
      ListedAs(s, r);
    }
  }

  /** Listed depends on who is in which list, not on their order. */
  lemma ListedAs(s: State, r: State)
    requires Listed(s) && r == s.(ready := r.ready) && |r.ready| == |s.ready|
    requires forall p, t :: 0 <= p < |s.ready| ==> (t in r.ready[p] <==> t in s.ready[p])
    requires forall p | 0 <= p < |s.ready| :: Distinct(r.ready[p])
    ensures Listed(r)
    ensures forall p | 0 <= p < |s.ready| :: r.ready[p] == [] <==> s.ready[p] == []
  {
    hide Distinct;
    forall p | 0 <= p < |s.ready|
      ensures r.ready[p] == [] <==> s.ready[p] == []
    {
      assert r.ready[p] != [] ==> r.ready[p][0] in r.ready[p];
      assert s.ready[p] != [] ==> s.ready[p][0] in s.ready[p];
    }
    forall p, i | 0 <= p < |r.ready| && 0 <= i < |r.ready[p]|
      ensures r.ready[p][i] in s.tcbs && s.tcbs[r.ready[p][i]].priority == p
    {
      assert r.ready[p][i] in r.ready[p];
      var j :| 0 <= j < |s.ready[p]| && s.ready[p][j] == r.ready[p][i];
    }
  }

  /** Giving a core a task that runs nowhere else keeps the map, and settles that
      core's obligation to yield. */
  lemma AssignMapped(s: State, c: Core, t: Task)
    requires Mapped(s) && c < |s.current| && Eligible(s, t, c, false)
    ensures Mapped(Assign(s, c, t)) && Outstanding(Assign(s, c, t), c)
    ensures Assign(s, c, t).current[c] == t && Assign(s, c, t).tcbs[t].run == c
    ensures forall d | 0 <= d < |s.current| && d != c ::
              Assign(s, c, t).current[d] == s.current[d] && (Outstanding(s, d) ==> Outstanding(Assign(s, c, t), d))
  {
    var s' := Assign(s, c, t);
    if s.tcbs[t].run == NOT_RUNNING {
      assert t !in s.current by {
        assert forall d | 0 <= d < |s.current| :: s.tcbs[s.current[d]].run != NOT_RUNNING;
      }
      ReplaceDistinct(s.current, c, t);
      forall u | u in s'.tcbs && u !in s'.current
        ensures s'.tcbs[u].run == NOT_RUNNING
      {
        assert s'.current[c] == t;
        ReplaceMembers(s.current, c, t, u);
      }
    } else {
      assert t in s.current;
    }
  }

  lemma ReplaceMembers(s: seq<Task>, c: nat, t: Task, u: Task)
    requires c < |s|
    ensures u in s ==> u == s[c] || u in s[c := t]
  {
    if i :| 0 <= i < |s| && s[i] == u {
      assert i != c ==> s[c := t][i] == u;
    }
  }

  lemma ReplaceDistinct(s: seq<Task>, c: nat, t: Task)
    requires Distinct(s) && c < |s| && t !in s
    ensures Distinct(s[c := t])
  {
  }

  lemma {:induction false} YieldIdleSame(s: State, c: Core, x: nat)
    requires Mapped(s) && c < |s.current| && x <= |s.current|
    ensures Mapped(YieldIdle(s, c, x)) && SamePlaces(s, YieldIdle(s, c, x))
    decreases |s.current| - x
  {
    if x < |s.current| {
      YieldCoreSame(s, c, x);
      var s1 := YieldCore(s, c, x);
      if s.tcbs[s.current[x]].idle {
        hide Mapped, SamePlaces, YieldCore;
        assert |s1.current| == |s.current| by { PlacesCurrent(s, s1); }
        YieldIdleSame(s1, c, x + 1);
        SameTransitive(s, s1, YieldIdle(s1, c, x + 1));
      } else {
        YieldIdleSame(s, c, x + 1);
      }
    }
  }

  lemma PlacesCurrent(s: State, s': State)
    requires SamePlaces(s, s')
    ensures s'.current == s.current
  {
  }

  lemma DisplaceSame(s: State, c: Core, evicted: Task)
    requires Mapped(s) && c < |s.current| && evicted in s.tcbs
    ensures Mapped(Displace(s, c, evicted)) && SamePlaces(s, Displace(s, c, evicted))
  {
    hide Mapped, CoreFor, YieldCore;
    MappedCurrent(s);
    var mask := s.tcbs[evicted].mask;
    var cores := if c in mask then mask - s.tcbs[s.current[c]].mask else mask;
    var found := CoreFor(s, cores, |s.current|, Effective(s, evicted), None);
    if found.Some? {
      YieldCoreSame(s, c, found.value);
    }
  }

  lemma MappedCurrent(s: State)
    requires Mapped(s)
    ensures |s.pending| == |s.current| > 0
    ensures forall c | 0 <= c < |s.current| :: s.current[c] in s.tcbs
  {
  }

  // ---------------------------------------------------------------- the choice succeeds and is right

  ghost predicate NoneEligible(s: State, p: nat, c: Core)
    requires p < |s.ready| && c < |s.current|
  {
    First(s, s.ready[p], c, false) == |s.ready[p]|
  }

  /** What the choice must be: from the highest ready list, or an idle task if that
      has none to offer; with several priorities at once, from the highest list that
      has one to offer; always the first on its list. */
  ghost predicate Right(s: State, c: Core, r: Choice)
    requires c < |s.current| && |s.ready| > 0
  {
    && r.task.Some? && r.task.value in s.tcbs && s.tcbs[r.task.value].priority < |s.ready|
    && 0 <= r.top < |s.ready| && s.ready[r.top] != [] && EmptyAbove(s, r.top)
    && var p := s.tcbs[r.task.value].priority;
    && p <= r.top
    && if s.multiple then
         && IsFirst(s, p, c, false, r.task.value)
         && (forall q | p < q < |s.ready| :: NoneEligible(s, q, c))
       else if p == r.top then IsFirst(s, p, c, false, r.task.value)
       else p == 0 && NoneEligible(s, r.top, c) && IsFirst(s, 0, c, true, r.task.value)
  }

  ghost predicate IsFirst(s: State, p: nat, c: Core, onlyIdle: bool, t: Task)
    requires p < |s.ready| && c < |s.current|
  {
    var k := First(s, s.ready[p], c, onlyIdle);
    k < |s.ready[p]| && s.ready[p][k] == t
  }

  /** The loop, wherever it has got to. */
  lemma {:induction false} ScanRight(s: State, c: Core, level: nat, decrement: bool, top: int, dropped: bool)
    requires c < |s.current| && level <= top < |s.ready| && Listed(s)
    requires First(s, s.ready[0], c, true) < |s.ready[0]|
    requires EmptyAbove(s, top)
    requires decrement ==> level == top
    requires !decrement ==> level < top && s.ready[top] != [] && NoneEligible(s, top, c)
    requires !decrement && s.multiple ==> forall q | level < q < |s.ready| :: NoneEligible(s, q, c)
    ensures Right(s, c, Scan(s, c, level, decrement, top, dropped))
    decreases level
  {
    IdleIsEligible(s, c, s.ready[0]);
    hide Listed, Eligible, First, IsFirst;
    var at := if !s.multiple && level < top then 0 else level;
    var onlyIdle := !s.multiple && at < top;
    var k := First(s, s.ready[at], c, onlyIdle);
    if s.ready[at] != [] {
      if k < |s.ready[at]| {
        ListedHere(s, at, k);
        assert IsFirst(s, at, c, onlyIdle, s.ready[at][k]) by { FirstHere(s, at, c, onlyIdle); }
        EmptyNone(s, top, c);
      } else {
        EmptyNone(s, top, c);
        ScanRight(s, c, at - 1, false, top, dropped);
      }
    } else {
      EmptyNone(s, at, c);
      ScanRight(s, c, at - 1, decrement, if decrement then top - 1 else top, dropped || (decrement && !s.multiple));
    }
  }

  lemma {:induction false} IdleIsEligible(s: State, c: Core, list: seq<Task>)
    requires c < |s.current|
    ensures First(s, list, c, false) <= First(s, list, c, true)
  {
  }

  lemma ListedHere(s: State, p: nat, k: nat)
    requires Listed(s) && p < |s.ready| && k < |s.ready[p]|
    ensures s.ready[p][k] in s.tcbs && s.tcbs[s.ready[p][k]].priority == p
  {
  }

  lemma FirstHere(s: State, p: nat, c: Core, onlyIdle: bool)
    requires p < |s.ready| && c < |s.current| && First(s, s.ready[p], c, onlyIdle) < |s.ready[p]|
    ensures IsFirst(s, p, c, onlyIdle, s.ready[p][First(s, s.ready[p], c, onlyIdle)])
  {
  }

  lemma EmptyNone(s: State, top: int, c: Core)
    requires c < |s.current| && -1 <= top < |s.ready|
    ensures EmptyAbove(s, top) ==> forall q | top < q < |s.ready| :: NoneEligible(s, q, c)
    ensures top >= 0 && s.ready[top] == [] ==> NoneEligible(s, top, c)
  {
  }

  /** Some idle task is always free for core `c`: the other cores cannot hold them all. */
  lemma IdleFree(s: State, c: Core)
    requires Mapped(s) && Listed(s) && IdleReady(s) && EnoughIdle(s) && c < |s.current|
    ensures First(s, s.ready[0], c, true) < |s.ready[0]|
  {
    var others := s.current[..c] + s.current[c + 1..];
    SeqSetCount(others);
    var held := set i | 0 <= i < |others| :: others[i];
    if IdleTasks(s) <= held {
      SubsetCount(IdleTasks(s), held);
    }
    var t :| t in IdleTasks(s) && t !in held;
    IdleTaskEligible(s, c, t, others, held);
    var i :| 0 <= i < |s.ready[0]| && s.ready[0][i] == t;
    hide Eligible;
    assert Eligible(s, s.ready[0][i], c, true);
  }

  lemma IdleTaskEligible(s: State, c: Core, t: Task, others: seq<Task>, held: set<Task>)
    requires Mapped(s) && Listed(s) && IdleReady(s) && c < |s.current| && t in IdleTasks(s)
    requires others == s.current[..c] + s.current[c + 1..] && held == set i | 0 <= i < |others| :: others[i]
    requires t !in held
    ensures t in s.ready[0] && Eligible(s, t, c, true)
  {
    assert InReady(s, t);
    forall i | 0 <= i < |s.current|
      ensures i == c || s.current[i] in held
    {
      assert i < c ==> others[i] == s.current[i];
      assert i > c ==> others[i - 1] == s.current[i];
    }
  }

  lemma {:induction false} SeqSetCount(s: seq<Task>)
    ensures |set i | 0 <= i < |s| :: s[i]| <= |s|
  {
    if s != [] {
      SeqSetCount(s[1..]);
      var rest := set i | 0 <= i < |s[1..]| :: s[1..][i];
      assert (set i | 0 <= i < |s| :: s[i]) == {s[0]} + rest by {
        assert forall i | 0 <= i < |s[1..]| :: s[1..][i] == s[i + 1];
        assert forall i | 0 <= i < |s| :: i == 0 || s[i] == s[1..][i - 1];
      }
    }
  }

  // ---------------------------------------------------------------- a context switch

  ghost predicate OthersOutstanding(s: State, c: Core)
    requires Mapped(s)
  {
    forall d | 0 <= d < |s.current| && d != c :: Outstanding(s, d)
  }

  lemma RotateShape(s: State, c: Core)
    requires Mapped(s) && Shape(s) && c < |s.current|
    ensures Mapped(Rotate(s, c)) && Shape(Rotate(s, c))
    ensures Rotate(s, c) == s.(ready := Rotate(s, c).ready) && |Rotate(s, c).ready| == |s.ready|
    ensures OthersOutstanding(s, c) ==> OthersOutstanding(Rotate(s, c), c)
  {
    RotateSame(s, c);
    var r := Rotate(s, c);
    hide Rotate, Listed;
    assert IdleTasks(r) == IdleTasks(s);
    assert forall t :: InReady(r, t) == InReady(s, t);
    OutstandingAs(s, r, c);
  }

  lemma OutstandingAs(s: State, s': State, c: Core)
    requires Mapped(s) && s'.current == s.current && s'.pending == s.pending && s'.tcbs == s.tcbs
    ensures Mapped(s') && (OthersOutstanding(s, c) ==> OthersOutstanding(s', c))
  {
    assert Mapped(s');
    if OthersOutstanding(s, c) {
      forall d | 0 <= d < |s'.current| && d != c
        ensures Outstanding(s', d)
      {
        assert Outstanding(s, d);
      }
    }
  }

  /** What a context switch of core `c` leads to: one state for each part of the code. */
  ghost predicate Selected(s: State, c: Core, s': State)
    requires c < |s.current| && |s.ready| > 0
  {
    var s1 := Rotate(s, c);
    && |s1.ready| == |s.ready| && s1.current == s.current && 0 <= s.top < |s.ready|
    && var r := Scan(s1, c, s.top, true, s.top, false);
    && Right(s1, c, r)
    && s'.current == s.current[c := r.task.value] && s'.top == r.top && s'.ready == s1.ready
    && s'.tcbs.Keys == s.tcbs.Keys
  }

  /** Selection succeeds, chooses the right task, and keeps the map; whatever was
      outstanding for core `c` is settled. */
  lemma SelectRight(s: State, c: Core)
    requires Mapped(s) && Shape(s) && c < |s.current| && OthersOutstanding(s, c)
    ensures 0 <= s.top < |s.ready| && Selected(s, c, Select(s, c)) && Inv(Select(s, c))
    ensures |Select(s, c).current| == |s.current|
  {
    RotateShape(s, c);
    var s1 := Rotate(s, c);
    IdleFree(s1, c);
    ScanRight(s1, c, s.top, true, s.top, false);
    var r := Scan(s1, c, s.top, true, s.top, false);
    var s2 := s1.(top := r.top);
    TopShape(s1, r.top);
    OutstandingAs(s1, s2, c);
    AssignSettles(s2, c, r.task.value);
    hide Listed, Mapped, TopBounds, IdleReady, EnoughIdle, Deleted, OthersOutstanding, Rotate, Scan, Right, Assign, Settle;
    SettleInv(Assign(s2, c, r.task.value), c, r.dropped, if s.tcbs[r.task.value].run == NOT_RUNNING then Some(s.current[c]) else None);
  }

  lemma TopShape(s: State, top: int)
    requires Shape(s) && 0 <= top < |s.ready| && EmptyAbove(s, top)
    ensures Shape(s.(top := top))
  {
  }

  lemma AssignSettles(s: State, c: Core, t: Task)
    requires Mapped(s) && Shape(s) && OthersOutstanding(s, c) && c < |s.current| && Eligible(s, t, c, false)
    ensures Inv(Assign(s, c, t))
    ensures Assign(s, c, t).current == s.current[c := t]
    ensures Assign(s, c, t).ready == s.ready && Assign(s, c, t).top == s.top && Assign(s, c, t).tcbs.Keys == s.tcbs.Keys
  {
    AssignMapped(s, c, t);
    AssignLists(s, c, t);
    SameListsShape(s, Assign(s, c, t));
    hide Shape, Eligible;
    assert MapSafe(Assign(s, c, t)) by {
      hide Assign;
    }
  }

  lemma AssignLists(s: State, c: Core, t: Task)
    requires Mapped(s) && c < |s.current| && Eligible(s, t, c, false)
    ensures SameLists(s, Assign(s, c, t)) && Assign(s, c, t).current == s.current[c := t]
  {
  }

  lemma SettleInv(s: State, c: Core, dropped: bool, evicted: Option<Task>)
    requires Inv(s) && c < |s.current| && (evicted.Some? ==> evicted.value in s.tcbs)
    ensures var s' := Settle(s, c, dropped, evicted);
            Inv(s') && s'.current == s.current && s'.ready == s.ready && s'.top == s.top && s'.tcbs.Keys == s.tcbs.Keys
  {
    hide Mapped, Shape, Settle;
    SettleSame(s, c, dropped, evicted);
    SamePlacesInv(s, Settle(s, c, dropped, evicted));
    SamePlaced(s, Settle(s, c, dropped, evicted));
  }

  lemma SettleSame(s: State, c: Core, dropped: bool, evicted: Option<Task>)
    requires Mapped(s) && c < |s.current| && (evicted.Some? ==> evicted.value in s.tcbs)
    ensures Mapped(Settle(s, c, dropped, evicted)) && SamePlaces(s, Settle(s, c, dropped, evicted))
  {
    hide Mapped, YieldIdle, Displace, InReady, SamePlaces;
    SameItself(s);
    YieldIdleSame(s, c, 0);
    var s1 := if dropped then YieldIdle(s, c, 0) else s;
    SamePlaced(s, s1);
    if evicted.Some? && InReady(s1, evicted.value) {
      DisplaceSame(s1, c, evicted.value);
      SameTransitive(s, s1, Displace(s1, c, evicted.value));
    }
  }

  lemma SameItself(s: State)
    ensures SamePlaces(s, s)
  {
  }

  lemma SamePlaced(s: State, s': State)
    requires SamePlaces(s, s')
    ensures s'.current == s.current && s'.ready == s.ready && s'.top == s.top && s'.tcbs.Keys == s.tcbs.Keys
    ensures |s'.pending| == |s.pending|
  {
  }

  /** A context switch, or the note that one is wanted, keeps the invariant. */
  lemma SwitchContextInv(s: State, c: Core, suspended: bool)
    requires Inv(s) && c < |s.current|
    ensures Inv(SwitchContext(s, c, suspended)) && |SwitchContext(s, c, suspended).current| == |s.current|
    ensures !suspended ==> Selected(s.(pending := s.pending[c := false]), c, SwitchContext(s, c, suspended))
  {
    hide Shape, Select, Selected, MapSafe;
    PendingSet(s, c, suspended);
    if !suspended {
      SelectRight(s.(pending := s.pending[c := false]), c);
    }
  }

  /** The flag of core `c` is set, or cleared. */
  lemma PendingSet(s: State, c: Core, wanted: bool)
    requires Inv(s) && c < |s.current|
    ensures |s.pending| == |s.current|
    ensures var s1 := s.(pending := s.pending[c := wanted]);
            Mapped(s1) && Shape(s1) && OthersOutstanding(s1, c) && (wanted ==> Inv(s1))
  {
    var s1 := s.(pending := s.pending[c := wanted]);
    SameListsShape(s, s1);
    hide Shape;
    assert Mapped(s1);
    forall d | 0 <= d < |s.current| && (wanted || d != c)
      ensures Outstanding(s1, d)
    {
      assert Outstanding(s, d);
    }
  }

  /** With several priorities at once the chosen task has the highest priority of
      all ready tasks that may run on the core and that no other core has; else it
      comes from the highest ready list, or is an idle task if that has none. */
  lemma ChosenIsHighest(s: State, c: Core, t: Task)
    requires Inv(s) && c < |s.current| && InReady(s, t) && Eligible(s, t, c, false)
    ensures var s' := SwitchContext(s, c, false);
            && |s'.current| == |s.current|
            && var chosen := s'.current[c];
            && chosen in s.tcbs && InReady(s, chosen)
            && (s.multiple ==> s.tcbs[t].priority <= s.tcbs[chosen].priority)
            && (!s.multiple ==>
                  s.tcbs[chosen].priority == s'.top || (s.tcbs[chosen].idle && s.tcbs[t].priority < s'.top))
  {
    hide Scan, Rotate, SwitchContext, MapSafe, Mapped, Listed, TopBounds, IdleReady, EnoughIdle, Deleted, Right, Eligible;
    SwitchContextInv(s, c, false);
    PendingSet(s, c, false);
    var s0 := s.(pending := s.pending[c := false]);
    RotateSame(s0, c);
    var s1 := Rotate(s0, c);
    var r := Scan(s1, c, s.top, true, s.top, false);
    EligibleAs(s, s1, t, c);
    RightIsHighest(s1, c, r, t);
  }

  lemma EligibleAs(s: State, s': State, t: Task, c: Core)
    requires c < |s.current| && s'.tcbs == s.tcbs && s'.current == s.current
    ensures Eligible(s', t, c, false) == Eligible(s, t, c, false)
  {
  }

  lemma RightIsHighest(s: State, c: Core, r: Choice, t: Task)
    requires c < |s.current| && |s.ready| > 0 && Right(s, c, r)
    requires InReady(s, t) && Eligible(s, t, c, false)
    ensures var chosen := r.task.value;
            && InReady(s, chosen)
            && (s.multiple ==> s.tcbs[t].priority <= s.tcbs[chosen].priority)
            && (!s.multiple ==>
                  s.tcbs[chosen].priority == r.top || (s.tcbs[chosen].idle && s.tcbs[t].priority < r.top))
  {
    RightList(s, c, r);
    var p := s.tcbs[t].priority;
    var i :| 0 <= i < |s.ready[p]| && s.ready[p][i] == t;
    hide IsFirst, Eligible;
    NotFirst(s, c, p, i);
    hide NoneEligible;
  }

  lemma RightList(s: State, c: Core, r: Choice)
    requires c < |s.current| && |s.ready| > 0 && Right(s, c, r)
    ensures r.task.value in s.tcbs && s.tcbs[r.task.value].priority < |s.ready|
    ensures r.task.value in s.ready[s.tcbs[r.task.value].priority]
    ensures s.tcbs[r.task.value].priority != r.top && !s.multiple ==> s.tcbs[r.task.value].idle
  {
  }

  lemma NotFirst(s: State, c: Core, p: nat, i: nat)
    requires c < |s.current| && p < |s.ready| && i < |s.ready[p]| && Eligible(s, s.ready[p][i], c, false)
    ensures !NoneEligible(s, p, c)
  {
  }

  /** uxTopReadyPriority comes out as the highest non-empty list's. */
  lemma TopIsExact(s: State, c: Core)
    requires Inv(s) && c < |s.current|
    ensures var s' := SwitchContext(s, c, false);
            && 0 <= s'.top < |s'.ready| && s'.ready[s'.top] != []
            && forall p | s'.top < p < |s'.ready| :: s'.ready[p] == []
  {
    SwitchContextInv(s, c, false);
    hide SwitchContext, Rotate, Scan, IsFirst, NoneEligible;
  }

  // ---------------------------------------------------------------- making room for a task

  /** The loop of prvYieldForTask: the lowest priority seen that may be preempted,
      where, and how many cores have been told to yield. */
  datatype Search = Search(s: State, lowest: int, core: Option<Core>, yielded: nat)

  function YieldVisit(v: Search, caller: Core, t: Task, x: Core): Search
    requires Mapped(v.s) && t in v.s.tcbs && x < |v.s.current|
  {
    var at := v.s.current[x];
    var p := Effective(v.s, at);
    if IsRunning(v.s, at) && !v.s.pending[x] then
      var v1 :=
        if (v.s.multiple || !IsRunning(v.s, t)) && p <= v.lowest && x in v.s.tcbs[t].mask
        then v.(lowest := p, core := Some(x)) else v;
      if !v.s.multiple && -1 < p < v.s.tcbs[t].priority
      then v1.(s := YieldCore(v.s, caller, x), yielded := v.yielded + 1) else v1
    else v
  }

  function YieldLoop(v: Search, caller: Core, t: Task, x: Core): Search
    requires Mapped(v.s) && t in v.s.tcbs && x <= |v.s.current|
    decreases |v.s.current| - x
  {
    if x == |v.s.current| then v
    else
      YieldVisitSame(v, caller, t, x);
      YieldLoop(YieldVisit(v, caller, t, x), caller, t, x + 1)
  }

  /** prvYieldForTask, executed by core `caller` */
  function YieldForTask(s: State, caller: Core, t: Task): State
    requires Mapped(s) && t in s.tcbs
  {
    if if s.multiple then !IsRunning(s, t) else s.tcbs[t].priority >= s.top then
      YieldLoopSame(Search(s, s.tcbs[t].priority - 1, None, 0), caller, t, 0);
      var v := YieldLoop(Search(s, s.tcbs[t].priority - 1, None, 0), caller, t, 0);
      if v.core.Some? && (s.multiple || v.yielded == 0) then YieldCore(v.s, caller, v.core.value) else v.s
    else s
  }

  lemma YieldVisitSame(v: Search, caller: Core, t: Task, x: Core)
    requires Mapped(v.s) && t in v.s.tcbs && x < |v.s.current|
    ensures var v' := YieldVisit(v, caller, t, x);
            Mapped(v'.s) && SamePlaces(v.s, v'.s) && v'.s.current == v.s.current && t in v'.s.tcbs
            && (v'.core.Some? ==> v'.core == v.core || v'.core.value < |v.s.current|)
  {
  }

  lemma {:induction false} YieldLoopSame(v: Search, caller: Core, t: Task, x: Core)
    requires Mapped(v.s) && t in v.s.tcbs && x <= |v.s.current|
    requires v.core.Some? ==> v.core.value < |v.s.current|
    ensures var v' := YieldLoop(v, caller, t, x);
            && Mapped(v'.s) && SamePlaces(v.s, v'.s) && v'.s.current == v.s.current
            && (v'.core.Some? ==> v'.core.value < |v.s.current|)
    decreases |v.s.current| - x
  {
    hide Mapped, SamePlaces, YieldVisit;
    SameItself(v.s);
    if x < |v.s.current| {
      YieldVisitSame(v, caller, t, x);
      var v1 := YieldVisit(v, caller, t, x);
      YieldLoopSame(v1, caller, t, x + 1);
      SameTransitive(v.s, v1.s, YieldLoop(v1, caller, t, x + 1).s);
    }
  }

  lemma YieldForTaskSame(s: State, caller: Core, t: Task)
    requires Mapped(s) && t in s.tcbs
    ensures Mapped(YieldForTask(s, caller, t)) && SamePlaces(s, YieldForTask(s, caller, t))
  {
    hide Mapped, SamePlaces, YieldLoop, YieldCore;
    SameItself(s);
    var v0 := Search(s, s.tcbs[t].priority - 1, None, 0);
    YieldLoopSame(v0, caller, t, 0);
    var v := YieldLoop(v0, caller, t, 0);
    if v.core.Some? {
      YieldCoreSame(v.s, caller, v.core.value);
      SameTransitive(s, v.s, YieldCore(v.s, caller, v.core.value));
    }
  }

  ghost predicate AskedToYield(s: State, x: Core)
    requires Mapped(s) && x < |s.current|
  {
    s.pending[x] || !IsRunning(s, s.current[x])
  }

  /** Core `y` runs a task that `t` may preempt, and has not been asked to yield. */
  ghost predicate Preemptible(s: State, t: Task, y: Core)
    requires Mapped(s) && y < |s.current| && t in s.tcbs
  {
    !AskedToYield(s, y) && Effective(s, s.current[y]) < s.tcbs[t].priority
  }

  /** What the visits to the cores below `x` have achieved. */
  ghost predicate Visited(s: State, v: Search, t: Task, x: Core)
    requires Mapped(s) && Mapped(v.s) && SamePlaces(s, v.s) && t in s.tcbs
  {
    && v.lowest < s.tcbs[t].priority
    && (if v.core.Some? then Candidate(s, v, t) else v.lowest == s.tcbs[t].priority - 1)
    && (forall y | 0 <= y < |s.current| && y < x :: VisitedCore(s, v, t, y))
    && (forall y | 0 <= y < |s.current| && x <= y :: AskedToYield(v.s, y) == AskedToYield(s, y))
    && (v.yielded > 0 ==> exists z :: 0 <= z < |s.current| && Told(s, v, t, z))
  }

  ghost predicate Candidate(s: State, v: Search, t: Task)
    requires Mapped(s) && t in s.tcbs && v.core.Some?
  {
    var x := v.core.value;
    x < |s.current| && Preemptible(s, t, x) && x in s.tcbs[t].mask && v.lowest == Effective(s, s.current[x])
  }

  ghost predicate Told(s: State, v: Search, t: Task, z: Core)
    requires Mapped(s) && Mapped(v.s) && SamePlaces(s, v.s) && t in s.tcbs && z < |s.current|
  {
    Preemptible(s, t, z) && AskedToYield(v.s, z)
  }

  ghost predicate VisitedCore(s: State, v: Search, t: Task, y: Core)
    requires Mapped(s) && Mapped(v.s) && SamePlaces(s, v.s) && t in s.tcbs && y < |s.current|
  {
    Preemptible(s, t, y) ==>
      && (!s.multiple && Effective(s, s.current[y]) > -1 ==> AskedToYield(v.s, y) && v.yielded > 0)
      && ((s.multiple || !IsRunning(s, t)) && y in s.tcbs[t].mask ==> v.core.Some? && v.lowest <= Effective(s, s.current[y]))
  }

  /** Asking core `x` changes nothing for the others. */
  lemma AskedOthers(s: State, caller: Core, x: Core)
    requires Mapped(s) && x < |s.current|
    ensures var s' := YieldCore(s, caller, x);
            && Mapped(s') && s'.current == s.current && AskedToYield(s', x)
            && (forall y | 0 <= y < |s.current| && y != x :: AskedToYield(s', y) == AskedToYield(s, y))
            && (forall y | 0 <= y < |s.current| :: AskedToYield(s, y) ==> AskedToYield(s', y))
  {
  }

  lemma VisitStep(s: State, v: Search, caller: Core, t: Task, x: Core)
    requires Mapped(s) && Mapped(v.s) && SamePlaces(s, v.s) && t in s.tcbs && x < |s.current|
    requires Visited(s, v, t, x)
    ensures var v' := YieldVisit(v, caller, t, x);
            Mapped(v'.s) && SamePlaces(s, v'.s) && Visited(s, v', t, x + 1)
  {
    hide YieldVisit, SamePlaces, Mapped, Preemptible, AskedToYield, YieldCore, IsRunning, Candidate, VisitedCore, Told;
    SamePlaced(s, v.s);
    var v' := YieldVisit(v, caller, t, x);
    VisitOutcome(s, v, caller, t, x);
    AskedOthers(v.s, caller, x);
    VisitKept(s, v, v', t, x);
    VisitTold(s, v, v', t, x);
  }

  /** What a visit to core `x` found out about the cores below `x` still stands. */
  lemma VisitKept(s: State, v: Search, v': Search, t: Task, x: Core)
    requires Mapped(s) && Mapped(v.s) && SamePlaces(s, v.s) && Mapped(v'.s) && SamePlaces(s, v'.s)
    requires t in s.tcbs && v.s.current == s.current && v'.s.current == s.current
    requires forall y | 0 <= y < |s.current| && y < x :: VisitedCore(s, v, t, y)
    requires v'.lowest <= v.lowest && (v.core.Some? ==> v'.core.Some?) && v.yielded <= v'.yielded
    requires forall y | 0 <= y < |s.current| :: AskedToYield(v.s, y) ==> AskedToYield(v'.s, y)
    ensures forall y | 0 <= y < |s.current| && y < x :: VisitedCore(s, v', t, y)
  {
    hide SamePlaces, Mapped, Preemptible, AskedToYield, IsRunning;
    forall y | 0 <= y < |s.current| && y < x
      ensures VisitedCore(s, v', t, y)
    {
      assert VisitedCore(s, v, t, y);
    }
  }

  lemma VisitTold(s: State, v: Search, v': Search, t: Task, x: Core)
    requires Mapped(s) && Mapped(v.s) && SamePlaces(s, v.s) && Mapped(v'.s) && SamePlaces(s, v'.s)
    requires t in s.tcbs && x < |s.current| && v.s.current == s.current && v'.s.current == s.current
    requires v.yielded > 0 ==> exists z :: 0 <= z < |s.current| && Told(s, v, t, z)
    requires forall y | 0 <= y < |s.current| :: AskedToYield(v.s, y) ==> AskedToYield(v'.s, y)
    requires v'.yielded > v.yielded ==> Preemptible(s, t, x) && AskedToYield(v'.s, x)
    ensures v'.yielded == v.yielded || v'.yielded > v.yielded ==>
              (v'.yielded > 0 ==> exists z :: 0 <= z < |s.current| && Told(s, v', t, z))
  {
    hide SamePlaces, Mapped, Preemptible, AskedToYield;
    if v'.yielded > v.yielded {
      assert Told(s, v', t, x);
    } else if v'.yielded == v.yielded > 0 {
      var z :| 0 <= z < |s.current| && Told(s, v, t, z);
      assert Told(s, v', t, z);
    }
  }

  /** One visit: it may ask core `x`, may make it the candidate, and leaves the rest. */
  lemma VisitOutcome(s: State, v: Search, caller: Core, t: Task, x: Core)
    requires Mapped(s) && Mapped(v.s) && SamePlaces(s, v.s) && t in s.tcbs && x < |s.current|
    requires AskedToYield(v.s, x) == AskedToYield(s, x)
    requires v.lowest < s.tcbs[t].priority && if v.core.Some? then Candidate(s, v, t) else v.lowest == s.tcbs[t].priority - 1
    ensures var v' := YieldVisit(v, caller, t, x);
            && Mapped(v'.s) && SamePlaces(s, v'.s)
            && (v'.s == v.s || v'.s == YieldCore(v.s, caller, x))
            && v'.lowest <= v.lowest && (v.core.Some? ==> v'.core.Some?) && v.yielded <= v'.yielded
            && (if v'.core.Some? then Candidate(s, v', t) else v'.lowest == s.tcbs[t].priority - 1)
            && (v'.yielded > v.yielded ==> Preemptible(s, t, x) && v'.s == YieldCore(v.s, caller, x))
            && VisitedCore(s, v', t, x)
            && v'.lowest < s.tcbs[t].priority
  {
    YieldVisitSame(v, caller, t, x);
    SameTransitive(s, v.s, YieldVisit(v, caller, t, x).s);
    AskedOthers(v.s, caller, x);
    SamePlaced(s, v.s);
    SameTask(s, v.s, s.current[x]);
    SameTask(s, v.s, t);
    hide SamePlaces, Mapped, YieldCore;
    MappedCurrent(s);
  }

  lemma SameTask(s: State, s': State, t: Task)
    requires SamePlaces(s, s') && t in s.tcbs
    ensures t in s'.tcbs && Effective(s', t) == Effective(s, t) && s'.multiple == s.multiple
    ensures s'.tcbs[t].mask == s.tcbs[t].mask && s'.tcbs[t].priority == s.tcbs[t].priority
    ensures IsRunning(s', t) ==> IsRunning(s, t)
  {
  }

  lemma {:induction false} LoopVisited(s: State, v: Search, caller: Core, t: Task, x: Core)
    requires Mapped(s) && Mapped(v.s) && SamePlaces(s, v.s) && t in s.tcbs && x <= |s.current|
    requires Visited(s, v, t, x)
    ensures t in v.s.tcbs && |v.s.current| == |s.current|
    ensures var v' := YieldLoop(v, caller, t, x);
            Mapped(v'.s) && SamePlaces(s, v'.s) && Visited(s, v', t, |s.current|)
    decreases |s.current| - x
  {
    hide Visited, Mapped, SamePlaces, YieldVisit;
    SamePlaced(s, v.s);
    if x < |s.current| {
      VisitStep(s, v, caller, t, x);
      LoopVisited(s, YieldVisit(v, caller, t, x), caller, t, x + 1);
    }
  }

  /** prvYieldForTask makes room: if some core that `t` may use runs something less
      urgent and has not been asked to yield yet, then after the call a core that
      runs something less urgent has been asked; with several priorities at once it
      is the least urgent that `t` may use, and with one priority at a time every
      core that is running a less urgent task, idle ones aside, has been asked. */
  lemma MakesRoom(s: State, caller: Core, t: Task, y: Core) returns (x: Core)
    requires Mapped(s) && t in s.tcbs && y < |s.current|
    requires !IsRunning(s, t) && (!s.multiple ==> s.tcbs[t].priority >= s.top)
    requires Preemptible(s, t, y) && y in s.tcbs[t].mask
    ensures var s' := YieldForTask(s, caller, t);
            && Mapped(s') && s'.current == s.current
            && x < |s.current| && Preemptible(s, t, x) && AskedToYield(s', x)
            && (s.multiple ==> x in s.tcbs[t].mask && Effective(s, s.current[x]) <= Effective(s, s.current[y]))
            && (!s.multiple && Effective(s, s.current[y]) > -1 ==> AskedToYield(s', y))
  {
    hide YieldLoop, SamePlaces, Mapped, YieldCore, Visited, Preemptible, AskedToYield, Effective;
    YieldForTaskSame(s, caller, t);
    SamePlaced(s, YieldForTask(s, caller, t));
    var v := AfterLoop(s, caller, t);
    x := RoomFound(s, caller, t, y, v);
  }

  lemma RoomFound(s: State, caller: Core, t: Task, y: Core, v: Search) returns (x: Core)
    requires Mapped(s) && t in s.tcbs && y < |s.current|
    requires Mapped(v.s) && SamePlaces(s, v.s) && Visited(s, v, t, |s.current|)
    requires !IsRunning(s, t) && Preemptible(s, t, y) && y in s.tcbs[t].mask
    ensures v.core.Some? && v.core.value < |s.current| == |v.s.current|
    ensures var s' := if s.multiple || v.yielded == 0 then YieldCore(v.s, caller, v.core.value) else v.s;
            && Mapped(s') && s'.current == s.current
            && x < |s.current| && Preemptible(s, t, x) && AskedToYield(s', x)
            && (s.multiple ==> x in s.tcbs[t].mask && Effective(s, s.current[x]) <= Effective(s, s.current[y]))
            && (!s.multiple && Effective(s, s.current[y]) > -1 ==> AskedToYield(s', y))
  {
    hide SamePlaces, Mapped, Effective, YieldCore, AskedToYield, Preemptible, IsRunning;
    assert VisitedCore(s, v, t, y);
    assert Candidate(s, v, t);
    SamePlaced(s, v.s);
    x := v.core.value;
    if s.multiple || v.yielded == 0 {
      AskedOthers(v.s, caller, x);
    } else {
      var z :| 0 <= z < |s.current| && Told(s, v, t, z);
      x := z;
    }
  }

  /** The state of the search when its loop is done. */
  lemma AfterLoop(s: State, caller: Core, t: Task) returns (v: Search)
    requires Mapped(s) && t in s.tcbs
    ensures v == YieldLoop(Search(s, s.tcbs[t].priority - 1, None, 0), caller, t, 0)
    ensures Mapped(v.s) && SamePlaces(s, v.s) && Visited(s, v, t, |s.current|)
    ensures v.core.Some? ==> v.core.value < |s.current| == |v.s.current|
  {
    SameItself(s);
    var v0 := Search(s, s.tcbs[t].priority - 1, None, 0);
    assert Visited(s, v0, t, 0);
    hide Visited, Mapped;
    LoopVisited(s, v0, caller, t, 0);
    v := YieldLoop(v0, caller, t, 0);
    VisitedCandidate(s, v, t);
    SamePlaced(s, v.s);
  }

  lemma VisitedCandidate(s: State, v: Search, t: Task)
    requires Mapped(s) && Mapped(v.s) && SamePlaces(s, v.s) && t in s.tcbs && Visited(s, v, t, |s.current|)
    ensures v.core.Some? ==> Candidate(s, v, t)
    ensures forall y | 0 <= y < |s.current| :: VisitedCore(s, v, t, y)
  {
  }

  /** The assertion at the end of prvYieldForTask: with one priority at a time the
      calling core always yields to a more urgent task. */
  lemma CallerYields(s: State, caller: Core, t: Task)
    requires Mapped(s) && t in s.tcbs && caller < |s.current|
    requires !s.multiple && s.tcbs[t].priority >= s.top
    requires !s.tcbs[s.current[caller]].idle && s.tcbs[t].priority > s.tcbs[s.current[caller]].priority
    ensures var s' := YieldForTask(s, caller, t);
            Mapped(s') && s'.current == s.current && AskedToYield(s', caller)
  {
    hide YieldLoop, SamePlaces, Mapped, YieldCore, Visited, Candidate;
    YieldForTaskSame(s, caller, t);
    SamePlaced(s, YieldForTask(s, caller, t));
    var v := AfterLoop(s, caller, t);
    VisitedCandidate(s, v, t);
    assert VisitedCore(s, v, t, caller);
    AskedStays(s, v.s, caller);
    SamePlaced(s, v.s);
    MappedCurrent(s);
    if v.core.Some? {
      AskedOthers(v.s, caller, v.core.value);
    }
  }

  lemma AskedStays(s: State, s': State, x: Core)
    requires Mapped(s) && Mapped(s') && SamePlaces(s, s') && x < |s.current|
    ensures AskedToYield(s, x) ==> AskedToYield(s', x)
  {
  }

  // ---------------------------------------------------------------- the steps of a run

  /** What can happen once the scheduler runs, each executed by some core `c`:
      a context switch; a change of affinity; a deletion, and the clean-up of an
      idle task; a task that blocks or is suspended (`ask`: and is asked to yield if
      it runs); a task that becomes ready; a new task; a tick that ends time slices;
      any other request to yield. */
  datatype Event =
      Switch(c: Core, suspended: bool)
    | SetAffinity(c: Core, t: Task, mask: set<Core>)
    | Delete(c: Core, t: Task)
    | CleanUp
    | Leave(c: Core, t: Task, ask: bool)
    | MakeReady(c: Core, t: Task)
    | Create(c: Core, t: Task, priority: nat, mask: set<Core>)
    | TickSlice(c: Core)
    | RequestYield(c: Core, x: Core)

  /** Idle tasks are never deleted, blocked or bound to a core. */
  ghost predicate Ordinary(s: State, t: Task) {
    t in s.tcbs && !s.tcbs[t].idle && t !in s.terminating
  }

  ghost predicate Enabled(s: State, e: Event) {
    && (e.CleanUp? || e.c < |s.current|)
    && match e
       case Switch(_, _) => true
       case SetAffinity(_, t, _) => t in s.tcbs && !s.tcbs[t].idle
       case Delete(_, t) => Ordinary(s, t)
       case CleanUp => true
       case Leave(_, t, _) => Ordinary(s, t)
       case MakeReady(_, t) => Ordinary(s, t) && !InReady(s, t)
       case Create(_, t, priority, _) => t !in s.tcbs && priority < |s.ready|
       case TickSlice(_) => true
       case RequestYield(_, x) => x < |s.current|
  }

  /** uxListRemove on the task's state list item, as far as the ready lists go */
  function Unlist(s: State, t: Task): State {
    if InReady(s, t) then
      var p := s.tcbs[t].priority;
      s.(ready := s.ready[p := Without(s.ready[p], t)])
    else s
  }

  /** prvAddTaskToReadyList */
  function AddToReady(s: State, t: Task): State
    requires t in s.tcbs && s.tcbs[t].priority < |s.ready|
  {
    var p := s.tcbs[t].priority;
    s.(ready := s.ready[p := s.ready[p] + [t]], top := if p > s.top then p else s.top)
  }

  /** prvDeleteTCB */
  function Free(s: State, t: Task): State {
    s.(tcbs := s.tcbs - {t})
  }

  ghost function Step(s: State, e: Event): State
    requires Inv(s) && Enabled(s, e)
  {
    match e
    case Switch(c, suspended) => SwitchContext(s, c, suspended)
    case SetAffinity(c, t, mask) =>
      var s1 := s.(tcbs := s.tcbs[t := s.tcbs[t].(mask := mask)]);
      MaskMapped(s, t, mask);
      if IsRunning(s1, t) then
        if s1.tcbs[t].run !in mask then YieldCore(s1, c, s1.tcbs[t].run) else s1
      else YieldForTask(s1, c, t)
    case Delete(c, t) =>
      var s1 := Unlist(s, t);
      if s.tcbs[t].run != NOT_RUNNING then
        var s2 := s1.(terminating := s.terminating + [t]);
        if IsRunning(s, t) then YieldCore(s2, c, s.tcbs[t].run) else s2
      else Free(s1, t)
    case CleanUp =>
      if s.terminating != [] && s.tcbs[s.terminating[0]].run == NOT_RUNNING
      then Free(s.(terminating := s.terminating[1..]), s.terminating[0])
      else s
    case Leave(c, t, ask) =>
      if ask && IsRunning(s, t) then YieldCore(Unlist(s, t), c, s.tcbs[t].run) else Unlist(s, t)
    case MakeReady(c, t) => YieldForTask(AddToReady(s, t), c, t)
    case Create(c, t, priority, mask) =>
      var s1 := s.(tcbs := s.tcbs[t := Tcb(priority, mask, NOT_RUNNING, false)]);
      CreateMapped(s, t, Tcb(priority, mask, NOT_RUNNING, false));
      YieldForTask(AddToReady(s1, t), c, t)
    case TickSlice(_) => TimeSlice(s)
    case RequestYield(c, x) => YieldCore(s, c, x)
  }

  lemma MaskMapped(s: State, t: Task, mask: set<Core>)
    requires Mapped(s) && t in s.tcbs
    ensures Mapped(s.(tcbs := s.tcbs[t := s.tcbs[t].(mask := mask)]))
  {
  }

  lemma CreateMapped(s: State, t: Task, tcb: Tcb)
    requires Mapped(s) && t !in s.tcbs && tcb.run == NOT_RUNNING
    ensures Mapped(s.(tcbs := s.tcbs[t := tcb]))
  {
  }

  /** The core that a running task's run state names is the one it is current on. */
  lemma RunsThere(s: State, t: Task)
    requires Mapped(s) && t in s.tcbs
    ensures s.tcbs[t].run != NOT_RUNNING <==> t in s.current
    ensures IsRunning(s, t) ==> s.current[s.tcbs[t].run] == t
  {
  }

  // ---------------------------------------------------------------- each step keeps the invariant

  lemma UnlistShape(s: State, t: Task)
    requires Shape(s) && t in s.tcbs && !s.tcbs[t].idle
    ensures Shape(Unlist(s, t)) && !InReady(Unlist(s, t), t)
    ensures Unlist(s, t) == s.(ready := Unlist(s, t).ready) && |Unlist(s, t).ready| == |s.ready|
    ensures forall u :: u != t ==> InReady(Unlist(s, t), u) == InReady(s, u)
  {
    var r := Unlist(s, t);
    if InReady(s, t) {
      var p := s.tcbs[t].priority;
      WithoutTask(s.ready[p], t);
      hide Without;
      FewerListed(s, r, p);
      assert forall u :: u != t ==> InReady(r, u) == InReady(s, u);
      assert IdleTasks(r) == IdleTasks(s);
    }
  }

  lemma FewerListed(s: State, r: State, p: nat)
    requires Listed(s) && p < |s.ready| == |r.ready| && r == s.(ready := s.ready[p := r.ready[p]])
    requires Distinct(r.ready[p]) && forall x | x in r.ready[p] :: x in s.ready[p]
    ensures Listed(r)
  {
    forall i | 0 <= i < |r.ready[p]|
      ensures r.ready[p][i] in s.tcbs && s.tcbs[r.ready[p][i]].priority == p
    {
      assert r.ready[p][i] in r.ready[p];
      var j :| 0 <= j < |s.ready[p]| && s.ready[p][j] == r.ready[p][i];
    }
  }

  lemma AddShape(s: State, t: Task)
    requires Shape(s) && t in s.tcbs && !InReady(s, t) && t !in s.terminating
    ensures Shape(AddToReady(s, t))
  {
  }

  lemma ListsMapSafe(s: State, s': State)
    requires MapSafe(s) && s'.current == s.current && s'.pending == s.pending && s'.tcbs == s.tcbs
    ensures MapSafe(s')
  {
    forall d | 0 <= d < |s'.current|
      ensures Outstanding(s', d)
    {
      assert Outstanding(s, d);
    }
  }

  lemma YieldCoreInv(s: State, c: Core, x: Core)
    requires Inv(s) && x < |s.current|
    ensures Inv(YieldCore(s, c, x)) && YieldCore(s, c, x).tcbs.Keys == s.tcbs.Keys && YieldCore(s, c, x).current == s.current
  {
    hide Shape, YieldCore;
    YieldCoreSame(s, c, x);
    SamePlacesInv(s, YieldCore(s, c, x));
    SamePlaced(s, YieldCore(s, c, x));
  }

  lemma YieldForTaskInv(s: State, c: Core, t: Task)
    requires Inv(s) && t in s.tcbs
    ensures var s' := YieldForTask(s, c, t);
            Inv(s') && s'.tcbs.Keys == s.tcbs.Keys && s'.current == s.current
  {
    hide Shape, YieldForTask;
    YieldForTaskSame(s, c, t);
    SamePlacesInv(s, YieldForTask(s, c, t));
    SamePlaced(s, YieldForTask(s, c, t));
  }

  lemma AffinityShape(s: State, t: Task, mask: set<Core>)
    requires Shape(s) && t in s.tcbs && !s.tcbs[t].idle
    ensures Shape(s.(tcbs := s.tcbs[t := s.tcbs[t].(mask := mask)]))
  {
    var r := s.(tcbs := s.tcbs[t := s.tcbs[t].(mask := mask)]);
    assert IdleTasks(r) == IdleTasks(s);
    assert forall u :: InReady(r, u) == InReady(s, u);
  }

  lemma SetAffinityInv(s: State, e: Event)
    requires Inv(s) && Enabled(s, e) && e.SetAffinity?
    ensures Inv(Step(s, e)) && Step(s, e).tcbs.Keys == s.tcbs.Keys
  {
    var t, mask := e.t, e.mask;
    var s1 := s.(tcbs := s.tcbs[t := s.tcbs[t].(mask := mask)]);
    MaskMapped(s, t, mask);
    AffinityShape(s, t, mask);
    RunsThere(s, t);
    AffinityOutstanding(s, s1, e.c, t, mask);
    hide Shape, YieldCore, YieldForTask;
    if IsRunning(s1, t) && s1.tcbs[t].run !in mask {
      YieldCoreSame(s1, e.c, s1.tcbs[t].run);
      SamePlacesShape(s1, YieldCore(s1, e.c, s1.tcbs[t].run));
    } else {
      if !IsRunning(s1, t) {
        YieldForTaskInv(s1, e.c, t);
      }
    }
  }

  lemma SamePlacesShape(s: State, s': State)
    requires SamePlaces(s, s') && Shape(s)
    ensures Shape(s') && s'.tcbs.Keys == s.tcbs.Keys
  {
    hide Shape;
    SameListsShape(s, s');
  }

  lemma AffinityOutstanding(s: State, s1: State, c: Core, t: Task, mask: set<Core>)
    requires MapSafe(s) && t in s.tcbs && s1 == s.(tcbs := s.tcbs[t := s.tcbs[t].(mask := mask)]) && Mapped(s1)
    requires IsRunning(s, t) ==> s.current[s.tcbs[t].run] == t
    ensures !(IsRunning(s1, t) && s1.tcbs[t].run !in mask) ==> MapSafe(s1)
    ensures IsRunning(s1, t) && s1.tcbs[t].run !in mask ==> MapSafe(YieldCore(s1, c, s1.tcbs[t].run))
  {
    var x := if IsRunning(s1, t) && s1.tcbs[t].run !in mask then s1.tcbs[t].run else -1;
    forall d | 0 <= d < |s1.current| && d != x
      ensures Outstanding(s1, d)
    {
      assert Outstanding(s, d);
    }
    if x >= 0 {
      AskedOthers(s1, c, x);
      var s2 := YieldCore(s1, c, x);
      forall d | 0 <= d < |s2.current|
        ensures Outstanding(s2, d)
      {
        assert d != x ==> Outstanding(s1, d);
      }
    }
  }

  lemma FreeShape(s: State, t: Task)
    requires Shape(s) && t in s.tcbs && !s.tcbs[t].idle && !InReady(s, t) && t !in s.terminating
    ensures Shape(Free(s, t))
  {
    var r := Free(s, t);
    assert IdleTasks(r) == IdleTasks(s);
    assert forall u :: InReady(r, u) == InReady(s, u);
    assert forall p, i | 0 <= p < |s.ready| && 0 <= i < |s.ready[p]| :: s.ready[p][i] in s.ready[p];
  }

  /** A TCB that is current on no core can be freed. */
  lemma FreeInv(s: State, t: Task)
    requires Inv(s) && t in s.tcbs && !s.tcbs[t].idle && !InReady(s, t) && t !in s.terminating
    requires s.tcbs[t].run == NOT_RUNNING
    ensures Inv(Free(s, t)) && t !in s.current
  {
    FreeShape(s, t);
    RunsThere(s, t);
    hide Shape;
    var r := Free(s, t);
    assert Mapped(r);
    forall d | 0 <= d < |r.current|
      ensures Outstanding(r, d)
    {
      assert Outstanding(s, d);
    }
  }

  lemma TerminateShape(s: State, t: Task)
    requires Shape(s) && t in s.tcbs && !InReady(s, t) && t !in s.terminating
    ensures Shape(s.(terminating := s.terminating + [t]))
  {
    ConsDistinct(t, s.terminating);
    var r := s.(terminating := s.terminating + [t]);
    assert IdleTasks(r) == IdleTasks(s);
    assert forall u :: InReady(r, u) == InReady(s, u);
  }

  lemma ReapShape(s: State)
    requires Shape(s) && s.terminating != []
    ensures Shape(s.(terminating := s.terminating[1..])) && s.terminating[0] in s.tcbs
    ensures s.terminating[0] !in s.terminating[1..] && !InReady(s, s.terminating[0]) && !s.tcbs[s.terminating[0]].idle
  {
    var r := s.(terminating := s.terminating[1..]);
    assert IdleTasks(r) == IdleTasks(s);
    assert forall u :: InReady(r, u) == InReady(s, u);
    assert !InReady(s, s.terminating[0]);
  }

  lemma DeleteInv(s: State, e: Event)
    requires Inv(s) && Enabled(s, e) && e.Delete?
    ensures Inv(Step(s, e)) && Step(s, e).current == s.current
    ensures Step(s, e).tcbs.Keys == s.tcbs.Keys || (Step(s, e).tcbs.Keys == s.tcbs.Keys - {e.t} && e.t !in s.current)
  {
    var t := e.t;
    var s1 := Unlist(s, t);
    UnlistShape(s, t);
    ListsMapSafe(s, s1);
    RunsThere(s, t);
    if s.tcbs[t].run != NOT_RUNNING {
      TerminateShape(s1, t);
      ListsMapSafe(s, s1.(terminating := s.terminating + [t]));
      hide Shape, Unlist, YieldCore;
      if IsRunning(s, t) {
        YieldCoreInv(s1.(terminating := s.terminating + [t]), e.c, s.tcbs[t].run);
      }
    } else {
      hide Shape, Unlist;
      FreeInv(s1, t);
    }
  }

  lemma CleanUpInv(s: State)
    requires Inv(s)
    ensures Inv(Step(s, CleanUp)) && Step(s, CleanUp).current == s.current
    ensures forall t :: t in s.tcbs && t !in Step(s, CleanUp).tcbs ==> t !in s.current
    ensures Step(s, CleanUp).tcbs.Keys <= s.tcbs.Keys
  {
    if s.terminating != [] && s.tcbs[s.terminating[0]].run == NOT_RUNNING {
      var t, s1 := s.terminating[0], s.(terminating := s.terminating[1..]);
      ReapShape(s);
      ListsMapSafe(s, s1);
      hide Shape;
      FreeInv(s1, t);
    }
  }

  lemma LeaveInv(s: State, e: Event)
    requires Inv(s) && Enabled(s, e) && e.Leave?
    ensures Inv(Step(s, e)) && Step(s, e).tcbs.Keys == s.tcbs.Keys
  {
    UnlistShape(s, e.t);
    ListsMapSafe(s, Unlist(s, e.t));
    hide Shape, Unlist, YieldCore;
    if e.ask && IsRunning(s, e.t) {
      YieldCoreInv(Unlist(s, e.t), e.c, s.tcbs[e.t].run);
    }
  }

  lemma MakeReadyInv(s: State, e: Event)
    requires Inv(s) && Enabled(s, e) && e.MakeReady?
    ensures Inv(Step(s, e)) && Step(s, e).tcbs.Keys == s.tcbs.Keys
  {
    AddShape(s, e.t);
    ListsMapSafe(s, AddToReady(s, e.t));
    hide Shape, YieldForTask;
    YieldForTaskInv(AddToReady(s, e.t), e.c, e.t);
  }

  lemma CreateInv(s: State, e: Event)
    requires Inv(s) && Enabled(s, e) && e.Create?
    ensures Inv(Step(s, e)) && s.tcbs.Keys <= Step(s, e).tcbs.Keys
  {
    var tcb := Tcb(e.priority, e.mask, NOT_RUNNING, false);
    var s1 := s.(tcbs := s.tcbs[e.t := tcb]);
    CreateMapped(s, e.t, tcb);
    CreateShape(s, e.t, tcb);
    assert MapSafe(s1) by {
      hide Shape;
      forall d | 0 <= d < |s1.current|
        ensures Outstanding(s1, d)
      {
        assert Outstanding(s, d);
      }
    }
    AddShape(s1, e.t);
    ListsMapSafe(s1, AddToReady(s1, e.t));
    hide Shape, YieldForTask;
    YieldForTaskInv(AddToReady(s1, e.t), e.c, e.t);
  }

  lemma CreateShape(s: State, t: Task, tcb: Tcb)
    requires Shape(s) && t !in s.tcbs && !tcb.idle && tcb.priority < |s.ready|
    ensures var s1 := s.(tcbs := s.tcbs[t := tcb]); Shape(s1) && !InReady(s1, t) && t !in s1.terminating
  {
    var r := s.(tcbs := s.tcbs[t := tcb]);
    assert IdleTasks(r) == IdleTasks(s);
    assert t !in s.ready[tcb.priority] by {
      assert forall i | 0 <= i < |s.ready[tcb.priority]| :: s.ready[tcb.priority][i] in s.tcbs;
    }
    assert forall u :: u != t ==> InReady(r, u) == InReady(s, u);
  }

  /** Every step keeps the invariant, and a TCB that a step frees was current nowhere. */
  lemma StepInv(s: State, e: Event)
    requires Inv(s) && Enabled(s, e)
    ensures Inv(Step(s, e))
    ensures forall t :: t in s.tcbs && t !in Step(s, e).tcbs ==> t !in s.current && t !in Step(s, e).current
  {
    hide Inv, Enabled;
    match e
    case Switch(c, suspended) =>
      EnabledCore(s, e);
      SwitchContextInv(s, c, suspended);
    case SetAffinity(_, _, _) => SetAffinityInv(s, e);
    case Delete(_, _) => DeleteInv(s, e);
    case CleanUp => CleanUpInv(s);
    case Leave(_, _, _) => LeaveInv(s, e);
    case MakeReady(_, _) => MakeReadyInv(s, e);
    case Create(_, _, _, _) => CreateInv(s, e);
    case TickSlice(_) => TimeSliceInv(s);
    case RequestYield(c, x) =>
      EnabledCore(s, e);
      YieldCoreInv(s, c, x);
  }

  lemma TimeSliceInv(s: State)
    requires Inv(s)
    ensures Inv(TimeSlice(s)) && TimeSlice(s).tcbs == s.tcbs
  {
    TimeSliceSame(s);
    SamePlacesInv(s, TimeSlice(s));
  }

  lemma EnabledCore(s: State, e: Event)
    requires Enabled(s, e)
    ensures e.CleanUp? || e.c < |s.current|
    ensures e.RequestYield? ==> e.x < |s.current|
  {
  }

  // ---------------------------------------------------------------- runs

  /** When the scheduler starts every core runs an idle task and nothing else runs. */
  lemma StartInv(s: State)
    requires Shape(s) && |s.pending| == |s.current| > 0 && Distinct(s.current)
    requires forall c | 0 <= c < |s.current| :: s.current[c] in s.tcbs && s.tcbs[s.current[c]].idle
    requires forall c | 0 <= c < |s.current| :: s.tcbs[s.current[c]].run == c
    requires forall t | t in s.tcbs && t !in s.current :: s.tcbs[t].run == NOT_RUNNING
    ensures Inv(s)
  {
  }

  ghost predicate AllowedRun(s: State, es: seq<Event>)
    requires Inv(s)
    decreases |es|
  {
    es == [] || (Enabled(s, es[0]) && (StepInv(s, es[0]); AllowedRun(Step(s, es[0]), es[1..])))
  }

  ghost function Run(s: State, es: seq<Event>): (s': State)
    requires Inv(s) && AllowedRun(s, es)
    ensures Inv(s')
    decreases |es|
  {
    if es == [] then s else
      StepInv(s, es[0]);
      Run(Step(s, es[0]), es[1..])
  }

  /** Map safety, in every state of every run: no task is current on two cores; a
      current task's run state is its core or scheduled-to-yield; everyone else's is
      not-running; and whoever is on a core outside its mask has been asked to yield. */
  lemma MapSafety(s: State, es: seq<Event>)
    requires Inv(s) && AllowedRun(s, es)
    ensures var s' := Run(s, es);
            && |s'.current| == |s'.pending| > 0
            && (forall c, d | 0 <= c < d < |s'.current| :: s'.current[c] != s'.current[d])
            && (forall c | 0 <= c < |s'.current| :: s'.current[c] in s'.tcbs &&
                  s'.tcbs[s'.current[c]].run in {c, SCHEDULED_TO_YIELD} &&
                  (c in s'.tcbs[s'.current[c]].mask || s'.pending[c] || s'.tcbs[s'.current[c]].run == SCHEDULED_TO_YIELD))
            && (forall t | t in s'.tcbs && t !in s'.current :: s'.tcbs[t].run == NOT_RUNNING)
  {
    var s' := Run(s, es);
    hide Run, AllowedRun, Shape;
    forall c | 0 <= c < |s'.current|
      ensures c in s'.tcbs[s'.current[c]].mask || s'.pending[c] || s'.tcbs[s'.current[c]].run == SCHEDULED_TO_YIELD
    {
      assert Outstanding(s', c);
    }
  }

  // ---------------------------------------------------------------- who is asked to yield

  /** Asking the idle cores asks exactly those. */
  lemma {:induction false} YieldIdleAsks(s: State, c: Core, x: nat)
    requires Mapped(s) && c < |s.current| && x <= |s.current|
    ensures var s' := YieldIdle(s, c, x);
            && Mapped(s') && SamePlaces(s, s') && s'.current == s.current
            && (forall d | 0 <= d < |s.current| ::
                  AskedToYield(s', d) <==> AskedToYield(s, d) || (x <= d && s.tcbs[s.current[d]].idle))
    decreases |s.current| - x
  {
    hide Mapped, SamePlaces, YieldCore, AskedToYield;
    YieldIdleSame(s, c, x);
    SamePlaced(s, YieldIdle(s, c, x));
    MappedCurrent(s);
    if x < |s.current| {
      if s.tcbs[s.current[x]].idle {
        var s1 := YieldCore(s, c, x);
        AskedOthers(s, c, x);
        YieldCoreSame(s, c, x);
        SameIdle(s, s1);
        YieldIdleAsks(s1, c, x + 1);
      } else {
        YieldIdleAsks(s, c, x + 1);
      }
    }
  }

  lemma SameIdle(s: State, s': State)
    requires SamePlaces(s, s')
    ensures s'.tcbs.Keys == s.tcbs.Keys
    ensures forall t | t in s.tcbs :: s'.tcbs[t].idle == s.tcbs[t].idle && Effective(s', t) == Effective(s, t) && s'.tcbs[t].mask == s.tcbs[t].mask
  {
  }

  /** Core `d` is one of `cores`, runs something below `lowest`, and has not been asked. */
  ghost predicate Open(s: State, cores: set<Core>, lowest: int, d: Core)
    requires Mapped(s) && d < |s.current|
  {
    d in cores && Effective(s, s.current[d]) < lowest && !AskedToYield(s, d)
  }

  /** Of the open cores below `x`, core `y` runs the least urgent task, and is the
      highest numbered of equals. */
  ghost predicate LeastUrgent(s: State, cores: set<Core>, lowest: int, x: nat, y: Core)
    requires Mapped(s) && x <= |s.current|
  {
    && y < x && Open(s, cores, lowest, y)
    && forall d | 0 <= d < x && Open(s, cores, lowest, d) :: Before(s, y, d)
  }

  predicate Before(s: State, y: Core, d: Core)
    requires Mapped(s) && y < |s.current| && d < |s.current|
  {
    Effective(s, s.current[y]) < Effective(s, s.current[d]) || (Effective(s, s.current[y]) == Effective(s, s.current[d]) && d <= y)
  }

  ghost predicate NoneOpen(s: State, cores: set<Core>, lowest: int, x: nat)
    requires Mapped(s) && x <= |s.current|
  {
    forall d | 0 <= d < x :: !Open(s, cores, lowest, d)
  }

  /** The search finds that core, if there is one. */
  lemma {:induction false} CoreForExactly(s: State, cores: set<Core>, x: nat, lowest: int, found: Option<Core>)
    requires Mapped(s) && x <= |s.current|
    ensures var r := CoreFor(s, cores, x, lowest, found);
            (NoneOpen(s, cores, lowest, x) && r == found) || (r.Some? && LeastUrgent(s, cores, lowest, x, r.value))
  {
    if x > 0 {
      MappedCurrent(s);
      var t := s.current[x - 1];
      TakesOpen(s, cores, x, lowest, found);
      hide Mapped, AskedToYield, Effective, CoreFor;
      if Open(s, cores, lowest, x - 1) {
        CoreForExactly(s, cores, x - 1, Effective(s, t), Some(x - 1));
        MoreUrgent(s, cores, lowest, x, CoreFor(s, cores, x - 1, Effective(s, t), Some(x - 1)));
      } else {
        CoreForExactly(s, cores, x - 1, lowest, found);
      }
    }
  }

  lemma TakesOpen(s: State, cores: set<Core>, x: nat, lowest: int, found: Option<Core>)
    requires Mapped(s) && 0 < x <= |s.current|
    ensures CoreFor(s, cores, x, lowest, found) ==
              if Open(s, cores, lowest, x - 1) then CoreFor(s, cores, x - 1, Effective(s, s.current[x - 1]), Some(x - 1))
              else CoreFor(s, cores, x - 1, lowest, found)
  {
  }

  /** Only something less urgent still is found behind a candidate. */
  lemma MoreUrgent(s: State, cores: set<Core>, lowest: int, x: nat, r: Option<Core>)
    requires Mapped(s) && 0 < x <= |s.current| && Open(s, cores, lowest, x - 1)
    requires var e := Effective(s, s.current[x - 1]);
             (NoneOpen(s, cores, e, x - 1) && r == Some(x - 1)) || (r.Some? && LeastUrgent(s, cores, e, x - 1, r.value))
    ensures r.Some? && LeastUrgent(s, cores, lowest, x, r.value)
  {
    MappedCurrent(s);
    hide Mapped, AskedToYield, Effective;
    var e := Effective(s, s.current[x - 1]);
    forall d | 0 <= d < x && Open(s, cores, lowest, d)
      ensures Before(s, r.value, d)
    {
      assert d < x - 1 && Effective(s, s.current[d]) < e ==> Open(s, cores, e, d);
    }
  }

  /** The cores on which a task evicted from core `c` may displace another. */
  function CoresLeft(s: State, c: Core, evicted: Task): set<Core>
    requires Mapped(s) && c < |s.current| && evicted in s.tcbs
  {
    var mask := s.tcbs[evicted].mask;
    if c in mask then mask - s.tcbs[s.current[c]].mask else mask
  }

  function Displaced(s: State, c: Core, evicted: Task): Option<Core>
    requires Mapped(s) && c < |s.current| && evicted in s.tcbs
  {
    CoreFor(s, CoresLeft(s, c, evicted), |s.current|, Effective(s, evicted), None)
  }

  /** An evicted task displaces the least urgent task it can, by asking just that core. */
  lemma DisplaceAsks(s: State, c: Core, evicted: Task)
    requires Mapped(s) && c < |s.current| && evicted in s.tcbs
    ensures var s', y := Displace(s, c, evicted), Displaced(s, c, evicted);
            var cores, lowest := CoresLeft(s, c, evicted), Effective(s, evicted);
            && Mapped(s') && s'.current == s.current
            && (y.Some? ==> LeastUrgent(s, cores, lowest, |s.current|, y.value))
            && (y.None? ==> NoneOpen(s, cores, lowest, |s.current|))
            && (forall d | 0 <= d < |s.current| :: AskedToYield(s', d) <==> AskedToYield(s, d) || y == Some(d))
  {
    CoreForExactly(s, CoresLeft(s, c, evicted), |s.current|, Effective(s, evicted), None);
    var y := Displaced(s, c, evicted);
    hide Mapped, AskedToYield, Effective, CoreFor, YieldCore;
    if y.Some? {
      AskedOthers(s, c, y.value);
    }
  }

  /** The highest priority counts as dropped exactly if uxTopReadyPriority is lower than before. */
  lemma {:induction false} ScanDropped(s: State, c: Core, priority: nat, decrement: bool, top: int, dropped: bool)
    requires c < |s.current| && priority < |s.ready|
    ensures var r := Scan(s, c, priority, decrement, top, dropped);
            && r.top <= top && (r.dropped <==> dropped || (!s.multiple && r.top < top)) && (!decrement ==> r.top == top)
    decreases priority
  {
    hide First;
    var level := if !s.multiple && priority < top then 0 else priority;
    if level > 0 {
      if s.ready[level] == [] {
        ScanDropped(s, c, level - 1, decrement, if decrement then top - 1 else top, dropped || (decrement && !s.multiple));
      } else {
        ScanDropped(s, c, level - 1, false, top, dropped);
      }
    }
  }

  /** Giving core `c` a task asks nobody, and answers what core `c` was asked by its run state. */
  lemma AssignAsks(s: State, c: Core, t: Task)
    requires Mapped(s) && c < |s.current| && Eligible(s, t, c, false)
    ensures Mapped(Assign(s, c, t)) && |Assign(s, c, t).current| == |s.current|
    ensures AskedToYield(Assign(s, c, t), c) <==> s.pending[c]
    ensures forall d | 0 <= d < |s.current| && d != c :: AskedToYield(Assign(s, c, t), d) == AskedToYield(s, d)
    ensures forall u | u in s.tcbs :: u in Assign(s, c, t).tcbs && Assign(s, c, t).tcbs[u].idle == s.tcbs[u].idle
                                      && Assign(s, c, t).tcbs[u].mask == s.tcbs[u].mask && Effective(Assign(s, c, t), u) == Effective(s, u)
  {
    AssignMapped(s, c, t);
    assert s.tcbs[t].run == NOT_RUNNING ==> t !in s.current by {
      assert forall d | 0 <= d < |s.current| :: s.tcbs[s.current[d]].run != NOT_RUNNING;
    }
    hide Distinct;
    forall d | 0 <= d < |s.current| && d != c
      ensures AskedToYield(Assign(s, c, t), d) == AskedToYield(s, d)
    {
      assert s.current[d] != s.current[c] by { DistinctAt(s.current, c, d); }
    }
  }

  lemma DistinctAt(s: seq<Task>, i: nat, j: nat)
    requires Distinct(s) && i < |s| && j < |s| && i != j
    ensures s[i] != s[j]
  {
  }

  /** A task evicted from core `c` by `newcomer` may displace what core `d` runs. */
  ghost predicate MayBeDisplaced(s: State, c: Core, evicted: Task, newcomer: Task, d: Core)
    requires Mapped(s) && c < |s.current| && evicted in s.tcbs && newcomer in s.tcbs
  {
    && d < |s.current| && d != c && d in s.tcbs[evicted].mask
    && (c in s.tcbs[evicted].mask ==> d !in s.tcbs[newcomer].mask)
    && Effective(s, s.current[d]) < Effective(s, evicted) && !AskedToYield(s, d)
  }

  lemma MayBeIsOpen(s: State, c: Core, evicted: Task, d: Core)
    requires Mapped(s) && c < |s.current| && d < |s.current| && evicted in s.tcbs && c in s.tcbs[s.current[c]].mask
    ensures MayBeDisplaced(s, c, evicted, s.current[c], d) <==> Open(s, CoresLeft(s, c, evicted), Effective(s, evicted), d)
  {
    hide AskedToYield, Effective;
  }

  /** What follows the choice, as far as requests to yield go. */
  lemma SettleAsks(s: State, c: Core, dropped: bool, evicted: Option<Task>) returns (y: Option<Core>)
    requires Mapped(s) && c < |s.current| && (evicted.Some? ==> evicted.value in s.tcbs)
    requires s.current[c] in s.tcbs && c in s.tcbs[s.current[c]].mask
    ensures var s' := Settle(s, c, dropped, evicted);
            && Mapped(s') && SamePlaces(s, s') && s'.current == s.current
            && (forall d | 0 <= d < |s.current| ::
                  AskedToYield(s', d) <==> AskedToYield(s, d) || (dropped && s.tcbs[s.current[d]].idle) || y == Some(d))
            && (y.Some? ==> evicted.Some? && InReady(s, evicted.value) && MayBeDisplaced(s, c, evicted.value, s.current[c], y.value)
                            && !(dropped && s.tcbs[s.current[y.value]].idle))
            && (evicted.Some? && InReady(s, evicted.value) ==>
                  forall d | 0 <= d < |s.current| && MayBeDisplaced(s, c, evicted.value, s.current[c], d) ::
                    (dropped && s.tcbs[s.current[d]].idle)
                    || (y.Some? && Effective(s, s.current[y.value]) <= Effective(s, s.current[d])))
  {
    SettleSame(s, c, dropped, evicted);
    SameItself(s);
    YieldIdleAsks(s, c, 0);
    var s1 := if dropped then YieldIdle(s, c, 0) else s;
    SameIdle(s, s1);
    SamePlaced(s, s1);
    SamePlaced(s, Settle(s, c, dropped, evicted));
    MappedCurrent(s);
    y := None;
    assert evicted.Some? ==> InReady(s1, evicted.value) == InReady(s, evicted.value) by { SameReady(s, s1); }
    hide Mapped, SamePlaces, AskedToYield, Effective, InReady, YieldIdle, Displace, MayBeDisplaced, CoresLeft;
    if evicted.Some? && InReady(s1, evicted.value) {
      DisplaceAsks(s1, c, evicted.value);
      y := Displaced(s1, c, evicted.value);
      DisplacedFrom(s, s1, c, dropped, evicted.value, y);
    }
  }

  /** Who may be displaced once the idle cores have been asked. */
  lemma DisplacedFrom(s: State, s1: State, c: Core, dropped: bool, evicted: Task, y: Option<Core>)
    requires Mapped(s) && Mapped(s1) && SamePlaces(s, s1) && s1.current == s.current && c < |s.current| && evicted in s.tcbs
    requires s.current[c] in s.tcbs && c in s.tcbs[s.current[c]].mask && evicted in s1.tcbs
    requires forall d | 0 <= d < |s.current| :: AskedToYield(s1, d) <==> AskedToYield(s, d) || (dropped && s.tcbs[s.current[d]].idle)
    requires var cores, lowest := CoresLeft(s1, c, evicted), Effective(s1, evicted);
             && (y.Some? ==> LeastUrgent(s1, cores, lowest, |s1.current|, y.value))
             && (y.None? ==> NoneOpen(s1, cores, lowest, |s1.current|))
    ensures y.Some? ==> MayBeDisplaced(s, c, evicted, s.current[c], y.value) && !(dropped && s.tcbs[s.current[y.value]].idle)
    ensures forall d | 0 <= d < |s.current| && MayBeDisplaced(s, c, evicted, s.current[c], d) ::
              (dropped && s.tcbs[s.current[d]].idle)
              || (y.Some? && Effective(s, s.current[y.value]) <= Effective(s, s.current[d]))
  {
    SameIdle(s, s1);
    MappedCurrent(s);
    var cores, lowest := CoresLeft(s1, c, evicted), Effective(s1, evicted);
    if y.Some? {
      MayBeIsOpen(s, c, evicted, y.value);
    }
    hide Mapped, SamePlaces, AskedToYield, Effective;
    forall d | 0 <= d < |s.current| && MayBeDisplaced(s, c, evicted, s.current[c], d)
      ensures (dropped && s.tcbs[s.current[d]].idle)
              || (y.Some? && Effective(s, s.current[y.value]) <= Effective(s, s.current[d]))
    {
      MayBeIsOpen(s, c, evicted, d);
      if !(dropped && s.tcbs[s.current[d]].idle) {
        assert Open(s1, cores, lowest, d);
        assert y.Some? && Before(s1, y.value, d);
      }
    }
  }

  lemma SameReady(s: State, s': State)
    requires SamePlaces(s, s')
    ensures forall t :: InReady(s', t) == InReady(s, t)
  {
  }

  /** What a selection comes to. */
  lemma SelectIs(s: State, c: Core) returns (s2: State, r: Choice)
    requires Mapped(s) && Shape(s) && c < |s.current| && OthersOutstanding(s, c)
    ensures r.task.Some? && r.task.value in s.tcbs && s2 == s.(ready := s2.ready, top := r.top) && (r.dropped <==> !s.multiple && r.top < s.top)
    ensures Mapped(s2) && Eligible(s2, r.task.value, c, false) && Mapped(Assign(s2, c, r.task.value))
    ensures s.current[c] in Assign(s2, c, r.task.value).tcbs && |Assign(s2, c, r.task.value).current| == |s.current|
    ensures forall t :: InReady(s2, t) == InReady(s, t)
    ensures Assign(s2, c, r.task.value).current == s.current[c := r.task.value]
    ensures Select(s, c) == Settle(Assign(s2, c, r.task.value), c, r.dropped,
                                   if s.tcbs[r.task.value].run == NOT_RUNNING then Some(s.current[c]) else None)
  {
    RotateShape(s, c);
    RotateSame(s, c);
    var s1 := Rotate(s, c);
    IdleFree(s1, c);
    ScanRight(s1, c, s.top, true, s.top, false);
    ScanDropped(s1, c, s.top, true, s.top, false);
    r := Scan(s1, c, s.top, true, s.top, false);
    s2 := s1.(top := r.top);
    hide First, Rotate, Scan, Settle, Listed, TopBounds, IdleReady, EnoughIdle, Deleted, OthersOutstanding;
    AssignMapped(s2, c, r.task.value);
    AssignLists(s2, c, r.task.value);
  }

  /** What giving core `c` a task leaves as it was. */
  lemma AssignedFacts(s: State, s2: State, c: Core, t: Task)
    requires Mapped(s) && Mapped(s2) && c < |s.current| && !s.pending[c] && s2 == s.(ready := s2.ready, top := s2.top)
    requires Eligible(s2, t, c, false) && forall u :: InReady(s2, u) == InReady(s, u)
    ensures var s3 := Assign(s2, c, t);
            && Mapped(s3) && s3.current == s.current[c := t] && s3.tcbs.Keys == s.tcbs.Keys && s3.top == s2.top
            && !AskedToYield(s3, c) && (forall d | 0 <= d < |s.current| && d != c :: AskedToYield(s3, d) == AskedToYield(s, d))
            && (forall u :: InReady(s3, u) == InReady(s, u))
            && (forall u | u in s.tcbs :: s3.tcbs[u].idle == s.tcbs[u].idle && s3.tcbs[u].mask == s.tcbs[u].mask
                                          && Effective(s3, u) == Effective(s, u))
  {
    AssignAsks(s2, c, t);
    AssignLists(s2, c, t);
    AsksAs(s, s2);
    hide Mapped, Assign, AskedToYield;
  }

  lemma MayBeAs(s: State, s3: State, c: Core, evicted: Task, t: Task)
    requires Mapped(s) && Mapped(s3) && c < |s.current| && s3.current == s.current[c := t] && s3.tcbs.Keys == s.tcbs.Keys
    requires evicted in s.tcbs && t in s.tcbs
    requires forall d | 0 <= d < |s.current| && d != c :: AskedToYield(s3, d) == AskedToYield(s, d)
    requires forall u | u in s.tcbs :: s3.tcbs[u].mask == s.tcbs[u].mask && Effective(s3, u) == Effective(s, u)
    ensures forall d :: MayBeDisplaced(s3, c, evicted, t, d) == MayBeDisplaced(s, c, evicted, t, d)
  {
    MappedCurrent(s);
    hide Mapped, AskedToYield, Effective;
  }

  lemma AsksAs(s: State, s': State)
    requires Mapped(s) && Mapped(s') && s' == s.(ready := s'.ready, top := s'.top)
    ensures forall d | 0 <= d < |s.current| :: AskedToYield(s', d) == AskedToYield(s, d)
    ensures forall u | u in s.tcbs :: Effective(s', u) == Effective(s, u)
  {
  }

  lemma SelectAsks(s: State, c: Core) returns (y: Option<Core>)
    requires Mapped(s) && Shape(s) && c < |s.current| && OthersOutstanding(s, c) && !s.pending[c]
    ensures var s', evicted := Select(s, c), s.current[c];
            var dropped := !s.multiple && s'.top < s.top;
            && Mapped(s') && |s'.current| == |s.current| && s'.tcbs.Keys == s.tcbs.Keys
            && (forall d | 0 <= d < |s.current| && d != c :: s'.current[d] == s.current[d])
            && (forall d | 0 <= d < |s.current| ::
                  AskedToYield(s', d) <==> (d != c && AskedToYield(s, d)) || (dropped && s.tcbs[s'.current[d]].idle) || y == Some(d))
            && (y.Some? ==> s'.current[c] != evicted && InReady(s, evicted) && MayBeDisplaced(s, c, evicted, s'.current[c], y.value)
                            && !(dropped && s.tcbs[s.current[y.value]].idle))
            && (s'.current[c] != evicted && InReady(s, evicted) ==>
                  forall d | 0 <= d < |s.current| && MayBeDisplaced(s, c, evicted, s'.current[c], d) ::
                    (dropped && s.tcbs[s.current[d]].idle)
                    || (y.Some? && Effective(s, s.current[y.value]) <= Effective(s, s.current[d])))
  {
    MappedCurrent(s);
    var s2, r := SelectIs(s, c);
    var t, evicted := r.task.value, s.current[c];
    AssignedFacts(s, s2, c, t);
    EligibleFacts(s, s2, c, t);
    var s3 := Assign(s2, c, t);
    var who := if s.tcbs[t].run == NOT_RUNNING then Some(evicted) else None;
    SettleSame(s3, c, r.dropped, who);
    SamePlaced(s3, Settle(s3, c, r.dropped, who));
    MayBeAs(s, s3, c, evicted, t);
    hide Mapped, Shape, Select, Settle, Assign, SamePlaces, Effective, InReady, MapSafe, AskedToYield, Eligible, OthersOutstanding,
         MayBeDisplaced;
    y := SettleAsks(s3, c, r.dropped, who);
  }

  lemma EligibleFacts(s: State, s2: State, c: Core, t: Task)
    requires Mapped(s) && c < |s.current| && s2 == s.(ready := s2.ready, top := s2.top) && Eligible(s2, t, c, false)
    ensures t in s.tcbs && c in s.tcbs[t].mask && (s.tcbs[t].run != NOT_RUNNING <==> t == s.current[c])
  {
  }

  /** Exactly which cores a context switch asks to yield: all that run idle tasks, if
      the highest ready priority has dropped with one priority at a time; and one that
      runs something less urgent than the evicted task, which that one may use, if
      there is one, and the least urgent.  Whoever was asked before stays asked, but
      for the switching core. */
  lemma SwitchAsks(s: State, c: Core) returns (y: Option<Core>)
    requires Inv(s) && c < |s.current|
    ensures var s', evicted := SwitchContext(s, c, false), s.current[c];
            var dropped := !s.multiple && s'.top < s.top;
            && Mapped(s') && |s'.current| == |s.current| && s'.tcbs.Keys == s.tcbs.Keys
            && (forall d | 0 <= d < |s.current| && d != c :: s'.current[d] == s.current[d])
            && (forall d | 0 <= d < |s.current| ::
                  AskedToYield(s', d) <==> (d != c && AskedToYield(s, d)) || (dropped && s.tcbs[s'.current[d]].idle) || y == Some(d))
            && (y.Some? ==> s'.current[c] != evicted && InReady(s, evicted) && MayBeDisplaced(s, c, evicted, s'.current[c], y.value)
                            && !(dropped && s.tcbs[s.current[y.value]].idle))
            && (s'.current[c] != evicted && InReady(s, evicted) ==>
                  forall d | 0 <= d < |s.current| && MayBeDisplaced(s, c, evicted, s'.current[c], d) ::
                    (dropped && s.tcbs[s.current[d]].idle)
                    || (y.Some? && Effective(s, s.current[y.value]) <= Effective(s, s.current[d])))
  {
    PendingSet(s, c, false);
    var s0 := s.(pending := s.pending[c := false]);
    AsksButOne(s, s0, c);
    hide Mapped, Shape, Select, Effective, InReady, MapSafe, AskedToYield, OthersOutstanding;
    y := SelectAsks(s0, c);
  }

  lemma AsksButOne(s: State, s': State, c: Core)
    requires Mapped(s) && Mapped(s') && c < |s.current| && s' == s.(pending := s.pending[c := false])
    ensures !s'.pending[c] && forall d | 0 <= d < |s.current| && d != c :: AskedToYield(s', d) == AskedToYield(s, d)
    ensures forall u | u in s.tcbs :: Effective(s', u) == Effective(s, u)
    ensures forall u :: InReady(s', u) == InReady(s, u)
  {
  }

  /** The tick asks a core whose task is ready exactly if another task is ready at the
      same priority; and nobody else's request is withdrawn. */
  lemma SliceAsks(s: State, x: Core)
    requires Inv(s) && x < |s.current|
    ensures Mapped(TimeSlice(s)) && s.current[x] in s.tcbs && (AskedToYield(s, x) ==> AskedToYield(TimeSlice(s), x))
    ensures InReady(s, s.current[x]) ==>
              (AskedToYield(TimeSlice(s), x) <==>
                 AskedToYield(s, x)
                 || exists u :: u != s.current[x] && InReady(s, u) && s.tcbs[u].priority == s.tcbs[s.current[x]].priority)
  {
    TimeSliceSame(s);
    var t := s.current[x];
    if InReady(s, t) {
      var list := s.ready[s.tcbs[t].priority];
      var i :| 0 <= i < |list| && list[i] == t;
      if |list| > 1 {
        var j := if i == 0 then 1 else 0;
        assert list[j] != t && InReady(s, list[j]) && s.tcbs[list[j]].priority == s.tcbs[t].priority;
      }
    }
    hide Shape, MapSafe;
  }

  /** A running task that is deleted, blocks or is suspended has its core asked to
      yield, and no other core is. */
  lemma StoppingAsks(s: State, e: Event, x: Core)
    requires Inv(s) && Enabled(s, e) && (e.Delete? || (e.Leave? && e.ask)) && x < |s.current|
    ensures var s' := Step(s, e);
            && Mapped(s') && |s'.current| == |s.current|
            && (AskedToYield(s', x) <==> AskedToYield(s, x) || s.current[x] == e.t)
    ensures e.Delete? && e.t in s.current ==> e.t in Step(s, e).terminating && e.t in Step(s, e).tcbs
    ensures e.Delete? && e.t !in s.current ==> e.t !in Step(s, e).tcbs
  {
    var t := e.t;
    EnabledOrdinary(s, e);
    InvMapSafe(s);
    RunsThere(s, t);
    UnlistAsks(s, t);
    var s2 := if e.Delete? then Unlist(s, t).(terminating := s.terminating + [t]) else Unlist(s, t);
    AsksRunner(s, s2, e.c, t, x);
    StopStep(s, e);
    hide Inv, Unlist, YieldCore, InReady, Step, IsRunning, AskedToYield, Mapped;
  }

  lemma EnabledOrdinary(s: State, e: Event)
    requires Inv(s) && Enabled(s, e) && (e.Delete? || e.Leave?)
    ensures e.t in s.tcbs && e.c < |s.current|
  {
  }

  lemma InvMapSafe(s: State)
    requires Inv(s)
    ensures Mapped(s)
  {
  }

  /** Asking the core that runs `t`, if it runs. */
  function AskRunner(s: State, c: Core, t: Task): State
    requires Mapped(s) && t in s.tcbs
  {
    RunsThere(s, t);
    if IsRunning(s, t) then YieldCore(s, c, s.tcbs[t].run) else s
  }

  lemma StopStep(s: State, e: Event)
    requires Inv(s) && Enabled(s, e) && (e.Delete? || (e.Leave? && e.ask))
    ensures Mapped(s) && e.t in s.tcbs && Mapped(Unlist(s, e.t)) && Unlist(s, e.t).tcbs == s.tcbs && Unlist(s, e.t).current == s.current
    ensures e.Delete? && e.t !in s.current ==> Step(s, e) == Free(Unlist(s, e.t), e.t)
    ensures e.Delete? && e.t in s.current ==> Step(s, e) == AskRunner(Unlist(s, e.t).(terminating := s.terminating + [e.t]), e.c, e.t)
    ensures e.Leave? ==> Step(s, e) == AskRunner(Unlist(s, e.t), e.c, e.t)
  {
    UnlistAsks(s, e.t);
    RunsThere(s, e.t);
    hide Unlist, Free, YieldCore, InReady;
  }

  lemma AsksRunner(s: State, s2: State, c: Core, t: Task, x: Core)
    requires Mapped(s) && Mapped(s2) && t in s.tcbs && x < |s.current| && c < |s.current|
    requires s2.tcbs == s.tcbs && s2.current == s.current && s2.pending == s.pending
    ensures var s' := AskRunner(s2, c, t);
            && Mapped(s') && s'.current == s.current && s'.terminating == s2.terminating && s'.tcbs.Keys == s.tcbs.Keys
            && (AskedToYield(s', x) <==> AskedToYield(s, x) || s.current[x] == t)
    ensures t !in s.current ==> s.current[x] != t
  {
    RunsThere(s, t);
    if IsRunning(s, t) {
      var y := s.tcbs[t].run;
      AskedOthers(s2, c, y);
      YieldCoreSame(s2, c, y);
      if s.current[x] == t {
        OneCore(s, x, y);
      }
    }
  }

  lemma OneCore(s: State, x: Core, y: Core)
    requires Mapped(s) && x < |s.current| && y < |s.current| && s.current[x] == s.current[y]
    ensures x == y
  {
  }

  lemma UnlistAsks(s: State, t: Task)
    requires Mapped(s) && t in s.tcbs
    ensures Mapped(Unlist(s, t)) && Unlist(s, t).current == s.current && Unlist(s, t).tcbs == s.tcbs && Unlist(s, t).pending == s.pending
    ensures forall x | 0 <= x < |s.current| :: AskedToYield(Unlist(s, t), x) == AskedToYield(s, x)
  {
  }

  /** A running task that is given a new mask has its core asked exactly if that is not
      in the mask, and no other core is. */
  lemma AffinityAsks(s: State, c: Core, t: Task, mask: set<Core>, x: Core)
    requires Inv(s) && Enabled(s, SetAffinity(c, t, mask)) && IsRunning(s, t) && x < |s.current|
    ensures var s' := Step(s, SetAffinity(c, t, mask));
            && Mapped(s') && |s'.current| == |s.current|
            && (AskedToYield(s', x) <==> AskedToYield(s, x) || (s.current[x] == t && x !in mask))
  {
    StepInv(s, SetAffinity(c, t, mask));
    RunsThere(s, t);
    MaskMapped(s, t, mask);
    var s1 := s.(tcbs := s.tcbs[t := s.tcbs[t].(mask := mask)]);
    var y := s.tcbs[t].run;
    if s.current[x] == t {
      OneCore(s, x, y);
    }
    assert AskedToYield(s1, x) == AskedToYield(s, x);
    if y !in mask {
      AskedOthers(s1, c, y);
    }
    hide Shape, YieldCore, Outstanding;
  }

  /** A task that becomes ready has room made for it. */
  lemma ReadyMakesRoom(s: State, c: Core, t: Task, y: Core) returns (x: Core)
    requires Inv(s) && Enabled(s, MakeReady(c, t)) && y < |s.current|
    requires !IsRunning(s, t) && (!s.multiple ==> s.tcbs[t].priority >= s.top)
    requires Preemptible(s, t, y) && y in s.tcbs[t].mask
    ensures var s' := Step(s, MakeReady(c, t));
            && Mapped(s') && |s'.current| == |s.current|
            && x < |s.current| && Preemptible(s, t, x) && AskedToYield(s', x)
            && (s.multiple ==> x in s.tcbs[t].mask && Effective(s, s.current[x]) <= Effective(s, s.current[y]))
            && (!s.multiple && Effective(s, s.current[y]) > -1 ==> AskedToYield(s', y))
  {
    ReadyTop(s, t);
    var s1 := AddToReady(s, t);
    ReadyAsks(s, s1, t);
    hide Shape, YieldForTask, AddToReady, AskedToYield, Effective;
    x := MakesRoom(s1, c, t, y);
  }

  lemma ReadyTop(s: State, t: Task)
    requires Inv(s) && t in s.tcbs
    ensures s.tcbs[t].priority < |s.ready|
  {
  }

  lemma ReadyAsks(s: State, s1: State, t: Task)
    requires Mapped(s) && t in s.tcbs && s1 == s.(ready := s1.ready, top := s1.top)
    ensures Mapped(s1)
    ensures forall x | 0 <= x < |s.current| :: AskedToYield(s1, x) == AskedToYield(s, x) && Preemptible(s1, t, x) == Preemptible(s, t, x)
    ensures forall u | u in s.tcbs :: Effective(s1, u) == Effective(s, u) && IsRunning(s1, u) == IsRunning(s, u)
  {
  }

  /** The requests behind `s1` that were not there before are to cores that run
      something less urgent, idle tasks aside, with one priority at a time. */
  ghost predicate OnlyLessUrgent(s: State, s1: State, t: Task)
    requires Mapped(s) && Mapped(s1) && SamePlaces(s, s1) && t in s.tcbs
  {
    forall y | 0 <= y < |s.current| ::
      AskedToYield(s1, y) ==> AskedToYield(s, y) || (!s.multiple && Preemptible(s, t, y) && Effective(s, s.current[y]) > -1)
  }

  lemma VisitAsks(v: Search, caller: Core, t: Task, x: Core)
    requires Mapped(v.s) && t in v.s.tcbs && x < |v.s.current|
    ensures var v' := YieldVisit(v, caller, t, x);
            v'.s == v.s || (v'.s == YieldCore(v.s, caller, x) && !v.s.multiple && Preemptible(v.s, t, x)
                            && Effective(v.s, v.s.current[x]) > -1)
  {
    hide YieldCore;
  }

  lemma {:induction false} LoopAsks(s: State, v: Search, caller: Core, t: Task, x: Core)
    requires Mapped(s) && Mapped(v.s) && SamePlaces(s, v.s) && v.s.current == s.current && t in s.tcbs && t in v.s.tcbs && x <= |s.current|
    requires OnlyLessUrgent(s, v.s, t) && forall y | 0 <= y < |s.current| && x <= y :: AskedToYield(v.s, y) == AskedToYield(s, y)
    ensures var v' := YieldLoop(v, caller, t, x); Mapped(v'.s) && SamePlaces(s, v'.s) && OnlyLessUrgent(s, v'.s, t)
    decreases |s.current| - x
  {
    hide Mapped, SamePlaces, AskedToYield, OnlyLessUrgent, YieldVisit;
    if x < |s.current| {
      YieldVisitSame(v, caller, t, x);
      VisitAsksOnly(s, v, caller, t, x);
      LoopAsks(s, YieldVisit(v, caller, t, x), caller, t, x + 1);
    }
  }

  lemma VisitAsksOnly(s: State, v: Search, caller: Core, t: Task, x: Core)
    requires Mapped(s) && Mapped(v.s) && SamePlaces(s, v.s) && v.s.current == s.current && t in s.tcbs && t in v.s.tcbs && x < |s.current|
    requires OnlyLessUrgent(s, v.s, t) && forall y | 0 <= y < |s.current| && x <= y :: AskedToYield(v.s, y) == AskedToYield(s, y)
    ensures var s1 := YieldVisit(v, caller, t, x).s;
            && Mapped(s1) && SamePlaces(s, s1) && s1.current == s.current && t in s1.tcbs && OnlyLessUrgent(s, s1, t)
            && forall y | 0 <= y < |s.current| && x < y :: AskedToYield(s1, y) == AskedToYield(s, y)
  {
    var s1 := YieldVisit(v, caller, t, x).s;
    YieldVisitSame(v, caller, t, x);
    SameTransitive(s, v.s, s1);
    SamePlaced(s, s1);
    VisitAsks(v, caller, t, x);
    AskedOthers(v.s, caller, x);
    PreemptibleAs(s, v.s, t, x);
    hide Mapped, SamePlaces, AskedToYield, Preemptible, Effective, YieldVisit, YieldCore;
  }

  lemma PreemptibleAs(s: State, s1: State, t: Task, x: Core)
    requires Mapped(s) && Mapped(s1) && SamePlaces(s, s1) && s1.current == s.current && t in s.tcbs && t in s1.tcbs && x < |s.current|
    requires AskedToYield(s1, x) == AskedToYield(s, x)
    ensures Preemptible(s1, t, x) == Preemptible(s, t, x) && Effective(s1, s.current[x]) == Effective(s, s.current[x]) && s1.multiple == s.multiple
  {
  }

  /** prvYieldForTask asks no core in vain: whoever it asks runs something less urgent
      than the task; with several priorities at once, or if it runs an idle task, it
      is a core that the task may use; and with several priorities at once it asks one
      core at most. */
  lemma AsksOnlyForRoom(s: State, caller: Core, t: Task) returns (x: Option<Core>)
    requires Mapped(s) && t in s.tcbs
    ensures var s' := YieldForTask(s, caller, t);
            && Mapped(s') && s'.current == s.current
            && (x.Some? ==> x.value < |s.current| && Preemptible(s, t, x.value) && x.value in s.tcbs[t].mask)
            && (forall y | 0 <= y < |s.current| && AskedToYield(s', y) ::
                  AskedToYield(s, y) || x == Some(y) || (!s.multiple && Preemptible(s, t, y) && Effective(s, s.current[y]) > -1))
  {
    var v := AfterLoop(s, caller, t);
    x := v.core;
    LoopAsksOnly(s, caller, t);
    CandidateFacts(s, v, t);
    YieldForTaskIs(s, caller, t, v);
    hide Mapped, SamePlaces, YieldLoop, AskedToYield, Preemptible, Effective, YieldCore, Visited, YieldForTask;
    SamePlaced(s, v.s);
    if x.Some? {
      AskedOthers(v.s, caller, x.value);
    }
  }

  lemma LoopAsksOnly(s: State, caller: Core, t: Task)
    requires Mapped(s) && t in s.tcbs
    ensures var v := YieldLoop(Search(s, s.tcbs[t].priority - 1, None, 0), caller, t, 0);
            Mapped(v.s) && SamePlaces(s, v.s) && OnlyLessUrgent(s, v.s, t)
  {
    SameItself(s);
    hide Mapped, SamePlaces, YieldLoop, AskedToYield, Preemptible, Effective;
    LoopAsks(s, Search(s, s.tcbs[t].priority - 1, None, 0), caller, t, 0);
  }

  lemma CandidateFacts(s: State, v: Search, t: Task)
    requires Mapped(s) && Mapped(v.s) && SamePlaces(s, v.s) && t in s.tcbs && Visited(s, v, t, |s.current|)
    ensures v.core.Some? ==> v.core.value < |s.current| && Preemptible(s, t, v.core.value) && v.core.value in s.tcbs[t].mask
  {
    VisitedCandidate(s, v, t);
  }

  lemma YieldForTaskIs(s: State, caller: Core, t: Task, v: Search)
    requires Mapped(s) && t in s.tcbs && v == YieldLoop(Search(s, s.tcbs[t].priority - 1, None, 0), caller, t, 0)
    requires Mapped(v.s) && (v.core.Some? ==> v.core.value < |v.s.current|)
    ensures var s' := YieldForTask(s, caller, t);
            s' == s || s' == v.s || (v.core.Some? && s' == YieldCore(v.s, caller, v.core.value))
  {
    hide YieldLoop, YieldCore;
  }

  /** While the scheduler is suspended a context switch is only noted. */
  lemma SuspendedSwitchWaits(s: State, c: Core)
    requires Inv(s) && c < |s.current|
    ensures var s' := SwitchContext(s, c, true);
            && s' == s.(pending := s'.pending) && Mapped(s') && AskedToYield(s', c)
            && forall d | 0 <= d < |s.current| && d != c :: AskedToYield(s', d) == AskedToYield(s, d)
  {
  }

  // ---------------------------------------------------------------- bounded overtaking

  /** `w` is ready at the highest priority that is, does not run, and may run on `c`. */
  ghost predicate WaitsAtTop(s: State, w: Task, c: Core) {
    && InReady(s, w) && s.tcbs[w].run == NOT_RUNNING && c in s.tcbs[w].mask
    && EmptyAbove(s, s.tcbs[w].priority)
  }

  predicate Queued(s: State, t: Task, c: Core) {
    t in s.tcbs && s.tcbs[t].run == NOT_RUNNING && c in s.tcbs[t].mask
  }

  function UpTo(list: seq<Task>, w: Task): seq<Task> {
    if list == [] || list[0] == w then [] else [list[0]] + UpTo(list[1..], w)
  }

  function QueuedIn(s: State, list: seq<Task>, c: Core): nat {
    if list == [] then 0 else (if Queued(s, list[0], c) then 1 else 0) + QueuedIn(s, list[1..], c)
  }

  /** The tasks that core `c` would take before `w`. */
  ghost function Ahead(s: State, w: Task, c: Core): nat
    requires InReady(s, w)
  {
    QueuedIn(s, UpTo(s.ready[s.tcbs[w].priority], w), c)
  }

  lemma {:induction false} UpToWithout(list: seq<Task>, u: Task, w: Task)
    requires u != w
    ensures UpTo(Without(list, u), w) == Without(UpTo(list, w), u)
  {
    if list != [] && list[0] != w && list[0] != u {
      UpToWithout(list[1..], u, w);
    }
  }

  lemma {:induction false} UpToAppend(list: seq<Task>, x: Task, w: Task)
    requires w in list
    ensures UpTo(list + [x], w) == UpTo(list, w)
  {
    assert (list + [x])[0] == list[0];
    if list[0] != w {
      assert (list + [x])[1..] == list[1..] + [x];
      UpToAppend(list[1..], x, w);
    }
  }

  lemma {:induction false} UpToMembers(list: seq<Task>, w: Task)
    ensures forall x | x in UpTo(list, w) :: x in list && x != w
  {
    if list != [] && list[0] != w {
      UpToMembers(list[1..], w);
    }
  }

  lemma {:induction false} FewerQueued(s: State, list: seq<Task>, u: Task, c: Core)
    ensures QueuedIn(s, Without(list, u), c) <= QueuedIn(s, list, c)
  {
    if list != [] && list[0] != u {
      FewerQueued(s, list[1..], u, c);
    }
  }

  /** Fewer are queued if nobody joins, and strictly fewer if somebody has gone. */
  lemma {:induction false} QueuedMono(s: State, s': State, list: seq<Task>, c: Core)
    requires forall i | 0 <= i < |list| :: Queued(s', list[i], c) ==> Queued(s, list[i], c)
    ensures QueuedIn(s', list, c) <= QueuedIn(s, list, c)
    ensures (exists i :: 0 <= i < |list| && Queued(s, list[i], c) && !Queued(s', list[i], c))
              ==> QueuedIn(s', list, c) < QueuedIn(s, list, c)
  {
    if list != [] {
      var t := list[1..];
      assert forall i | 0 <= i < |t| :: t[i] == list[i + 1];
      assert forall i | 0 < i < |list| :: list[i] == t[i - 1];
      QueuedMono(s, s', t, c);
    }
  }

  /** How the list in front of `w` may change in one step: not, or by somebody leaving. */
  ghost predicate Shortened(list: seq<Task>, list': seq<Task>, u: Task) {
    list' == list || list' == Without(list, u)
  }

  /** The ready lists after a step that is no context switch. */
  function QuietReady(s: State, e: Event): seq<seq<Task>> {
    match e
    case Delete(_, t) => Unlist(s, t).ready
    case Leave(_, t, _) => Unlist(s, t).ready
    case MakeReady(_, t) =>
      if t in s.tcbs && s.tcbs[t].priority < |s.ready| then AddToReady(s, t).ready else s.ready
    case Create(_, t, p, _) => if p < |s.ready| then s.ready[p := s.ready[p] + [t]] else s.ready
    case _ => s.ready
  }

  ghost predicate NobodyStops(s: State, s': State) {
    forall x | x in s.tcbs && x in s'.tcbs :: s'.tcbs[x].mask == s.tcbs[x].mask &&
                                             (s'.tcbs[x].run == NOT_RUNNING ==> s.tcbs[x].run == NOT_RUNNING)
  }

  lemma SamePlacesStops(s: State, s': State)
    requires SamePlaces(s, s')
    ensures NobodyStops(s, s') && s'.ready == s.ready
  {
  }

  lemma StopsTransitive(s: State, s1: State, s': State)
    requires s.tcbs.Keys <= s1.tcbs.Keys && NobodyStops(s, s1) && NobodyStops(s1, s')
    ensures NobodyStops(s, s')
  {
  }

  lemma QuietStep(s: State, e: Event)
    requires Inv(s) && Enabled(s, e) && !e.Switch? && !e.SetAffinity?
    ensures Step(s, e).ready == QuietReady(s, e) && NobodyStops(s, Step(s, e))
  {
    SameItself(s);
    match e
    case Delete(c, t) => QuietDelete(s, c, t);
    case Leave(c, t, ask) => QuietLeave(s, c, t, ask);
    case MakeReady(c, t) => QuietMakeReady(s, c, t);
    case Create(c, t, priority, mask) => QuietCreate(s, c, t, Tcb(priority, mask, NOT_RUNNING, false));
    case CleanUp =>
    case TickSlice(_) =>
      TimeSliceSame(s);
      SamePlacesStops(s, TimeSlice(s));
    case RequestYield(c, x) =>
      YieldCoreSame(s, c, x);
      SamePlacesStops(s, YieldCore(s, c, x));
  }

  lemma QuietDelete(s: State, c: Core, t: Task)
    requires Inv(s) && Enabled(s, Delete(c, t))
    ensures Step(s, Delete(c, t)).ready == Unlist(s, t).ready && NobodyStops(s, Step(s, Delete(c, t)))
  {
    RunsThere(s, t);
    var s2 := Unlist(s, t).(terminating := s.terminating + [t]);
    assert Mapped(s2);
    hide Shape, Mapped, Unlist, YieldCore;
    if IsRunning(s, t) {
      YieldCoreSame(s2, c, s.tcbs[t].run);
      SamePlacesStops(s2, YieldCore(s2, c, s.tcbs[t].run));
    }
  }

  lemma QuietLeave(s: State, c: Core, t: Task, ask: bool)
    requires Inv(s) && Enabled(s, Leave(c, t, ask))
    ensures Step(s, Leave(c, t, ask)).ready == Unlist(s, t).ready && NobodyStops(s, Step(s, Leave(c, t, ask)))
  {
    assert Mapped(Unlist(s, t));
    hide Shape, Mapped, Unlist, YieldCore;
    if ask && IsRunning(s, t) {
      YieldCoreSame(Unlist(s, t), c, s.tcbs[t].run);
      SamePlacesStops(Unlist(s, t), YieldCore(Unlist(s, t), c, s.tcbs[t].run));
    }
  }

  lemma QuietMakeReady(s: State, c: Core, t: Task)
    requires Inv(s) && Enabled(s, MakeReady(c, t))
    ensures Step(s, MakeReady(c, t)).ready == AddToReady(s, t).ready && NobodyStops(s, Step(s, MakeReady(c, t)))
  {
    var s1 := AddToReady(s, t);
    assert Mapped(s1);
    hide YieldForTask, Mapped, Shape;
    YieldForTaskSame(s1, c, t);
    SamePlacesStops(s1, YieldForTask(s1, c, t));
  }

  lemma QuietCreate(s: State, c: Core, t: Task, tcb: Tcb)
    requires Inv(s) && Enabled(s, Create(c, t, tcb.priority, tcb.mask)) && tcb.run == NOT_RUNNING && !tcb.idle
    ensures var s' := Step(s, Create(c, t, tcb.priority, tcb.mask));
            s'.ready == s.ready[tcb.priority := s.ready[tcb.priority] + [t]] && NobodyStops(s, s')
  {
    var s1 := s.(tcbs := s.tcbs[t := tcb]);
    CreateMapped(s, t, tcb);
    var s2 := AddToReady(s1, t);
    assert Mapped(s2);
    hide YieldForTask, Mapped, Shape;
    YieldForTaskSame(s2, c, t);
    SamePlacesStops(s2, YieldForTask(s2, c, t));
    StopsTransitive(s, s2, YieldForTask(s2, c, t));
  }

  /** A step that is no context switch and no change of affinity. */
  lemma QuietList(s: State, e: Event, w: Task) returns (u: Task)
    requires Inv(s) && Enabled(s, e) && !e.Switch? && !e.SetAffinity?
    requires InReady(s, w) && InReady(Step(s, e), w) && Step(s, e).tcbs[w].priority == s.tcbs[w].priority
    ensures var p := s.tcbs[w].priority;
            Shortened(UpTo(s.ready[p], w), UpTo(Step(s, e).ready[p], w), u)
  {
    var p := s.tcbs[w].priority;
    u := w;
    QuietStep(s, e);
    hide UpTo, Without, Step, Enabled, Mapped, TopBounds, IdleReady, Deleted, EnoughIdle;
    match e
    case Delete(_, t) =>
      u := t;
      QuietUnlist(s, t, w, p);
    case Leave(_, t, _) =>
      u := t;
      QuietUnlist(s, t, w, p);
    case MakeReady(_, t) => UpToAppend(s.ready[p], t, w);
    case Create(_, t, _, _) => UpToAppend(s.ready[p], t, w);
    case CleanUp =>
    case TickSlice(_) =>
    case RequestYield(_, _) =>
  }

  lemma QuietUnlist(s: State, t: Task, w: Task, p: nat)
    requires p < |s.ready| && InReady(s, w) && p == s.tcbs[w].priority
    requires InReady(Unlist(s, t), w) && Listed(s)
    ensures |Unlist(s, t).ready| == |s.ready| && Shortened(UpTo(s.ready[p], w), UpTo(Unlist(s, t).ready[p], w), t)
  {
    if InReady(s, t) {
      WithoutTask(s.ready[s.tcbs[t].priority], t);
      if t != w {
        UpToWithout(s.ready[p], t, w);
      }
    }
  }

  /** Only the task whose turn is over stops running in a context switch. */
  lemma SelectStops(s: State, c: Core, x: Task)
    requires Mapped(s) && Shape(s) && c < |s.current| && OthersOutstanding(s, c)
    requires x in s.tcbs && x != s.current[c]
    ensures x in Select(s, c).tcbs && Select(s, c).tcbs[x].mask == s.tcbs[x].mask
    ensures Select(s, c).tcbs[x].run == NOT_RUNNING ==> s.tcbs[x].run == NOT_RUNNING
  {
    RotateShape(s, c);
    var s1 := Rotate(s, c);
    IdleFree(s1, c);
    ScanRight(s1, c, s.top, true, s.top, false);
    var r := Scan(s1, c, s.top, true, s.top, false);
    var s2 := s1.(top := r.top);
    AssignMapped(s2, c, r.task.value);
    AssignLists(s2, c, r.task.value);
    AssignStops(s2, c, r.task.value, x);
    var s3 := Assign(s2, c, r.task.value);
    var evicted := if s.tcbs[r.task.value].run == NOT_RUNNING then Some(s.current[c]) else None;
    hide Shape, Mapped, Rotate, Scan, Right, Assign, Settle;
    SettleSame(s3, c, r.dropped, evicted);
    SamePlacesStops(s3, Settle(s3, c, r.dropped, evicted));
  }

  lemma AssignStops(s: State, c: Core, t: Task, x: Task)
    requires c < |s.current| && s.current[c] in s.tcbs && t in s.tcbs && x in s.tcbs && x != s.current[c]
    ensures var s' := Assign(s, c, t);
            x in s'.tcbs && s'.tcbs[x].mask == s.tcbs[x].mask && (s'.tcbs[x].run == NOT_RUNNING ==> s.tcbs[x].run == NOT_RUNNING)
  {
  }

  /** The list in front of `w` after a rotation: the rotated task is not on it. */
  lemma RotateList(s: State, d: Core, w: Task, p: nat)
    requires Mapped(s) && Listed(s) && d < |s.current| && InReady(s, w) && p == s.tcbs[w].priority && w != s.current[d]
    ensures |Rotate(s, d).ready| == |s.ready|
    ensures var l' := UpTo(Rotate(s, d).ready[p], w);
            Shortened(UpTo(s.ready[p], w), l', s.current[d]) && s.current[d] !in l'
  {
    RotateSame(s, d);
    var t := s.current[d];
    UpToMembers(s.ready[p], w);
    hide Mapped;
    if InReady(s, t) && s.tcbs[t].priority == p {
      WithoutTask(s.ready[p], t);
      UpToWithout(s.ready[p], t, w);
      UpToAppend(Without(s.ready[p], t), t, w);
      UpToMembers(Without(s.ready[p], t), w);
    } else {
      assert t !in s.ready[p] by {
        if i :| 0 <= i < |s.ready[p]| && s.ready[p][i] == t {
        }
      }
    }
  }

  /** The first eligible task of a list with an eligible `w` on it is `w` or ahead of it. */
  lemma {:induction false} FirstUpTo(s: State, list: seq<Task>, c: Core, w: Task)
    requires c < |s.current| && w in list && Eligible(s, w, c, false)
    ensures var k := First(s, list, c, false);
            k < |list| && (list[k] == w || list[k] in UpTo(list, w))
  {
    hide Eligible;
    if list[0] != w && !Eligible(s, list[0], c, false) {
      assert w in list[1..];
      FirstUpTo(s, list[1..], c, w);
    }
  }

  /** When a task waits at the top, core `c` takes the first of the top list. */
  lemma TopChoice(s: State, c: Core, r: Choice, w: Task)
    requires c < |s.current| && |s.ready| > 0 && Right(s, c, r) && WaitsAtTop(s, w, c)
    ensures IsFirst(s, s.tcbs[w].priority, c, false, r.task.value)
  {
    var p := s.tcbs[w].priority;
    var i :| 0 <= i < |s.ready[p]| && s.ready[p][i] == w;
    assert Eligible(s, w, c, false);
    hide IsFirst;
    NotFirst(s, c, p, i);
    assert s.ready[p] != [];
  }

  /** A context switch of any core lets nobody in front of `w`; one of core `c` lets
      one task that is in front of it, or `w` itself, run. */
  lemma SwitchList(s: State, d: Core, w: Task, c: Core)
    requires Mapped(s) && Shape(s) && d < |s.current| && OthersOutstanding(s, d) && WaitsAtTop(s, w, c)
    requires Inv(Select(s, d)) && WaitsAtTop(Select(s, d), w, c) && Select(s, d).tcbs[w].priority == s.tcbs[w].priority
    ensures Ahead(Select(s, d), w, c) <= Ahead(s, w, c)
    ensures d == c ==> Ahead(Select(s, d), w, c) < Ahead(s, w, c)
  {
    var s', p, t := Select(s, d), s.tcbs[w].priority, s.current[d];
    SelectRight(s, d);
    RunsThere(s, w);
    RunsThere(s, t);
    RotateList(s, d, w, p);
    var l, l' := UpTo(s.ready[p], w), UpTo(s'.ready[p], w);
    UpToMembers(s'.ready[p], w);
    hide Select, Shape, Rotate, Mapped, Right, Scan;
    forall i | 0 <= i < |l'|
      ensures Queued(s', l'[i], c) ==> Queued(s, l'[i], c)
    {
      ListMember(s', p, l'[i]);
      SelectStops(s, d, l'[i]);
    }
    QueuedMono(s, s', l', c);
    FewerQueued(s, l, t, c);
    if d == c {
      var chosen := ChosenAhead(s, w, c);
      var i :| 0 <= i < |l'| && l'[i] == chosen;
    }
  }

  lemma ListMember(s: State, p: nat, x: Task)
    requires Inv(s) && p < |s.ready|
    ensures x in s.ready[p] ==> x in s.tcbs && s.tcbs[x].priority == p
  {
    hide MapSafe;
  }

  /** Core `c` chooses a task that was queued in front of `w`, unless it chooses `w`. */
  lemma ChosenAhead(s: State, w: Task, c: Core) returns (chosen: Task)
    requires Mapped(s) && Shape(s) && c < |s.current| && OthersOutstanding(s, c) && WaitsAtTop(s, w, c)
    requires Inv(Select(s, c)) && WaitsAtTop(Select(s, c), w, c) && Select(s, c).tcbs[w].priority == s.tcbs[w].priority
    ensures var s' := Select(s, c);
            && chosen in UpTo(s'.ready[s.tcbs[w].priority], w)
            && Queued(s, chosen, c) && !Queued(s', chosen, c)
  {
    SelectRight(s, c);
    var s', p := Select(s, c), s.tcbs[w].priority;
    var s1 := Rotate(s, c);
    RotateSame(s, c);
    RunsThere(s, w);
    RunsThere(s, s.current[c]);
    RunsThere(s', s'.current[c]);
    RotateList(s, c, w, p);
    var r := Scan(s1, c, s.top, true, s.top, false);
    chosen := r.task.value;
    assert WaitsAtTop(s1, w, c);
    hide Select, Shape, Rotate, Mapped, Scan, Right;
    TopChoice(s1, c, r, w);
    FirstUpTo(s1, s1.ready[p], c, w);
    hide First, UpTo;
  }

  /** Unsuspended context switches of core `c` in a run. */
  function Selections(es: seq<Event>, c: Core): nat {
    if es == [] then 0 else (if es[0] == Switch(c, false) then 1 else 0) + Selections(es[1..], c)
  }

  /** `w` waits at the top, with the same priority, in every state of the run, and
      nobody's affinity changes. */
  ghost predicate KeepsWaiting(s: State, es: seq<Event>, w: Task, c: Core)
    requires Inv(s) && AllowedRun(s, es)
    decreases |es|
  {
    && WaitsAtTop(s, w, c)
    && (es == [] ||
        (!es[0].SetAffinity? && (StepInv(s, es[0]); var s1 := Step(s, es[0]);
         && (w in s1.tcbs ==> s1.tcbs[w].priority == s.tcbs[w].priority)
         && KeepsWaiting(s1, es[1..], w, c))))
  }

  /** One step: nobody gets in front of `w`; a selection of core `c` uses one up. */
  lemma OvertakingStep(s: State, e: Event, w: Task, c: Core)
    requires Inv(s) && Enabled(s, e) && !e.SetAffinity? && WaitsAtTop(s, w, c)
    requires Inv(Step(s, e)) && WaitsAtTop(Step(s, e), w, c) && Step(s, e).tcbs[w].priority == s.tcbs[w].priority
    ensures Ahead(Step(s, e), w, c) + (if e == Switch(c, false) then 1 else 0) <= Ahead(s, w, c)
  {
    if e.Switch? {
      SwitchOvertakes(s, e.c, e.suspended, w, c);
    } else {
      QuietOvertakes(s, e, w, c);
    }
  }

  lemma SwitchOvertakes(s: State, d: Core, suspended: bool, w: Task, c: Core)
    requires Inv(s) && d < |s.current| && WaitsAtTop(s, w, c)
    requires var s' := SwitchContext(s, d, suspended);
             Inv(s') && WaitsAtTop(s', w, c) && s'.tcbs[w].priority == s.tcbs[w].priority
    ensures Ahead(SwitchContext(s, d, suspended), w, c) + (if d == c && !suspended then 1 else 0) <= Ahead(s, w, c)
  {
    hide Shape, Mapped, Select, Ahead, MapSafe, WaitsAtTop;
    PendingSet(s, d, suspended);
    var s0 := s.(pending := s.pending[d := suspended]);
    AheadAs(s, s0, w, c);
    if !suspended {
      SwitchList(s0, d, w, c);
    }
  }

  /** Who is ahead depends on the ready lists and the tasks only. */
  lemma AheadAs(s: State, s': State, w: Task, c: Core)
    requires WaitsAtTop(s, w, c) && s' == s.(pending := s'.pending)
    ensures WaitsAtTop(s', w, c) && Ahead(s', w, c) == Ahead(s, w, c)
  {
    var l := UpTo(s.ready[s.tcbs[w].priority], w);
    QueuedMono(s, s', l, c);
    QueuedMono(s', s, l, c);
  }

  lemma QuietOvertakes(s: State, e: Event, w: Task, c: Core)
    requires Inv(s) && Enabled(s, e) && !e.SetAffinity? && !e.Switch? && WaitsAtTop(s, w, c)
    requires Inv(Step(s, e)) && WaitsAtTop(Step(s, e), w, c) && Step(s, e).tcbs[w].priority == s.tcbs[w].priority
    ensures Ahead(Step(s, e), w, c) <= Ahead(s, w, c)
  {
    var s', p := Step(s, e), s.tcbs[w].priority;
    QuietStep(s, e);
    var u := QuietList(s, e, w);
    var l, l' := UpTo(s.ready[p], w), UpTo(s'.ready[p], w);
    UpToMembers(s.ready[p], w);
    WithoutMembers(l, u);
    hide Step, UpTo, Without, Shape, MapSafe;
    forall i | 0 <= i < |l'|
      ensures Queued(s', l'[i], c) ==> Queued(s, l'[i], c)
    {
      assert l'[i] in l;
      ListMember(s, p, l'[i]);
    }
    QueuedMono(s, s', l', c);
    FewerQueued(s, l, u, c);
  }

  lemma {:induction false} WithoutMembers(s: seq<Task>, t: Task)
    ensures forall i | 0 <= i < |Without(s, t)| :: Without(s, t)[i] in s
  {
    if s != [] && s[0] != t {
      WithoutMembers(s[1..], t);
    }
  }

  /** Bounded overtaking: while `w` waits at the highest ready priority, core `c` can
      switch at most as often as there were tasks ahead of `w` to begin with.  After
      one more switch of core `c` it has run somewhere. */
  lemma {:induction false} BoundedOvertaking(s: State, es: seq<Event>, w: Task, c: Core)
    requires Inv(s) && AllowedRun(s, es) && KeepsWaiting(s, es, w, c)
    ensures Selections(es, c) <= Ahead(s, w, c)
    decreases |es|
  {
    hide Inv, Enabled, Step, WaitsAtTop, Ahead;
    WaitsReady(s, w, c);
    if es != [] {
      StepInv(s, es[0]);
      var s1 := Step(s, es[0]);
      WaitsReady(s1, w, c);
      OvertakingStep(s, es[0], w, c);
      BoundedOvertaking(s1, es[1..], w, c);
    }
  }

  lemma WaitsReady(s: State, w: Task, c: Core)
    requires WaitsAtTop(s, w, c)
    ensures InReady(s, w)
  {
  }
}
