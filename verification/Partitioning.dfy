/** The SPA2 semi-partitioning of smp_test: every task is given to a core, and a
    task that does not fit is split over two.

    Tasks are taken lowest priority first and go to the emptiest core; a task that
    would lift the core over the utilization bound is split so that its body fills
    the core and its tail goes back on the stack.  Heavy tasks may have been given a
    core of their own first.  Utilizations are reals here, floats in the code. */
module Partitioning {

  // ---------------------------------------------------------------- tasks and cores

  /** The fields of task_info that the allocation uses; `split` stands for
      splitted_ptr not being NULL. */
  datatype Task = Task(name: nat, priority: int, period: nat, runtime: int, util: real,
                       heavy: bool, subnum: nat, split: bool)

  datatype Core = Core(util: real, preAssigned: bool)

  /** task_list with curr_idx, core_list, the stacks core_manager,
      pre_assigned_core and UQ, and the bound; and which tasks have been given to
      each core, in order. */
  datatype State = State(tasks: seq<Task>, next: nat, cores: seq<Core>, normal: seq<nat>, pre: seq<nat>,
                         uq: seq<nat>, bound: real, placed: seq<seq<nat>>)

  /** What Task_split makes of a task and of the utilization that is left on a core. */
  function Body(t: Task, room: real): Task {
    t.(util := room, runtime := (room * t.period as real).Floor, split := true)
  }

  function Tail(t: Task, room: real): Task {
    Task(t.name, t.priority, t.period, t.runtime - (room * t.period as real).Floor, t.util - room,
         false, t.subnum + 1, false)
  }

  /** get_min_core, scanning the stack down from its top. */
  function MinFrom(cores: seq<Core>, stack: seq<nat>, i: nat, best: nat): (r: nat)
    requires i <= best < |stack| && forall j | 0 <= j < |stack| :: stack[j] < |cores|
    requires forall j | i <= j < |stack| :: cores[stack[best]].util <= cores[stack[j]].util
    ensures r < |stack|
    ensures forall j | 0 <= j < |stack| :: cores[stack[r]].util <= cores[stack[j]].util
    decreases i
  {
    if i == 0 then best
    else if cores[stack[i - 1]].util < cores[stack[best]].util then MinFrom(cores, stack, i - 1, i - 1)
    else MinFrom(cores, stack, i - 1, best)
  }

  /** Of equally utilized cores it is the one nearest the top of the stack. */
  lemma {:induction false} MinFromNearestTop(cores: seq<Core>, stack: seq<nat>, i: nat, best: nat)
    requires i <= best < |stack| && forall j | 0 <= j < |stack| :: stack[j] < |cores|
    requires forall j | i <= j < |stack| :: cores[stack[best]].util <= cores[stack[j]].util
    requires forall j | best < j < |stack| :: cores[stack[best]].util < cores[stack[j]].util
    ensures var r := MinFrom(cores, stack, i, best);
            forall j | r < j < |stack| :: cores[stack[r]].util < cores[stack[j]].util
    decreases i
  {
    if i > 0 {
      if cores[stack[i - 1]].util < cores[stack[best]].util {
        MinFromNearestTop(cores, stack, i - 1, i - 1);
      } else {
        MinFromNearestTop(cores, stack, i - 1, best);
      }
    }
  }

  /** So the loop looks at the emptiest core, and of equals at the one nearest the top. */
  lemma MinCoreIsFirst(s: State)
    requires WellFormed(s)
    ensures exists r :: 0 <= r < |s.normal| && s.normal[r] == MinCore(s)
              && (forall j | 0 <= j < |s.normal| :: s.cores[MinCore(s)].util <= s.cores[s.normal[j]].util)
              && (forall j | r < j < |s.normal| :: s.cores[MinCore(s)].util < s.cores[s.normal[j]].util)
  {
    MinFromNearestTop(s.cores, s.normal, |s.normal| - 1, |s.normal| - 1);
  }

  /** Assign_task */
  function Assign(s: State, t: nat, c: nat): State
    requires t < |s.tasks| && c < |s.cores| == |s.placed|
  {
    s.(cores := s.cores[c := s.cores[c].(util := s.cores[c].util + s.tasks[t].util)],
       placed := s.placed[c := s.placed[c] + [t]])
  }

  /** Push_task drops a task when the stack is full. */
  function Push(s: State, t: nat): State {
    if |s.uq| >= |s.tasks| then s else s.(uq := s.uq + [t])
  }

  /** new_task and Task_split */
  function Split(s: State, t: nat, c: nat): State
    requires t < s.next < |s.tasks| && c < |s.cores|
  {
    var room := s.bound - s.cores[c].util;
    Push(s.(tasks := s.tasks[t := Body(s.tasks[t], room)][s.next := Tail(s.tasks[t], room)], next := s.next + 1), s.next)
  }

  /** One round of the loop: it goes on, or stops because everything is full, or
      reaches for a core or a task that is not there. */
  datatype Outcome = Next(s: State) | FullyUtilized(s: State) | NoCore | NoTask

  function PlaceOn(s: State, t: nat, c: nat): Outcome
    requires t < s.next <= |s.tasks| && c < |s.cores| == |s.placed|
  {
    var back := if s.cores[c].preAssigned then s.(pre := s.pre + [c]) else s;
    if s.cores[c].util + s.tasks[t].util <= s.bound then Next(Assign(back, t, c))
    else if s.next >= |s.tasks| then NoTask
    else Next(Assign(Split(back, t, c), t, c))
  }

  /** Indices are in range and there is a core to look at. */
  ghost predicate WellFormed(s: State) {
    && s.next <= |s.tasks| && |s.placed| == |s.cores|
    && s.normal != [] && (forall i | 0 <= i < |s.normal| :: s.normal[i] < |s.cores|)
    && (forall i | 0 <= i < |s.pre| :: s.pre[i] < |s.cores|)
    && (forall i | 0 <= i < |s.uq| :: s.uq[i] < s.next) && |s.uq| <= |s.tasks|
  }

  function MinCore(s: State): nat
    requires WellFormed(s)
  {
    s.normal[MinFrom(s.cores, s.normal, |s.normal| - 1, |s.normal| - 1)]
  }

  /** The body of the loop that assigns the tasks of UQ. */
  function Place(s: State): Outcome
    requires WellFormed(s) && s.uq != []
  {
    var c, t := MinCore(s), s.uq[|s.uq| - 1];
    var s1 := s.(uq := s.uq[..|s.uq| - 1]);
    if s.cores[c].util < s.bound then PlaceOn(s1, t, c)
    else if s.pre == [] then NoCore
    else
      var p := s.pre[|s.pre| - 1];
      var s2 := s1.(pre := s.pre[..|s.pre| - 1]);
      if s.cores[p].util >= s.bound then FullyUtilized(s2) else PlaceOn(s2, t, p)
  }

  function Full(cores: seq<Core>, bound: real): nat {
    if cores == [] then 0 else (if cores[0].util >= bound then 1 else 0) + Full(cores[1..], bound)
  }

  /** The whole loop.  It always ends: a round uses up a task or fills a core. */
  function Run(s: State): Outcome
    requires WellFormed(s)
    decreases |s.cores| - Full(s.cores, s.bound), |s.uq|
  {
    if s.uq == [] then Next(s)
    else
      PlaceProgress(s);
      match Place(s)
      case Next(s1) => Run(s1)
      case FullyUtilized(s1) => FullyUtilized(s1)
      case NoCore => NoCore
      case NoTask => NoTask
  }

  lemma {:induction false} FullBound(cores: seq<Core>, bound: real)
    ensures Full(cores, bound) <= |cores|
  {
    if cores != [] {
      FullBound(cores[1..], bound);
    }
  }

  lemma {:induction false} FullUpdate(cores: seq<Core>, bound: real, c: nat, v: Core)
    requires c < |cores|
    ensures Full(cores[c := v], bound)
         == Full(cores, bound) - (if cores[c].util >= bound then 1 else 0) + if v.util >= bound then 1 else 0
  {
    if c == 0 {
      assert cores[c := v][1..] == cores[1..];
    } else {
      assert cores[c := v][1..] == cores[1..][c - 1 := v];
      FullUpdate(cores[1..], bound, c - 1, v);
    }
  }

  /** What a round that goes on does, seen from outside. */
  lemma PlaceOnEffect(s: State, t: nat, c: nat)
    requires WellFormed(s) && t < s.next && c < |s.cores| && s.cores[c].util < s.bound && |s.uq| < |s.tasks|
    ensures PlaceOn(s, t, c).Next? || PlaceOn(s, t, c).NoTask?
    ensures PlaceOn(s, t, c).Next? ==>
              var s' := PlaceOn(s, t, c).s;
              && WellFormed(s') && |s'.cores| == |s.cores| && s'.bound == s.bound && s'.normal == s.normal
              && s'.cores == s.cores[c := s'.cores[c]]
              && if s.cores[c].util + s.tasks[t].util <= s.bound then s'.uq == s.uq
                 else s'.cores[c].util == s.bound && s'.uq == s.uq + [s.next]
  {
  }

  lemma PlaceProgress(s: State)
    requires WellFormed(s) && s.uq != []
    ensures Full(s.cores, s.bound) <= |s.cores|
    ensures Place(s).Next? ==>
              var s' := Place(s).s;
              && WellFormed(s') && |s'.cores| == |s.cores|
              && Full(s'.cores, s'.bound) <= |s.cores|
              && (Full(s'.cores, s'.bound) > Full(s.cores, s.bound) ||
                  (Full(s'.cores, s'.bound) == Full(s.cores, s.bound) && |s'.uq| < |s.uq|))
  {
    hide PlaceOn, Full;
    FullBound(s.cores, s.bound);
    var c, t := MinCore(s), s.uq[|s.uq| - 1];
    var s1 := s.(uq := s.uq[..|s.uq| - 1]);
    if s.cores[c].util < s.bound {
      PlaceOnProgress(s1, t, c);
    } else if s.pre != [] {
      var p := s.pre[|s.pre| - 1];
      PlaceOnProgress(s1.(pre := s.pre[..|s.pre| - 1]), t, p);
    }
  }

  lemma PlaceOnProgress(s: State, t: nat, c: nat)
    requires WellFormed(s) && t < s.next && c < |s.cores| && |s.uq| < |s.tasks|
    ensures s.cores[c].util < s.bound && PlaceOn(s, t, c).Next? ==>
              var s' := PlaceOn(s, t, c).s;
              && WellFormed(s') && |s'.cores| == |s.cores|
              && Full(s'.cores, s'.bound) <= |s.cores|
              && (Full(s'.cores, s'.bound) > Full(s.cores, s.bound) ||
                  (Full(s'.cores, s'.bound) == Full(s.cores, s.bound) && |s'.uq| == |s.uq|))
  {
    hide PlaceOn, Full;
    if s.cores[c].util < s.bound && PlaceOn(s, t, c).Next? {
      PlaceOnEffect(s, t, c);
      var s' := PlaceOn(s, t, c).s;
      FullUpdate(s.cores, s.bound, c, s'.cores[c]);
      FullBound(s'.cores, s.bound);
    }
  }

  // ---------------------------------------------------------------- sums

  /** The utilization of the listed tasks, and of the listed tasks below a priority. */
  function Sum(tasks: seq<Task>, ids: seq<nat>): real
    requires forall i | 0 <= i < |ids| :: ids[i] < |tasks|
  {
    if ids == [] then 0.0 else Sum(tasks, ids[..|ids| - 1]) + tasks[ids[|ids| - 1]].util
  }

  function LowSum(tasks: seq<Task>, ids: seq<nat>, priority: int): real
    requires forall i | 0 <= i < |ids| :: ids[i] < |tasks|
  {
    if ids == [] then 0.0
    else
      var t := tasks[ids[|ids| - 1]];
      LowSum(tasks, ids[..|ids| - 1], priority) + if t.priority < priority then t.util else 0.0
  }

  /** The utilization of all cores. */
  function Load(cores: seq<Core>): real {
    if cores == [] then 0.0 else cores[0].util + Load(cores[1..])
  }

  lemma SumPush(tasks: seq<Task>, ids: seq<nat>, t: nat)
    requires t < |tasks| && forall i | 0 <= i < |ids| :: ids[i] < |tasks|
    ensures Sum(tasks, ids + [t]) == Sum(tasks, ids) + tasks[t].util
    ensures forall p :: LowSum(tasks, ids + [t], p)
                     == LowSum(tasks, ids, p) + if tasks[t].priority < p then tasks[t].util else 0.0
  {
  }

  /** Sums see only the tasks they list. */
  lemma {:induction false} SumElsewhere(tasks: seq<Task>, tasks': seq<Task>, ids: seq<nat>)
    requires |tasks'| == |tasks| && forall i | 0 <= i < |ids| :: ids[i] < |tasks|
    requires forall i | 0 <= i < |ids| :: tasks'[ids[i]] == tasks[ids[i]]
    ensures Sum(tasks', ids) == Sum(tasks, ids)
    ensures forall p :: LowSum(tasks', ids, p) == LowSum(tasks, ids, p)
  {
    if ids != [] {
      SumElsewhere(tasks, tasks', ids[..|ids| - 1]);
    }
  }

  lemma {:induction false} SumPositive(tasks: seq<Task>, ids: seq<nat>, p: int)
    requires forall i | 0 <= i < |ids| :: ids[i] < |tasks| && tasks[ids[i]].util > 0.0
    ensures Sum(tasks, ids) >= LowSum(tasks, ids, p) >= 0.0 && (ids != [] ==> Sum(tasks, ids) > 0.0)
    ensures LowSum(tasks, ids, p) == 0.0 ==> forall i | 0 <= i < |ids| :: tasks[ids[i]].priority >= p
  {
    if ids != [] {
      SumPositive(tasks, ids[..|ids| - 1], p);
    }
  }

  lemma {:induction false} LowSumNone(tasks: seq<Task>, ids: seq<nat>, p: int)
    requires forall i | 0 <= i < |ids| :: ids[i] < |tasks| && tasks[ids[i]].priority >= p
    ensures LowSum(tasks, ids, p) == 0.0
  {
    if ids != [] {
      LowSumNone(tasks, ids[..|ids| - 1], p);
    }
  }

  lemma {:induction false} LoadUpdate(cores: seq<Core>, c: nat, v: Core)
    requires c < |cores|
    ensures Load(cores[c := v]) == Load(cores) - cores[c].util + v.util
  {
    if c == 0 {
      assert cores[c := v][1..] == cores[1..];
    } else {
      assert cores[c := v][1..] == cores[1..][c - 1 := v];
      LoadUpdate(cores[1..], c - 1, v);
    }
  }

  ghost predicate Distinct(s: seq<nat>) {
    forall i, j | 0 <= i < j < |s| :: s[i] != s[j]
  }

  /** A core with room is not full, and two of them are two that are not full. */
  lemma {:induction false} SomeRoom(cores: seq<Core>, bound: real, c: nat)
    requires c < |cores| && cores[c].util < bound
    ensures Full(cores, bound) < |cores|
  {
    FullBound(cores[1..], bound);
    if c > 0 {
      SomeRoom(cores[1..], bound, c - 1);
    }
  }

  lemma TwoRooms(cores: seq<Core>, bound: real, c: nat, d: nat)
    requires c < |cores| && d < |cores| && c != d && cores[c].util < bound && cores[d].util < bound
    ensures Full(cores, bound) < |cores| - 1
  {
    var v := Core(bound, false);
    FullUpdate(cores, bound, c, v);
    SomeRoom(cores[c := v], bound, d);
  }

  // ---------------------------------------------------------------- the room that is left

  /** The room on a core, and on the listed cores. */
  function RoomOn(c: Core, bound: real): real {
    if c.util < bound then bound - c.util else 0.0
  }

  function Room(cores: seq<Core>, ids: seq<nat>, bound: real): real
    requires forall i | 0 <= i < |ids| :: ids[i] < |cores|
  {
    if ids == [] then 0.0
    else Room(cores, ids[..|ids| - 1], bound) + RoomOn(cores[ids[|ids| - 1]], bound)
  }

  lemma {:induction false} RoomUpdate(cores: seq<Core>, ids: seq<nat>, bound: real, c: nat, v: Core)
    requires c < |cores| && Distinct(ids) && forall i | 0 <= i < |ids| :: ids[i] < |cores|
    ensures Room(cores[c := v], ids, bound)
         == Room(cores, ids, bound) + if c in ids then RoomOn(v, bound) - RoomOn(cores[c], bound) else 0.0
  {
    hide RoomOn;
    if ids != [] {
      var rest := ids[..|ids| - 1];
      assert ids == rest + [ids[|ids| - 1]];
      RoomUpdate(cores, rest, bound, c, v);
    }
  }

  /** Where at most core `c` has room. */
  lemma {:induction false} RoomOnly(cores: seq<Core>, ids: seq<nat>, bound: real, c: nat)
    requires c < |cores| && Distinct(ids) && forall i | 0 <= i < |ids| :: ids[i] < |cores|
    requires forall i | 0 <= i < |ids| && ids[i] != c :: cores[ids[i]].util >= bound
    ensures Room(cores, ids, bound) == if c in ids then RoomOn(cores[c], bound) else 0.0
  {
    if ids != [] {
      var rest := ids[..|ids| - 1];
      assert ids == rest + [ids[|ids| - 1]];
      RoomOnly(cores, rest, bound, c);
    }
  }

  lemma {:induction false} RoomNone(cores: seq<Core>, ids: seq<nat>, bound: real)
    requires forall i | 0 <= i < |ids| :: ids[i] < |cores| && cores[ids[i]].util >= bound
    ensures Room(cores, ids, bound) == 0.0
  {
    if ids != [] {
      RoomNone(cores, ids[..|ids| - 1], bound);
    }
  }

  lemma {:induction false} RoomPositive(cores: seq<Core>, ids: seq<nat>, bound: real)
    requires forall i | 0 <= i < |ids| :: ids[i] < |cores|
    ensures Room(cores, ids, bound) >= 0.0
  {
    if ids != [] {
      RoomPositive(cores, ids[..|ids| - 1], bound);
    }
  }

  /** The cores that the loop ever looks at: those that were not given away and, of
      those that were, the last one. */
  function Reached(s: State): seq<nat> {
    if s.pre == [] then s.normal else s.normal + [s.pre[|s.pre| - 1]]
  }

  function RoomLeft(s: State): real
    requires WellFormed(s)
  {
    Room(s.cores, Reached(s), s.bound)
  }

  // ---------------------------------------------------------------- when the loop succeeds

  /** A state of the loop: the stacks hold nothing twice, the cores that were given
      away are marked, utilizations are positive, and so far there were no more
      splits than full cores. */
  ghost predicate Sound(s: State, number: nat) {
    && WellFormed(s) && number <= s.next && |s.tasks| == number + |s.cores| - 1
    && (forall i | 0 <= i < s.next :: s.tasks[i].util > 0.0)
    && (forall c | 0 <= c < |s.cores| :: s.cores[c].preAssigned <==> c in s.pre)
    && Distinct(s.uq) && Distinct(s.normal) && Distinct(s.pre) && (forall i | 0 <= i < |s.normal| :: s.normal[i] !in s.pre)
    && s.next - number <= Full(s.cores, s.bound)
  }

  /** The core that a round chooses. */
  function Chosen(s: State): nat
    requires WellFormed(s)
  {
    var c := MinCore(s);
    if s.cores[c].util < s.bound || s.pre == [] then c else s.pre[|s.pre| - 1]
  }

  lemma ReachedCores(s: State, number: nat)
    requires Sound(s, number)
    ensures Distinct(Reached(s)) && Chosen(s) in Reached(s) && Chosen(s) < |s.cores|
    ensures forall i | 0 <= i < |Reached(s)| :: Reached(s)[i] < |s.cores|
    ensures s.cores[Chosen(s)].util >= s.bound ==> forall i | 0 <= i < |Reached(s)| :: s.cores[Reached(s)[i]].util >= s.bound
    ensures s.cores[Chosen(s)].util >= s.bound ==> s.uq == [] || Place(s).FullyUtilized? || Place(s).NoCore?
  {
  }

  function Last(s: State): nat
    requires s.uq != []
  {
    s.uq[|s.uq| - 1]
  }

  predicate WillFit(s: State)
    requires WellFormed(s) && s.uq != [] && Chosen(s) < |s.cores|
  {
    s.cores[Chosen(s)].util + s.tasks[Last(s)].util <= s.bound
  }

  ghost predicate CanAllocate(s: State) {
    && WellFormed(s) && s.uq != [] && Chosen(s) < |s.cores| && s.cores[Chosen(s)].util < s.bound
    && (!WillFit(s) ==> s.next < |s.tasks|)
  }

  /** What a round comes to when nothing goes wrong. */
  function Allocated(s: State): State
    requires WellFormed(s) && s.uq != [] && Chosen(s) < |s.cores| && (WillFit(s) || s.next < |s.tasks|)
  {
    var c, t, rest := Chosen(s), Last(s), s.uq[..|s.uq| - 1];
    var room := s.bound - s.cores[c].util;
    if WillFit(s) then
      s.(uq := rest, cores := s.cores[c := s.cores[c].(util := s.cores[c].util + s.tasks[t].util)],
         placed := s.placed[c := s.placed[c] + [t]])
    else
      s.(uq := rest + [s.next], cores := s.cores[c := s.cores[c].(util := s.bound)],
         placed := s.placed[c := s.placed[c] + [t]],
         tasks := s.tasks[t := Body(s.tasks[t], room)][s.next := Tail(s.tasks[t], room)], next := s.next + 1)
  }

  /** A round goes on just if there is room, and a spare task when one is needed. */
  lemma PlaceOutcome(s: State, number: nat)
    requires Sound(s, number) && s.uq != []
    ensures if CanAllocate(s) then Place(s) == Next(Allocated(s)) else !Place(s).Next?
  {
    ReachedCores(s, number);
    if s.cores[Chosen(s)].util < s.bound {
      var c, rest := Chosen(s), s.uq[..|s.uq| - 1];
      PreAgrees(s, number);
      hide Full, Sum, Sound, PlaceOn, MinCore, MinFrom, Allocated;
      var base := if s.cores[MinCore(s)].util >= s.bound then s.(uq := rest, pre := s.pre[..|s.pre| - 1]) else s.(uq := rest);
      assert Place(s) == PlaceOn(base, Last(s), c);
      PlaceOnOutcome(s, base);
    }
  }

  lemma PreAgrees(s: State, number: nat)
    requires Sound(s, number) && s.uq != [] && Chosen(s) < |s.cores| && s.cores[Chosen(s)].util < s.bound
    ensures WellFormed(s) && MinCore(s) < |s.cores| && |s.uq| <= |s.tasks|
    ensures s.cores[MinCore(s)].util < s.bound ==> Chosen(s) == MinCore(s) && !s.cores[Chosen(s)].preAssigned
    ensures s.cores[MinCore(s)].util >= s.bound ==>
              s.pre != [] && Chosen(s) == s.pre[|s.pre| - 1] && s.cores[Chosen(s)].preAssigned && s.pre[..|s.pre| - 1] + [Chosen(s)] == s.pre
  {
  }

  lemma PlaceOnOutcome(s: State, base: State)
    requires WellFormed(s) && s.uq != [] && Chosen(s) < |s.cores|
    requires base == s.(uq := s.uq[..|s.uq| - 1], pre := base.pre)
    requires if s.cores[Chosen(s)].preAssigned then base.pre + [Chosen(s)] == s.pre else base.pre == s.pre
    ensures PlaceOn(base, Last(s), Chosen(s)) == if WillFit(s) || s.next < |s.tasks| then Next(Allocated(s)) else NoTask
  {
  }

  /** A split for which there is no spare task is not the only thing that is missing:
      the room is, too. */
  lemma SpareTask(s: State, number: nat)
    requires Sound(s, number) && s.uq != [] && !CanAllocate(s)
    ensures Sum(s.tasks, s.uq) > RoomLeft(s)
  {
    ReachedCores(s, number);
    SumPositive(s.tasks, s.uq[..|s.uq| - 1], 0);
    var c := Chosen(s);
    if s.cores[c].util >= s.bound {
      RoomNone(s.cores, Reached(s), s.bound);
    } else {
      forall d | 0 <= d < |s.cores| && d != c
        ensures s.cores[d].util >= s.bound
      {
        if s.cores[d].util < s.bound {
          TwoRooms(s.cores, s.bound, c, d);
        }
      }
      RoomOnly(s.cores, Reached(s), s.bound, c);
    }
  }

  /** A round keeps all of that. */
  lemma AllocatedSound(s: State, number: nat)
    requires Sound(s, number) && CanAllocate(s)
    ensures Sound(Allocated(s), number)
  {
    var s', c := Allocated(s), Chosen(s);
    FullUpdate(s.cores, s.bound, c, s'.cores[c]);
    LastApart(s);
    hide Full, Chosen;
  }

  /** What the stack loses is the room that is used up. */
  lemma RoundSums(s: State, number: nat)
    requires Sound(s, number) && CanAllocate(s)
    ensures var s' := Allocated(s);
            && WellFormed(s')
            && Sum(s'.tasks, s'.uq) - RoomLeft(s') == Sum(s.tasks, s.uq) - RoomLeft(s)
            && Load(s'.cores) + Sum(s'.tasks, s'.uq) == Load(s.cores) + Sum(s.tasks, s.uq)
  {
    hide Full, Load, Chosen, Sum, Room, Sound, WellFormed, CanAllocate, Allocated, Reached, WillFit, Distinct;
    SoundWellFormed(s, number);
    AllocatedSound(s, number);
    RoundSame(s);
    SoundWellFormed(Allocated(s), number);
    LoadUpdate(s.cores, Chosen(s), Allocated(s).cores[Chosen(s)]);
    QueueSum(s);
    RoundRoom(s, number);
  }

  lemma RoundRoom(s: State, number: nat)
    requires Sound(s, number) && CanAllocate(s) && WellFormed(Allocated(s))
    ensures var s', c := Allocated(s), Chosen(s);
            c < |s'.cores| && RoomLeft(s') == RoomLeft(s) - (s'.cores[c].util - s.cores[c].util)
  {
    hide Room, Sound, WellFormed, CanAllocate, Allocated, Chosen;
    SoundWellFormed(s, number);
    RoundSame(s);
    ReachedCores(s, number);
    var s', c := Allocated(s), Chosen(s);
    RoomUpdate(s.cores, Reached(s), s.bound, c, s'.cores[c]);
  }

  /** What the chosen core gains the stack loses. */
  lemma QueueSum(s: State)
    requires WellFormed(s) && s.uq != [] && Distinct(s.uq) && Chosen(s) < |s.cores| && (!WillFit(s) ==> s.next < |s.tasks|)
    ensures var s', c := Allocated(s), Chosen(s);
            && (forall i | 0 <= i < |s'.uq| :: s'.uq[i] < s'.next <= |s'.tasks|)
            && Sum(s'.tasks, s'.uq) == Sum(s.tasks, s.uq) - (s'.cores[c].util - s.cores[c].util)
  {
    hide Chosen;
    var s', rest := Allocated(s), s.uq[..|s.uq| - 1];
    LastApart(s);
    if !WillFit(s) {
      SumElsewhere(s.tasks, s'.tasks, rest);
      SumPush(s'.tasks, rest, s.next);
    }
  }

  lemma LastApart(s: State)
    requires WellFormed(s) && s.uq != [] && Distinct(s.uq)
    ensures var rest := s.uq[..|s.uq| - 1];
            Distinct(rest) && (forall i | 0 <= i < |rest| :: rest[i] != Last(s)) && Last(s) < s.next
  {
  }

  /** The loop succeeds exactly if the stacked tasks fit into the room that is left on
      the cores it reaches.  Otherwise it finds everything full, or no core left to
      look at, or no spare task. */
  lemma {:induction false} SucceedsExactly(s: State, number: nat)
    requires Sound(s, number)
    ensures Run(s).Next? <==> Sum(s.tasks, s.uq) <= RoomLeft(s)
    decreases |s.cores| - Full(s.cores, s.bound), |s.uq|
  {
    SoundWellFormed(s, number);
    hide Sound, Place, Allocated, Full, CanAllocate, Room;
    if s.uq == [] {
      RoomPositive(s.cores, Reached(s), s.bound);
    } else {
      PlaceOutcome(s, number);
      PlaceProgress(s);
      if CanAllocate(s) {
        AllocatedSound(s, number);
        RoundSums(s, number);
        RoundSame(s);
        SucceedsExactly(Allocated(s), number);
      } else {
        SpareTask(s, number);
      }
    }
  }

  lemma SoundWellFormed(s: State, number: nat)
    requires Sound(s, number)
    ensures WellFormed(s) && Distinct(s.uq) && s.next - number <= |s.cores| - 1
  {
  }

  /** What a round leaves alone; and no core is lifted over the bound. */
  lemma RoundSame(s: State)
    requires CanAllocate(s)
    ensures WellFormed(s) && s.uq != [] && Chosen(s) < |s.cores| && (WillFit(s) || s.next < |s.tasks|)
    ensures var s' := Allocated(s);
            && s'.pre == s.pre && s'.bound == s.bound && s'.normal == s.normal
            && |s'.placed| == |s.placed| == |s'.cores| == |s.cores|
            && s.cores[Chosen(s)].util < s.bound
            && s'.cores == s.cores[Chosen(s) := s'.cores[Chosen(s)]] && s'.cores[Chosen(s)].util <= s.bound
  {
  }

  /** No core above the bound, unless it was before and got nothing. */
  ghost predicate WithinBound(s: State, s': State) {
    && s'.bound == s.bound && s'.pre == s.pre && s'.normal == s.normal && |s'.cores| == |s.cores|
    && (forall c | 0 <= c < |s.cores| :: s'.cores[c].util <= s.bound || s'.cores[c] == s.cores[c])
  }

  lemma RoundWithinBound(s: State)
    requires CanAllocate(s)
    ensures WithinBound(s, Allocated(s))
    ensures forall s'' :: WithinBound(Allocated(s), s'') ==> WithinBound(s, s'')
  {
    RoundSame(s);
  }

  /** What success means: every task on a core, the total utilization conserved, fewer
      splits than cores, and no core above the bound. */
  lemma {:induction false} PartitionCompletes(s: State, number: nat)
    requires Sound(s, number) && Run(s).Next?
    ensures var s' := Run(s).s;
            && s'.uq == [] && Sound(s', number) && s'.next - number <= |s'.cores| - 1
            && Load(s'.cores) == Load(s.cores) + Sum(s.tasks, s.uq) && WithinBound(s, s')
    decreases |s.cores| - Full(s.cores, s.bound), |s.uq|
  {
    SoundWellFormed(s, number);
    hide Sound, Load, Place, Allocated, Full, CanAllocate, WellFormed, Chosen, WithinBound;
    if s.uq == [] {
      assert WithinBound(s, s) by { UnchangedWithinBound(s); }
    } else {
      PlaceOutcome(s, number);
      PlaceProgress(s);
      AllocatedSound(s, number);
      RoundSums(s, number);
      RoundSame(s);
      RoundWithinBound(s);
      PartitionCompletes(Allocated(s), number);
    }
  }

  lemma UnchangedWithinBound(s: State)
    ensures WithinBound(s, s)
  {
  }

  // ---------------------------------------------------------------- who is where

  function In(placed: seq<seq<nat>>, i: nat): nat {
    if placed == [] then 0 else multiset(placed[0])[i] + In(placed[1..], i)
  }

  /** How often a task is on the stack or on a core. */
  function Places(s: State, i: nat): nat {
    multiset(s.uq)[i] + In(s.placed, i)
  }

  /** Every task in use, original or tail, is in one place, and a core's utilization
      is that of its tasks. */
  ghost predicate Accounted(s: State) {
    && |s.placed| == |s.cores| && s.next <= |s.tasks|
    && (forall i: nat :: Places(s, i) == if i < s.next then 1 else 0)
    && (forall c, j | 0 <= c < |s.placed| && 0 <= j < |s.placed[c]| :: s.placed[c][j] < s.next)
    && (forall c | 0 <= c < |s.placed| :: s.cores[c].util == Sum(s.tasks, s.placed[c]))
  }

  lemma {:induction false} InUpdate(placed: seq<seq<nat>>, c: nat, t: nat, i: nat)
    requires c < |placed|
    ensures In(placed[c := placed[c] + [t]], i) == In(placed, i) + if i == t then 1 else 0
  {
    if c == 0 {
      assert placed[c := placed[c] + [t]][1..] == placed[1..];
    } else {
      assert placed[c := placed[c] + [t]][1..] == placed[1..][c - 1 := placed[c] + [t]];
      InUpdate(placed[1..], c - 1, t, i);
    }
  }

  lemma {:induction false} InSome(placed: seq<seq<nat>>, c: nat, j: nat)
    requires c < |placed| && j < |placed[c]|
    ensures In(placed, placed[c][j]) > 0
  {
    if c > 0 {
      InSome(placed[1..], c - 1, j);
    }
  }

  /** The task on top of the stack and the spare task are on no core. */
  lemma Unplaced(s: State)
    requires WellFormed(s) && Accounted(s) && s.uq != []
    ensures forall c, j | 0 <= c < |s.placed| && 0 <= j < |s.placed[c]| :: s.placed[c][j] != Last(s) && s.placed[c][j] < s.next
  {
    forall c, j | 0 <= c < |s.placed| && 0 <= j < |s.placed[c]|
      ensures s.placed[c][j] != Last(s)
    {
      InSome(s.placed, c, j);
      assert Places(s, s.placed[c][j]) == 1;
      assert multiset(s.uq)[Last(s)] > 0;
    }
  }

  lemma AllocatedAccounted(s: State)
    requires CanAllocate(s) && Accounted(s)
    ensures Accounted(Allocated(s))
  {
    hide Chosen, In, Sum, WillFit;
    Unplaced(s);
    var s', c, t := Allocated(s), Chosen(s), Last(s);
    forall i: nat
      ensures Places(s', i) == if i < s'.next then 1 else 0
    {
      AllocatedPlaces(s, i);
    }
    hide Places;
    forall d | 0 <= d < |s'.placed|
      ensures s'.cores[d].util == Sum(s'.tasks, s'.placed[d])
    {
      SumElsewhere(s.tasks, s'.tasks, s.placed[d]);
      if d == c {
        SumPush(s'.tasks, s.placed[c], t);
        AllocatedUtil(s);
      }
    }
  }

  lemma AllocatedPlaces(s: State, i: nat)
    requires CanAllocate(s)
    ensures Places(Allocated(s), i) == Places(s, i) + if i == s.next && !WillFit(s) then 1 else 0
  {
    hide Chosen, In, WillFit;
    var rest := s.uq[..|s.uq| - 1];
    InUpdate(s.placed, Chosen(s), Last(s), i);
    assert s.uq == rest + [Last(s)];
  }

  lemma AllocatedUtil(s: State)
    requires CanAllocate(s)
    ensures var s', c, t := Allocated(s), Chosen(s), Last(s);
            s'.cores[c].util == s.cores[c].util + s'.tasks[t].util
  {
  }

  // ---------------------------------------------------------------- priorities

  function Priority(s: State, c: nat, j: nat): int
    requires c < |s.placed| && j < |s.placed[c]| && s.placed[c][j] < |s.tasks|
  {
    s.tasks[s.placed[c][j]].priority
  }

  function Queued(s: State, a: nat): int
    requires a < |s.uq| && s.uq[a] < |s.tasks|
  {
    s.tasks[s.uq[a]].priority
  }

  ghost predicate Indexed(s: State) {
    && |s.placed| == |s.cores| && (forall i | 0 <= i < |s.uq| :: s.uq[i] < |s.tasks|)
    && (forall c, j | 0 <= c < |s.placed| && 0 <= j < |s.placed[c]| :: s.placed[c][j] < |s.tasks|)
    && (forall i | 0 <= i < |s.pre| :: s.pre[i] < |s.cores| && s.placed[s.pre[i]] != [])
    && (forall i | 0 <= i < |s.normal| :: s.normal[i] < |s.cores|)
  }

  /** The stack is in priority order, lowest on top, and holds no bodies. */
  ghost predicate StackOrdered(s: State)
    requires Indexed(s)
  {
    && (forall a, b | 0 <= a < b < |s.uq| :: Queued(s, a) > Queued(s, b))
    && (forall a | 0 <= a < |s.uq| :: !s.tasks[s.uq[a]].split)
  }

  /** Whoever is on the stack has a higher priority than whoever is on a core, a
      pre-assigned task aside; or the same, if the core is full. */
  ghost predicate AbovePlaced(s: State)
    requires Indexed(s)
  {
    forall c, j, a | 0 <= c < |s.placed| && 0 <= j < |s.placed[c]| && 0 <= a < |s.uq| && !(c in s.pre && j == 0) ::
      Priority(s, c, j) < Queued(s, a) || (s.cores[c].util >= s.bound && Priority(s, c, j) == Queued(s, a))
  }

  /** On each core priorities rise in the order of assignment, and a body is last. */
  ghost predicate CoresOrdered(s: State)
    requires Indexed(s)
  {
    && (forall c, j, k | 0 <= c < |s.placed| && 0 <= j < k < |s.placed[c]| :: Priority(s, c, j) < Priority(s, c, k))
    && (forall c, j | 0 <= c < |s.placed| && 0 <= j < |s.placed[c]| && s.tasks[s.placed[c][j]].split ::
          j == |s.placed[c]| - 1 && s.cores[c].util >= s.bound)
  }

  /** Of the cores that were given away the loop uses the last: the tasks on the stack
      are all above the task it was given to, or those below it fit on the others. */
  ghost predicate PreReserved(s: State)
    requires Indexed(s)
  {
    s.pre != [] ==> AllAbove(s, s.pre[|s.pre| - 1]) || LowFit(s, s.pre[|s.pre| - 1])
  }

  ghost predicate AllAbove(s: State, p: nat)
    requires Indexed(s) && p < |s.cores| && s.placed[p] != []
  {
    forall a | 0 <= a < |s.uq| :: Queued(s, a) > Priority(s, p, 0)
  }

  ghost predicate LowFit(s: State, p: nat)
    requires Indexed(s) && p < |s.cores| && s.placed[p] != []
  {
    && |s.placed[p]| == 1 && (forall a | 0 <= a < |s.uq| :: Queued(s, a) != Priority(s, p, 0))
    && LowSum(s.tasks, s.uq, Priority(s, p, 0)) <= Room(s.cores, s.normal, s.bound)
  }

  ghost predicate Ordered(s: State) {
    Indexed(s) && StackOrdered(s) && AbovePlaced(s) && CoresOrdered(s) && PreReserved(s)
  }

  /** The tasks on the stack and on cores keep their priorities in a round. */
  lemma SameTasks(s: State)
    requires CanAllocate(s) && Accounted(s) && Indexed(s) && Distinct(s.uq)
    ensures Indexed(Allocated(s))
    ensures var s', c := Allocated(s), Chosen(s);
            && (forall d, j | 0 <= d < |s.placed| && 0 <= j < |s.placed[d]| ::
                  j < |s'.placed[d]| && Priority(s', d, j) == Priority(s, d, j) && s'.placed[d][j] == s.placed[d][j]
                  && s'.tasks[s'.placed[d][j]] == s.tasks[s.placed[d][j]])
            && (forall d | 0 <= d < |s.placed| && d != c :: s'.placed[d] == s.placed[d] && s'.cores[d] == s.cores[d])
            && |s'.placed[c]| == |s.placed[c]| + 1 && Priority(s', c, |s.placed[c]|) == Queued(s, |s.uq| - 1)
            && s'.tasks[s'.placed[c][|s.placed[c]|]].split == (s.tasks[Last(s)].split || !WillFit(s))
            && (forall a | 0 <= a < |s.uq| - 1 :: Queued(s', a) == Queued(s, a) && s'.tasks[s'.uq[a]] == s.tasks[s.uq[a]])
            && (if WillFit(s) then |s'.uq| == |s.uq| - 1
                else |s'.uq| == |s.uq| && Queued(s', |s.uq| - 1) == Queued(s, |s.uq| - 1)
                     && !s'.tasks[s'.uq[|s.uq| - 1]].split && s'.cores[c].util == s.bound)
  {
    Unplaced(s);
    LastApart(s);
    hide Chosen, Accounted, In;
  }

  lemma AllocatedStack(s: State)
    requires CanAllocate(s) && Accounted(s) && Indexed(s) && Distinct(s.uq) && StackOrdered(s)
    ensures Indexed(Allocated(s)) && StackOrdered(Allocated(s))
  {
    hide Accounted, CanAllocate, WellFormed, Chosen, WillFit, Allocated, Indexed, Queued;
    SameTasks(s);
  }

  lemma AllocatedAbove(s: State)
    requires CanAllocate(s) && Accounted(s) && Indexed(s) && Distinct(s.uq) && StackOrdered(s) && AbovePlaced(s)
    requires Indexed(Allocated(s))
    ensures AbovePlaced(Allocated(s))
  {
    SameTasks(s);
    RoundSame(s);
    var s', c := Allocated(s), Chosen(s);
    hide Accounted, CanAllocate, WellFormed, Chosen, WillFit, Allocated, Indexed, Queued, Priority;
    var n := |s.uq| - 1;
    forall d, j, a | 0 <= d < |s'.placed| && 0 <= j < |s'.placed[d]| && 0 <= a < |s'.uq| && !(d in s'.pre && j == 0)
      ensures Priority(s', d, j) < Queued(s', a) || (s'.cores[d].util >= s'.bound && Priority(s', d, j) == Queued(s', a))
    {
      if j < |s.placed[d]| {
        assert Priority(s', d, j) == Priority(s, d, j) && Queued(s', a) == Queued(s, a);
      } else {
        assert a < n ==> Queued(s, a) > Queued(s, n);
      }
    }
  }

  lemma AllocatedCores(s: State)
    requires CanAllocate(s) && Accounted(s) && Indexed(s) && Distinct(s.uq)
    requires StackOrdered(s) && AbovePlaced(s) && CoresOrdered(s)
    requires Chosen(s) in s.pre ==> Queued(s, |s.uq| - 1) > Priority(s, Chosen(s), 0)
    requires Indexed(Allocated(s))
    ensures CoresOrdered(Allocated(s))
  {
    SameTasks(s);
    RoundSame(s);
    var s', c := Allocated(s), Chosen(s);
    hide Accounted, CanAllocate, WellFormed, Chosen, WillFit, Allocated, Indexed, Queued, Priority;
    var n := |s.uq| - 1;
    forall d, j, k | 0 <= d < |s'.placed| && 0 <= j < k < |s'.placed[d]|
      ensures Priority(s', d, j) < Priority(s', d, k)
    {
      assert Priority(s', d, j) == Priority(s, d, j);
      if k < |s.placed[d]| {
        assert Priority(s', d, k) == Priority(s, d, k);
      } else {
        assert Queued(s, n) == Priority(s', d, k);
        assert !(d in s.pre && j == 0) ==> Priority(s, d, j) < Queued(s, n);
      }
    }
    forall d, j | 0 <= d < |s'.placed| && 0 <= j < |s'.placed[d]| && s'.tasks[s'.placed[d][j]].split
      ensures j == |s'.placed[d]| - 1 && s'.cores[d].util >= s'.bound
    {
      if j < |s.placed[d]| {
        assert s.tasks[s.placed[d][j]].split;
      }
    }
  }

  /** The key point: a task that comes to a pre-assigned core has a higher priority
      than the task that core was given to, because the lower ones fill the others. */
  lemma OnlyHigherOnPre(s: State, number: nat)
    requires Sound(s, number) && CanAllocate(s) && Ordered(s) && Chosen(s) in s.pre
    ensures Queued(s, |s.uq| - 1) > Priority(s, Chosen(s), 0)
  {
    var p := Chosen(s);
    ChosenPre(s, number);
    if LowFit(s, p) {
      RoomNone(s.cores, s.normal, s.bound);
      hide Full, Load, Sum, Room, Chosen, MinFrom;
      SumPositive(s.tasks, s.uq, Priority(s, p, 0));
      assert s.tasks[s.uq[|s.uq| - 1]].priority >= Priority(s, p, 0);
    }
  }

  lemma ChosenPre(s: State, number: nat)
    requires Sound(s, number) && s.uq != [] && Chosen(s) in s.pre
    ensures Chosen(s) == s.pre[|s.pre| - 1]
    ensures forall i | 0 <= i < |s.normal| :: s.cores[s.normal[i]].util >= s.bound
  {
  }

  lemma AllocatedPre(s: State, number: nat)
    requires Sound(s, number) && CanAllocate(s) && Accounted(s) && Ordered(s)
    requires Indexed(Allocated(s))
    ensures PreReserved(Allocated(s))
  {
    var s' := Allocated(s);
    RoundSame(s);
    SameTasks(s);
    if s.pre != [] {
      var p := s.pre[|s.pre| - 1];
      if Chosen(s) == p {
        OnlyHigherOnPre(s, number);
        StillAbove(s, p);
      } else if AllAbove(s, p) || Queued(s, |s.uq| - 1) > Priority(s, p, 0) {
        StillAbove(s, p);
      } else {
        StillFits(s, number, p);
      }
    }
  }

  /** The stack is in order, so if its top is above the task, all of it is. */
  lemma StillAbove(s: State, p: nat)
    requires CanAllocate(s) && Accounted(s) && Indexed(s) && Distinct(s.uq) && StackOrdered(s) && p in s.pre
    requires Indexed(Allocated(s)) && p < |s.cores| && s.placed[p] != []
    requires Queued(s, |s.uq| - 1) > Priority(s, p, 0)
    ensures p < |Allocated(s).cores| && Allocated(s).placed[p] != [] && AllAbove(Allocated(s), p)
  {
    SameTasks(s);
    RoundSame(s);
    var s' := Allocated(s);
    hide Accounted, CanAllocate, WellFormed, Chosen, WillFit, Allocated, Indexed, Queued, Priority;
    assert Priority(s', p, 0) == Priority(s, p, 0);
  }

  /** A lower task goes to another core, and what it takes there it no longer needs. */
  lemma StillFits(s: State, number: nat, p: nat)
    requires Sound(s, number) && CanAllocate(s) && Accounted(s) && Indexed(s)
    requires s.pre != [] && p == s.pre[|s.pre| - 1] && s.placed[p] != [] && LowFit(s, p) && Chosen(s) != p
    requires Indexed(Allocated(s)) && Queued(s, |s.uq| - 1) <= Priority(s, p, 0)
    ensures p < |Allocated(s).cores| && Allocated(s).placed[p] != [] && LowFit(Allocated(s), p)
  {
    RoundSame(s);
    SameTasks(s);
    ChosenNormal(s, number, p);
    LowSums(s, Priority(s, p, 0));
    var s', c, n := Allocated(s), Chosen(s), |s.uq| - 1;
    RoomUpdate(s.cores, s.normal, s.bound, c, s'.cores[c]);
    hide Accounted, CanAllocate, WellFormed, Chosen, Allocated, Indexed, Room, LowSum, Queued, Priority, Full, Load, Sum;
    assert Priority(s', p, 0) == Priority(s, p, 0);
    assert Queued(s, n) != Priority(s, p, 0);
    forall a | 0 <= a < |s'.uq|
      ensures Queued(s', a) != Priority(s', p, 0)
    {
      assert Queued(s', a) == Queued(s, a);
    }
  }

  lemma ChosenNormal(s: State, number: nat, p: nat)
    requires Sound(s, number) && s.uq != [] && s.pre != [] && p == s.pre[|s.pre| - 1] && Chosen(s) != p
    ensures Chosen(s) in s.normal && Distinct(s.normal)
  {
  }

  /** How the utilization on the stack below a priority changes in a round. */
  lemma LowSums(s: State, p: int)
    requires CanAllocate(s) && Accounted(s) && Indexed(s) && Distinct(s.uq)
    requires Indexed(Allocated(s)) && Queued(s, |s.uq| - 1) < p
    ensures var s', c := Allocated(s), Chosen(s);
            LowSum(s'.tasks, s'.uq, p) == LowSum(s.tasks, s.uq, p) - (s'.cores[c].util - s.cores[c].util)
  {
    LastApart(s);
    var s', t, rest := Allocated(s), Last(s), s.uq[..|s.uq| - 1];
    hide Chosen;
    assert s.uq == rest + [t];
    SumPush(s.tasks, rest, t);
    if !WillFit(s) {
      SumElsewhere(s.tasks, s'.tasks, rest);
      SumPush(s'.tasks, rest, s.next);
    }
  }

  lemma AllocatedOrdered(s: State, number: nat)
    requires Sound(s, number) && CanAllocate(s) && Accounted(s) && Ordered(s)
    ensures Ordered(Allocated(s))
  {
    SoundWellFormed(s, number);
    hide Sound, CanAllocate, Accounted, Indexed, StackOrdered, AbovePlaced, CoresOrdered, PreReserved, Allocated, Chosen;
    AllocatedStack(s);
    AllocatedAbove(s);
    if Chosen(s) in s.pre {
      OnlyHigherOnPre(s, number);
    }
    AllocatedCores(s);
    AllocatedPre(s, number);
  }

  lemma {:induction false} PartitionKeepsOrder(s: State, number: nat)
    requires Sound(s, number) && Accounted(s) && Ordered(s) && Run(s).Next?
    ensures Accounted(Run(s).s) && Ordered(Run(s).s)
    decreases |s.cores| - Full(s.cores, s.bound), |s.uq|
  {
    hide Sound, Accounted, Ordered, Place, Allocated, Full, CanAllocate;
    SoundWellFormed(s, number);
    if s.uq != [] {
      PlaceOutcome(s, number);
      AllocatedSound(s, number);
      AllocatedAccounted(s);
      AllocatedOrdered(s, number);
      RoundSame(s);
      PlaceProgress(s);
      PartitionKeepsOrder(Allocated(s), number);
    }
  }

  /** The key lemma of the algorithm, about the finished allocation: the body of a
      split task has the highest priority on its core, and on a core that was given
      away every later task has a higher priority than the one it was given to. */
  lemma BodiesHaveTopPriority(s: State, number: nat)
    requires Sound(s, number) && Accounted(s) && Ordered(s) && Run(s).Next?
    ensures var s' := Run(s).s;
            && Indexed(s')
            && (forall c, j, k | 0 <= c < |s'.placed| && 0 <= j < |s'.placed[c]| && 0 <= k < |s'.placed[c]|
                  && s'.tasks[s'.placed[c][j]].split && k != j :: Priority(s', c, k) < Priority(s', c, j))
            && (forall c, j | 0 <= c < |s'.placed| && 0 < j < |s'.placed[c]| && c in s.pre ::
                  Priority(s', c, 0) < Priority(s', c, j))
  {
    PartitionKeepsOrder(s, number);
    var s' := Run(s).s;
    hide Sound, Accounted, StackOrdered, AbovePlaced, PreReserved, Run, Indexed, Priority;
    forall c, j, k | 0 <= c < |s'.placed| && 0 <= j < |s'.placed[c]| && 0 <= k < |s'.placed[c]|
      && s'.tasks[s'.placed[c][j]].split && k != j
      ensures Priority(s', c, k) < Priority(s', c, j)
    {
      assert k < j;
    }
  }

  // ---------------------------------------------------------------- pre-assignment

  /** simple_test: the tasks after `i` fit on one core fewer than there are. */
  function SimpleSum(tasks: seq<Task>, from: nat, number: nat): real
    requires number <= |tasks|
    decreases number - from
  {
    if from >= number then 0.0 else tasks[from].util + SimpleSum(tasks, from + 1, number)
  }

  predicate SimpleTest(s: State, i: nat, number: nat)
    requires number <= |s.tasks|
  {
    !(SimpleSum(s.tasks, i + 1, number) > (|s.normal| - 1) as real * s.bound)
  }

  /** Task `i` is given the core on top of the stack. */
  function AfterPre(s: State, i: nat): State
    requires s.normal != [] && i < |s.tasks| && s.normal[|s.normal| - 1] < |s.cores| == |s.placed|
  {
    var c := s.normal[|s.normal| - 1];
    var s1 := Assign(s.(normal := s.normal[..|s.normal| - 1]), i, c);
    s1.(cores := s1.cores[c := s1.cores[c].(preAssigned := true)], pre := s.pre + [c])
  }

  /** The loop that gives cores to heavy tasks and stacks the others; it reaches for
      a core that is not there if it has given all of them away. */
  function PreAssign(s: State, i: nat, number: nat): Outcome
    requires number <= |s.tasks| && i <= number && |s.placed| == |s.cores|
    requires forall j | 0 <= j < |s.normal| :: s.normal[j] < |s.cores|
    decreases number - i
  {
    if i == number then Next(s)
    else if s.tasks[i].heavy && SimpleTest(s, i, number) then
      if s.normal == [] then NoCore else PreAssign(AfterPre(s, i), i + 1, number)
    else PreAssign(Push(s, i), i + 1, number)
  }

  /** What main sets up: `number` tasks in decreasing order of priority, none of them
      assigned, idle cores, and spare tasks for the tails. */
  ghost predicate Initial(s: State, number: nat) {
    && 1 <= |s.cores| == |s.placed| == |s.normal| && |s.tasks| == number + |s.cores| - 1 && s.next == number
    && s.bound > 0.0 && s.uq == [] && s.pre == []
    && (forall c | 0 <= c < |s.cores| :: s.cores[c] == Core(0.0, false) && s.placed[c] == [] && s.normal[c] == c)
    && (forall i | 0 <= i < number :: 0.0 < s.tasks[i].util && !s.tasks[i].split)
    && (forall i, j | 0 <= i < j < number :: s.tasks[i].priority > s.tasks[j].priority)
  }

  lemma {:induction false} SimpleSumSnoc(tasks: seq<Task>, from: nat, n: nat)
    requires from <= n < |tasks|
    ensures SimpleSum(tasks, from, n + 1) == SimpleSum(tasks, from, n) + tasks[n].util
    decreases n - from
  {
    if from < n {
      SimpleSumSnoc(tasks, from + 1, n);
    }
  }

  /** A core that was given away carries the one task it was given to. */
  ghost predicate GivenAway(s: State, c: nat, i: nat)
    requires c < |s.cores| == |s.placed|
  {
    && |s.placed[c]| == 1 && s.placed[c][0] < i && i <= |s.tasks|
    && s.cores[c] == Core(s.tasks[s.placed[c][0]].util, true)
  }

  /** The last task that was given a core has passed simple_test, and all that
      simple_test has added up so far waits on the stack. */
  ghost predicate LowWaits(s: State, i: nat, number: nat)
    requires |s.cores| == |s.placed| && i <= number <= |s.tasks|
    requires forall a | 0 <= a < |s.uq| :: s.uq[a] < |s.tasks|
  {
    s.pre != [] ==>
      var m := |s.normal|;
      && m < |s.cores| && GivenAway(s, m, i)
      && var k := s.placed[m][0];
      && SimpleSum(s.tasks, k + 1, number) <= m as real * s.bound
      && LowSum(s.tasks, s.uq, s.tasks[k].priority) == SimpleSum(s.tasks, k + 1, i)
      && (forall a | 0 <= a < |s.uq| :: s.uq[a] != k)
  }

  ghost predicate CoresDealt(s: State, i: nat)
    requires |s.cores| == |s.placed|
  {
    && |s.normal| + |s.pre| == |s.cores|
    && (forall c | 0 <= c < |s.normal| :: s.normal[c] == c && s.cores[c] == Core(0.0, false) && s.placed[c] == [])
    && (forall j | 0 <= j < |s.pre| :: s.pre[j] == |s.cores| - 1 - j)
    && (forall c | 0 <= c < |s.cores| && |s.normal| <= c :: GivenAway(s, c, i))
  }

  /** The tasks with a core of their own are heavy and passed simple_test with the
      cores that were left to the others, which are those below theirs. */
  ghost predicate Deserving(s: State, number: nat)
    requires |s.cores| == |s.placed| && number <= |s.tasks|
  {
    && (forall c | 0 <= c < |s.cores| && |s.normal| <= c ::
          && |s.placed[c]| == 1 && s.placed[c][0] < number && s.tasks[s.placed[c][0]].heavy
          && SimpleSum(s.tasks, s.placed[c][0] + 1, number) <= c as real * s.bound)
    && (forall a | 0 <= a < |s.uq| && s.uq[a] < number && s.tasks[s.uq[a]].heavy :: Refused(s, s.uq[a], number))
  }

  /** Task `t` failed simple_test with the cores that were there when its turn came:
      all but those given to the tasks before it. */
  ghost predicate Refused(s: State, t: nat, number: nat)
    requires |s.cores| == |s.placed| && number <= |s.tasks|
  {
    exists n :: 0 <= n <= |s.pre| && GivenBefore(s, t, n) && SimpleSum(s.tasks, t + 1, number) > (|s.cores| - n - 1) as real * s.bound
  }

  ghost predicate GivenBefore(s: State, t: nat, n: nat)
    requires |s.cores| == |s.placed|
  {
    forall j | 0 <= j < |s.pre| :: s.pre[j] < |s.placed| && s.placed[s.pre[j]] != [] && (s.placed[s.pre[j]][0] < t <==> j < n)
  }

  /** What pre-assignment has come to when `i` tasks have been looked at: the cores
      from the top down given away, the other tasks stacked in order. */
  ghost predicate Dealt(s0: State, s: State, i: nat, number: nat) {
    && i <= number <= |s.tasks| && |s.cores| == |s.placed| == |s0.cores|
    && s == s0.(cores := s.cores, normal := s.normal, pre := s.pre, uq := s.uq, placed := s.placed)
    && CoresDealt(s, i)
    && |s.uq| <= i && (forall a | 0 <= a < |s.uq| :: s.uq[a] < i)
    && (forall a, b | 0 <= a < b < |s.uq| :: s.uq[a] < s.uq[b])
    && (forall x: nat :: Places(s, x) == if x < i then 1 else 0)
    && Load(s.cores) + Sum(s.tasks, s.uq) == SimpleSum(s.tasks, 0, i)
    && LowWaits(s, i, number)
  }

  lemma StartDealt(s0: State, number: nat)
    requires Initial(s0, number)
    ensures Dealt(s0, s0, 0, number)
  {
    LoadZero(s0.cores);
    forall x: nat
      ensures Places(s0, x) == 0
    {
      InNone(s0.placed, x);
    }
  }

  lemma PushDealt(s0: State, s: State, i: nat, number: nat)
    requires Initial(s0, number) && Dealt(s0, s, i, number) && i < number
    ensures Dealt(s0, Push(s, i), i + 1, number)
  {
    var s' := s.(uq := s.uq + [i]);
    InitialTasks(s0, number);
    PushLow(s, i, number);
    hide Initial, In, Load, Sum, LowSum, SimpleSum, LowWaits;
    assert Push(s, i) == s';
    SumPush(s.tasks, s.uq, i);
    SimpleSumSnoc(s.tasks, 0, i);
    forall x: nat
      ensures Places(s', x) == if x < i + 1 then 1 else 0
    {
      assert Places(s', x) == Places(s, x) + if x == i then 1 else 0;
    }
    hide Places;
    PushCores(s, s', i);
  }

  lemma PushCores(s: State, s': State, i: nat)
    requires |s.cores| == |s.placed| && CoresDealt(s, i) && i < |s.tasks| && s' == s.(uq := s'.uq)
    ensures CoresDealt(s', i + 1)
  {
    var n := i + 1;
    forall c | 0 <= c < |s'.cores| && |s'.normal| <= c
      ensures GivenAway(s', c, n)
    {
      assert GivenAway(s, c, i);
    }
  }

  lemma PushLow(s: State, i: nat, number: nat)
    requires |s.cores| == |s.placed| && i < number <= |s.tasks|
    requires forall a | 0 <= a < |s.uq| :: s.uq[a] < |s.tasks|
    requires forall i, j | 0 <= i < j < number :: s.tasks[i].priority > s.tasks[j].priority
    requires LowWaits(s, i, number)
    ensures LowWaits(s.(uq := s.uq + [i]), i + 1, number)
  {
    hide LowSum, SimpleSum, Sum;
    if s.pre != [] {
      SumPush(s.tasks, s.uq, i);
      SimpleSumSnoc(s.tasks, s.placed[|s.normal|][0] + 1, i);
    }
  }

  lemma InitialTasks(s0: State, number: nat)
    requires Initial(s0, number)
    ensures number <= |s0.tasks|
    ensures forall i, j | 0 <= i < j < number :: s0.tasks[i].priority > s0.tasks[j].priority
  {
  }

  lemma PreDealt(s0: State, s: State, i: nat, number: nat)
    requires Initial(s0, number) && Dealt(s0, s, i, number) && i < number
    requires SimpleTest(s, i, number) && s.normal != []
    ensures Dealt(s0, AfterPre(s, i), i + 1, number)
  {
    var m := |s.normal| - 1;
    var s' := s.(cores := s.cores[m := Core(s.tasks[i].util, true)], placed := s.placed[m := [i]],
                 normal := s.normal[..m], pre := s.pre + [m]);
    AfterPreIs(s, i);
    InitialTasks(s0, number);
    PreCores(s, s', i);
    PreLow(s, s', i, number);
    hide Initial, LowSum, LowWaits, CoresDealt, AfterPre, SimpleTest;
    LoadUpdate(s.cores, m, s'.cores[m]);
    SimpleSumSnoc(s.tasks, 0, i);
    hide Load, Sum, SimpleSum;
    forall x: nat
      ensures Places(s', x) == if x < i + 1 then 1 else 0
    {
      InUpdate(s.placed, m, i, x);
      assert s.placed[m] + [i] == [i];
      hide In;
      assert Places(s', x) == Places(s, x) + if x == i then 1 else 0;
    }
  }

  lemma AfterPreIs(s: State, i: nat)
    requires |s.cores| == |s.placed| && CoresDealt(s, i) && s.normal != [] && i < |s.tasks|
    ensures var m := |s.normal| - 1;
            && s.cores[m] == Core(0.0, false) && s.placed[m] == [] && s.normal[m] == m
            && AfterPre(s, i) == s.(cores := s.cores[m := Core(s.tasks[i].util, true)], placed := s.placed[m := [i]],
                                    normal := s.normal[..m], pre := s.pre + [m])
  {
    var m := |s.normal| - 1;
    assert s.placed[m] + [i] == [i];
    assert s.cores[m := Core(s.tasks[i].util, false)][m := Core(s.tasks[i].util, true)] == s.cores[m := Core(s.tasks[i].util, true)];
  }

  lemma PreCores(s: State, s': State, i: nat)
    requires |s.cores| == |s.placed| && CoresDealt(s, i) && s.normal != [] && i < |s.tasks|
    requires var m := |s.normal| - 1;
             s' == s.(cores := s.cores[m := Core(s.tasks[i].util, true)], placed := s.placed[m := [i]],
                      normal := s.normal[..m], pre := s.pre + [m])
    ensures CoresDealt(s', i + 1)
  {
    var n := i + 1;
    forall c | 0 <= c < |s'.cores| && |s'.normal| <= c
      ensures GivenAway(s', c, n)
    {
      assert c >= |s.normal| ==> GivenAway(s, c, i);
    }
  }

  lemma PreLow(s: State, s': State, i: nat, number: nat)
    requires |s.cores| == |s.placed| && i < number <= |s.tasks| && CoresDealt(s, i) && s.normal != []
    requires forall a | 0 <= a < |s.uq| :: s.uq[a] < i
    requires forall i, j | 0 <= i < j < number :: s.tasks[i].priority > s.tasks[j].priority
    requires SimpleTest(s, i, number)
    requires var m := |s.normal| - 1;
             s' == s.(cores := s.cores[m := Core(s.tasks[i].util, true)], placed := s.placed[m := [i]],
                      normal := s.normal[..m], pre := s.pre + [m])
    ensures LowWaits(s', i + 1, number)
  {
    assert SimpleSum(s.tasks, i + 1, i + 1) == 0.0;
    hide SimpleSum, LowSum, CoresDealt;
    LowSumNone(s.tasks, s.uq, s.tasks[i].priority);
  }

  /** When no core is left simple_test compares with less than nothing, and fails. */
  lemma SimpleNeedsCore(s0: State, s: State, i: nat, number: nat)
    requires Initial(s0, number) && Dealt(s0, s, i, number) && i < number && SimpleTest(s, i, number)
    ensures s.normal != []
  {
    SimpleSumPositive(s.tasks, i + 1, number);
  }

  lemma {:induction false} SimpleSumPositive(tasks: seq<Task>, from: nat, number: nat)
    requires number <= |tasks| && forall i | 0 <= i < number :: tasks[i].util > 0.0
    ensures SimpleSum(tasks, from, number) >= 0.0
    decreases number - from
  {
    if from < number {
      SimpleSumPositive(tasks, from + 1, number);
    }
  }

  /** Pre-assignment never reaches for a core that is not there. */
  lemma {:induction false} PreAssignDealt(s0: State, s: State, i: nat, number: nat)
    requires Initial(s0, number) && Dealt(s0, s, i, number)
    requires number <= |s.tasks| && i <= number && |s.placed| == |s.cores|
    requires forall j | 0 <= j < |s.normal| :: s.normal[j] < |s.cores|
    ensures PreAssign(s, i, number).Next?
    ensures Dealt(s0, PreAssign(s, i, number).s, number, number)
    decreases number - i
  {
    hide Dealt, Initial, AfterPre, Push, SimpleTest;
    if i < number {
      if s.tasks[i].heavy && SimpleTest(s, i, number) {
        SimpleNeedsCore(s0, s, i, number);
        PreDealt(s0, s, i, number);
        DealtStacks(s0, AfterPre(s, i), i + 1, number);
        PreAssignDealt(s0, AfterPre(s, i), i + 1, number);
      } else {
        PushDealt(s0, s, i, number);
        DealtStacks(s0, Push(s, i), i + 1, number);
        PreAssignDealt(s0, Push(s, i), i + 1, number);
      }
    }
  }

  lemma DealtStacks(s0: State, s: State, i: nat, number: nat)
    requires Dealt(s0, s, i, number)
    ensures i <= number <= |s.tasks| && |s.placed| == |s.cores|
    ensures forall j | 0 <= j < |s.normal| :: s.normal[j] < |s.cores|
  {
  }

  /** Who is given a core, and who is not. */
  lemma {:induction false} PreAssignDeserves(s0: State, s: State, i: nat, number: nat)
    requires Initial(s0, number) && Dealt(s0, s, i, number) && Deserving(s, number)
    requires number <= |s.tasks| && i <= number && |s.placed| == |s.cores|
    requires forall j | 0 <= j < |s.normal| :: s.normal[j] < |s.cores|
    ensures PreAssign(s, i, number).Next?
    ensures var s' := PreAssign(s, i, number).s; |s'.cores| == |s'.placed| && number <= |s'.tasks| && Deserving(s', number)
    decreases number - i
  {
    hide Dealt, Initial, AfterPre, Push, SimpleTest, Deserving;
    if i < number {
      if s.tasks[i].heavy && SimpleTest(s, i, number) {
        SimpleNeedsCore(s0, s, i, number);
        PreDealt(s0, s, i, number);
        DealtStacks(s0, AfterPre(s, i), i + 1, number);
        PreDeserves(s0, s, i, number);
        PreAssignDeserves(s0, AfterPre(s, i), i + 1, number);
      } else {
        PushDealt(s0, s, i, number);
        DealtStacks(s0, Push(s, i), i + 1, number);
        PushDeserves(s0, s, i, number);
        PreAssignDeserves(s0, Push(s, i), i + 1, number);
      }
    }
  }

  lemma PreDeserves(s0: State, s: State, i: nat, number: nat)
    requires Initial(s0, number) && Dealt(s0, s, i, number) && Deserving(s, number) && i < number
    requires s.tasks[i].heavy && SimpleTest(s, i, number) && s.normal != []
    ensures Deserving(AfterPre(s, i), number)
  {
    AfterPreIs(s, i);
    var m := |s.normal| - 1;
    var s' := s.(cores := s.cores[m := Core(s.tasks[i].util, true)], placed := s.placed[m := [i]],
                 normal := s.normal[..m], pre := s.pre + [m]);
    hide Initial, Places, In, Load, Sum, LowSum, SimpleSum, LowWaits, AfterPre, GivenAway;
    forall a | 0 <= a < |s'.uq| && s'.uq[a] < number && s'.tasks[s'.uq[a]].heavy
      ensures Refused(s', s'.uq[a], number)
    {
      assert Refused(s, s.uq[a], number);
      StillRefused(s, s', s.uq[a], number, i);
    }
    hide Refused, CoresDealt, Dealt;
  }

  lemma StillRefused(s: State, s': State, t: nat, number: nat, i: nat)
    requires |s.cores| == |s.placed| && CoresDealt(s, i) && s.normal != [] && t < i && number <= |s.tasks| && Refused(s, t, number)
    requires var m := |s.normal| - 1;
             && |s'.cores| == |s.cores| && s'.placed == s.placed[m := [i]] && s'.pre == s.pre + [m] && |s'.placed| == |s'.cores|
             && s'.tasks == s.tasks && s'.bound == s.bound
    ensures Refused(s', t, number)
  {
    hide SimpleSum;
    var n :| 0 <= n <= |s.pre| && GivenBefore(s, t, n) && SimpleSum(s.tasks, t + 1, number) > (|s.cores| - n - 1) as real * s.bound;
    GivenLater(s, s', t, n, i);
  }

  lemma GivenLater(s: State, s': State, t: nat, n: nat, i: nat)
    requires |s.cores| == |s.placed| && CoresDealt(s, i) && s.normal != [] && t < i && n <= |s.pre| && GivenBefore(s, t, n)
    requires var m := |s.normal| - 1;
             && |s'.cores| == |s.cores| && s'.placed == s.placed[m := [i]] && s'.pre == s.pre + [m] && |s'.placed| == |s'.cores|
    ensures GivenBefore(s', t, n)
  {
  }

  lemma PushDeserves(s0: State, s: State, i: nat, number: nat)
    requires Initial(s0, number) && Dealt(s0, s, i, number) && Deserving(s, number) && i < number
    requires !(s.tasks[i].heavy && SimpleTest(s, i, number))
    ensures Deserving(Push(s, i), number)
  {
    var s' := Push(s, i);
    hide Initial, Places, In, Load, Sum, LowSum, SimpleSum, LowWaits;
    assert s' == s.(uq := s.uq + [i]);
    forall a | 0 <= a < |s'.uq| && s'.uq[a] < number && s'.tasks[s'.uq[a]].heavy
      ensures Refused(s', s'.uq[a], number)
    {
      if a < |s.uq| {
        assert Refused(s, s.uq[a], number);
        var n :| 0 <= n <= |s.pre| && GivenBefore(s, s.uq[a], n)
                 && SimpleSum(s.tasks, s.uq[a] + 1, number) > (|s.cores| - n - 1) as real * s.bound;
        assert GivenBefore(s', s.uq[a], n);
      } else {
        AllGivenBefore(s, s', i);
        assert |s.cores| - |s.pre| - 1 == |s.normal| - 1;
        assert GivenBefore(s', i, |s.pre|);
      }
    }
  }

  lemma AllGivenBefore(s: State, s': State, i: nat)
    requires |s.cores| == |s.placed| && CoresDealt(s, i) && s' == s.(uq := s'.uq)
    ensures GivenBefore(s', i, |s.pre|)
  {
    forall j | 0 <= j < |s'.pre|
      ensures s'.pre[j] < |s'.placed| && s'.placed[s'.pre[j]] != [] && s'.placed[s'.pre[j]][0] < i
    {
      assert GivenAway(s, s.pre[j], i);
    }
  }

  lemma StartDeserves(s0: State, number: nat)
    requires Initial(s0, number)
    ensures |s0.cores| == |s0.placed| && number <= |s0.tasks| && Deserving(s0, number)
  {
  }

  // ---------------------------------------------------------------- from the start of main

  lemma {:induction false} LoadZero(cores: seq<Core>)
    requires forall c | 0 <= c < |cores| :: cores[c].util == 0.0
    ensures Load(cores) == 0.0
  {
    if cores != [] {
      assert forall c | 0 <= c < |cores[1..]| :: cores[1..][c] == cores[c + 1];
      LoadZero(cores[1..]);
    }
  }

  lemma {:induction false} InNone(placed: seq<seq<nat>>, i: nat)
    requires forall c | 0 <= c < |placed| :: placed[c] == []
    ensures In(placed, i) == 0
  {
    if placed != [] {
      assert forall c | 0 <= c < |placed[1..]| :: placed[1..][c] == placed[c + 1];
      InNone(placed[1..], i);
    }
  }

  lemma {:induction false} RoomEmpty(cores: seq<Core>, ids: seq<nat>, bound: real)
    requires bound > 0.0 && forall i | 0 <= i < |ids| :: ids[i] < |cores| && cores[ids[i]].util == 0.0
    ensures Room(cores, ids, bound) == |ids| as real * bound
  {
    if ids != [] {
      RoomEmpty(cores, ids[..|ids| - 1], bound);
      assert |ids| as real * bound == (|ids| - 1) as real * bound + bound;
    }
  }

  /** The room on the last core that was given away. */
  function LastRoom(s: State): real
    requires forall i | 0 <= i < |s.pre| :: s.pre[i] < |s.cores|
  {
    if s.pre == [] then 0.0 else RoomOn(s.cores[s.pre[|s.pre| - 1]], s.bound)
  }

  lemma DealtSound(s0: State, s: State, number: nat)
    requires Initial(s0, number) && Dealt(s0, s, number, number) && s.normal != []
    ensures Sound(s, number)
  {
    hide Places, In, Load, Sum, LowSum, SimpleSum, LowWaits, Full;
    forall c | 0 <= c < |s.cores|
      ensures s.cores[c].preAssigned <==> c in s.pre
    {
      if c < |s.normal| {
        assert s.cores[c] == Core(0.0, false);
      } else {
        assert GivenAway(s, c, number) && s.pre[|s.cores| - 1 - c] == c;
      }
    }
  }

  lemma DealtRoom(s0: State, s: State, number: nat)
    requires Initial(s0, number) && Dealt(s0, s, number, number) && s.normal != []
    ensures WellFormed(s) && RoomLeft(s) == |s.normal| as real * s.bound + LastRoom(s)
    ensures Room(s.cores, s.normal, s.bound) == |s.normal| as real * s.bound
  {
    hide Places, In, Load, Sum, LowSum, SimpleSum, LowWaits, Room, GivenAway;
    RoomEmpty(s.cores, s.normal, s.bound);
    RoomSnoc(s);
  }

  lemma RoomSnoc(s: State)
    requires WellFormed(s)
    ensures RoomLeft(s) == Room(s.cores, s.normal, s.bound) + LastRoom(s)
  {
    if s.pre != [] {
      assert Reached(s)[..|s.normal|] == s.normal;
    }
  }

  lemma DealtAccounted(s0: State, s: State, number: nat)
    requires Initial(s0, number) && Dealt(s0, s, number, number)
    ensures Accounted(s)
  {
    hide Places, In, Load, Sum, LowSum, SimpleSum, LowWaits;
    forall d | 0 <= d < |s.placed|
      ensures forall j | 0 <= j < |s.placed[d]| :: s.placed[d][j] < s.next
      ensures s.cores[d].util == Sum(s.tasks, s.placed[d])
    {
      if d < |s.normal| {
        assert s.placed[d] == [] && s.cores[d].util == 0.0;
        assert Sum(s.tasks, []) == 0.0 by { SumNone(s.tasks); }
      } else {
        assert GivenAway(s, d, number);
        SumOne(s.tasks, s.placed[d][0]);
        assert s.placed[d] == [s.placed[d][0]];
      }
    }
  }

  lemma SumNone(tasks: seq<Task>)
    ensures Sum(tasks, []) == 0.0
  {
  }

  lemma SumOne(tasks: seq<Task>, t: nat)
    requires t < |tasks|
    ensures Sum(tasks, [t]) == tasks[t].util
  {
    SumPush(tasks, [], t);
    assert [] + [t] == [t];
  }

  lemma DealtOrdered(s0: State, s: State, number: nat)
    requires Initial(s0, number) && Dealt(s0, s, number, number) && s.normal != []
    ensures Ordered(s)
  {
    hide Places, In, Load, Sum, LowSum, SimpleSum, LowWaits, Room, RoomLeft, PreReserved;
    forall c | 0 <= c < |s.cores|
      ensures if c < |s.normal| then s.placed[c] == [] else |s.placed[c]| == 1 && s.placed[c][0] < number && c in s.pre
    {
      if c >= |s.normal| {
        assert GivenAway(s, c, number) && s.pre[|s.cores| - 1 - c] == c;
      }
    }
    hide GivenAway;
    assert Indexed(s);
    DealtReserved(s0, s, number);
  }

  /** What simple_test has added up is what waits below the task. */
  lemma DealtReserved(s0: State, s: State, number: nat)
    requires Initial(s0, number) && Dealt(s0, s, number, number) && s.normal != [] && Indexed(s)
    ensures PreReserved(s)
  {
    DealtRoom(s0, s, number);
    if s.pre != [] {
      DealtLast(s0, s, number);
      hide Initial, Dealt, Indexed, LowSum, SimpleSum, Room, RoomLeft;
      assert LowFit(s, |s.normal|);
    }
  }

  /** The tasks below the last one that was given a core wait on the stack, and are
      what simple_test has added up. */
  lemma DealtLast(s0: State, s: State, number: nat)
    requires Initial(s0, number) && Dealt(s0, s, number, number) && s.pre != [] && Indexed(s)
    ensures var m := |s.normal|;
            && s.pre[|s.pre| - 1] == m < |s.cores| && |s.placed[m]| == 1 && number <= |s.tasks|
            && s.placed[m][0] < number
            && LowSum(s.tasks, s.uq, Priority(s, m, 0)) == SimpleSum(s.tasks, s.placed[m][0] + 1, number) <= m as real * s.bound
            && (forall a | 0 <= a < |s.uq| :: Queued(s, a) != Priority(s, m, 0))
  {
    InitialTasks(s0, number);
    hide Initial, Places, In, Load, Sum, LowSum, SimpleSum;
    var m := |s.normal|;
    var k := s.placed[m][0];
    forall a | 0 <= a < |s.uq|
      ensures s.tasks[s.uq[a]].priority != s.tasks[k].priority
    {
      assert s.uq[a] != k && s.uq[a] < number;
    }
  }

  /** From the start of main, however many cores are given away as long as one is left:
      all tasks are assigned if and only if those that were stacked fit on the cores
      that were not given away and on what is left of the last one that was.  Then
      the utilization is conserved, there are fewer splits than cores, and no core is
      above the bound but for one that was given to a single task above it. */
  lemma Spa2Exactly(s0: State, number: nat)
    requires Initial(s0, number)
    ensures PreAssign(s0, 0, number).Next?
    ensures var s := PreAssign(s0, 0, number).s; |s.cores| == |s.placed| && number <= |s.tasks| && Deserving(s, number)
    ensures PreAssign(s0, 0, number).s.normal != [] ==>
            var s := PreAssign(s0, 0, number).s;
            && Sound(s, number) && Accounted(s) && Ordered(s)
            && (Run(s).Next? <==> Sum(s.tasks, s.uq) <= |s.normal| as real * s.bound + LastRoom(s))
            && (Run(s).Next? ==>
                  var s' := Run(s).s;
                  && Accounted(s') && Ordered(s') && s'.uq == [] && s'.next <= number + |s'.cores| - 1
                  && Load(s'.cores) == SimpleSum(s0.tasks, 0, number) && WithinBound(s, s'))
  {
    hide Sound, Accounted, Ordered, Dealt, Initial, PreAssign, Run, Load, Sum, SimpleSum, RoomLeft, WellFormed, WithinBound, LastRoom;
    StartDealt(s0, number);
    DealtStacks(s0, s0, 0, number);
    PreAssignDealt(s0, s0, 0, number);
    StartDeserves(s0, number);
    PreAssignDeserves(s0, s0, 0, number);
    hide Deserving;
    var s := PreAssign(s0, 0, number).s;
    if s.normal != [] {
      DealtSound(s0, s, number);
      DealtAccounted(s0, s, number);
      DealtOrdered(s0, s, number);
      DealtRoom(s0, s, number);
      SucceedsExactly(s, number);
      if Run(s).Next? {
        DealtTotal(s0, s, number);
        PartitionCompletes(s, number);
        PartitionKeepsOrder(s, number);
        WithinSame(s, Run(s).s);
      }
    }
  }

  lemma WithinSame(s: State, s': State)
    requires WithinBound(s, s')
    ensures |s'.cores| == |s.cores|
  {
  }

  lemma DealtTotal(s0: State, s: State, number: nat)
    requires Dealt(s0, s, number, number)
    ensures number <= |s0.tasks| && Load(s.cores) + Sum(s.tasks, s.uq) == SimpleSum(s0.tasks, 0, number)
    ensures forall i | 0 <= i < |s.uq| :: s.uq[i] < |s.tasks|
  {
  }

  /** With at most one core given away, and to a task that fits on it, that is so
      whenever all tasks together fit on all cores. */
  lemma Spa2Succeeds(s0: State, number: nat)
    requires Initial(s0, number) && PreAssign(s0, 0, number).Next?
    requires PreAssign(s0, 0, number).s.normal != []
    requires var s := PreAssign(s0, 0, number).s;
             |s.pre| == 0 || (|s.pre| == 1 && s.pre[0] < |s.cores| && s.cores[s.pre[0]].util <= s.bound)
    requires SimpleSum(s0.tasks, 0, number) <= |s0.cores| as real * s0.bound
    ensures WellFormed(PreAssign(s0, 0, number).s) && Run(PreAssign(s0, 0, number).s).Next?
    ensures forall c | 0 <= c < |Run(PreAssign(s0, 0, number).s).s.cores| ::
              Run(PreAssign(s0, 0, number).s).s.cores[c].util <= s0.bound
  {
    hide Accounted, Ordered, Initial, PreAssign, Run, Load, Sum, SimpleSum, Deserving;
    StartDealt(s0, number);
    DealtStacks(s0, s0, 0, number);
    PreAssignDealt(s0, s0, 0, number);
    Spa2Exactly(s0, number);
    var s := PreAssign(s0, 0, number).s;
    DealtTotal(s0, s, number);
    DealtLoad(s0, s, number);
  }

  lemma DealtLoad(s0: State, s: State, number: nat)
    requires Initial(s0, number) && Dealt(s0, s, number, number) && |s.pre| <= 1
    requires s.pre != [] ==> s.cores[s.pre[0]].util <= s.bound
    ensures s.bound == s0.bound > 0.0 && |s.cores| == |s0.cores| == |s.normal| + |s.pre|
    ensures (forall i | 0 <= i < |s.pre| :: s.pre[i] < |s.cores|)
    ensures Load(s.cores) == |s.pre| as real * s.bound - LastRoom(s)
    ensures |s.cores| as real * s.bound == |s.normal| as real * s.bound + |s.pre| as real * s.bound
    ensures forall c | 0 <= c < |s.cores| :: s.cores[c].util <= s.bound
  {
    hide Places, In, Load, Sum, LowSum, SimpleSum, LowWaits;
    var m := |s.cores| - 1;
    LoadZero(s0.cores);
    if s.pre == [] {
      assert s.cores == s0.cores;
    } else {
      assert s.cores == s0.cores[m := s.cores[m]];
      LoadUpdate(s0.cores, m, s.cores[m]);
    }
  }

  // ---------------------------------------------------------------- the rounding of runtimes

  /** The pieces of a task that is split again and again, `rooms` being the
      utilizations that were left on the cores. */
  function Pieces(t: Task, rooms: seq<real>): (r: seq<Task>)
    ensures |r| == |rooms| + 1
    decreases |rooms|
  {
    if rooms == [] then [t] else [Body(t, rooms[0])] + Pieces(Tail(t, rooms[0]), rooms[1..])
  }

  /** Each time the task did not fit. */
  ghost predicate NeverFits(t: Task, rooms: seq<real>)
    decreases |rooms|
  {
    rooms == [] || (0.0 <= rooms[0] < t.util && NeverFits(Tail(t, rooms[0]), rooms[1..]))
  }

  function Runtimes(ts: seq<Task>): int {
    if ts == [] then 0 else ts[0].runtime + Runtimes(ts[1..])
  }

  function Utils(ts: seq<Task>): real {
    if ts == [] then 0.0 else ts[0].util + Utils(ts[1..])
  }

  /** By how much the runtime exceeds what the utilization stands for. */
  function Excess(t: Task): real {
    t.runtime as real - t.util * t.period as real
  }

  lemma OneSplit(t: Task, room: real)
    requires 0.0 <= room < t.util && Excess(t) >= 0.0
    ensures var b, r := Body(t, room), Tail(t, room);
            && b.runtime + r.runtime == t.runtime && b.util + r.util == t.util && b.period == r.period == t.period
            && b.name == r.name == t.name && b.priority == r.priority == t.priority
            && b.subnum == t.subnum && r.subnum == t.subnum + 1 && b.split && !r.split
            && 0 <= b.runtime && 0 <= r.runtime && -1.0 < Excess(b) <= 0.0
            && Excess(t) <= Excess(r) < Excess(t) + 1.0
  {
  }

  /** Over any chain of splits of a task whose utilization is its runtime over its
      period: runtimes and utilizations of the pieces sum to the task's; a body's
      runtime is at most what its utilization stands for; and the last tail runs
      longer than its recorded utilization says, but by less than a tick a split. */
  lemma {:induction false} SplitRounding(t: Task, rooms: seq<real>)
    requires NeverFits(t, rooms) && Excess(t) >= 0.0 && t.runtime >= 0
    ensures var ps := Pieces(t, rooms);
            && Runtimes(ps) == t.runtime && Utils(ps) == t.util
            && (forall i | 0 <= i < |rooms| :: 0 <= ps[i].runtime && -1.0 < Excess(ps[i]) <= 0.0)
            && 0 <= ps[|rooms|].runtime
            && Excess(t) <= Excess(ps[|rooms|]) <= Excess(t) + |rooms| as real
            && (rooms != [] ==> Excess(ps[|rooms|]) < Excess(t) + |rooms| as real)
    decreases |rooms|
  {
    hide Excess, Body, Tail;
    if rooms != [] {
      OneSplit(t, rooms[0]);
      var rest := Pieces(Tail(t, rooms[0]), rooms[1..]);
      SplitRounding(Tail(t, rooms[0]), rooms[1..]);
      var ps := Pieces(t, rooms);
      assert ps[1..] == rest;
      forall i | 0 <= i < |rooms|
        ensures 0 <= ps[i].runtime && -1.0 < Excess(ps[i]) <= 0.0
      {
        if i > 0 {
          assert ps[i] == rest[i - 1];
        }
      }
    }
  }

  /** Three cores and tasks of utilization 0.4, 0.5, 0.7 and 0.4 under a bound of
      0.7, the middle two heavy. */
  function FourTasks(): State {
    var spare := Task(0, 0, 0, 0, 0.0, false, 0, false);
    State([Task(0, 4, 10, 4, 0.4, false, 1, false), Task(1, 3, 10, 5, 0.5, true, 1, false),
           Task(2, 2, 10, 7, 0.7, true, 1, false), Task(3, 1, 10, 4, 0.4, false, 1, false), spare, spare],
          4, [Core(0.0, false), Core(0.0, false), Core(0.0, false)], [0, 1, 2], [], [], 0.7, [[], [], []])
  }

  /** What pre-assignment makes of them. */
  function FourDealt(): State {
    FourTasks().(cores := [Core(0.0, false), Core(0.7, true), Core(0.5, true)], normal := [0], pre := [2, 1],
                 uq := [0, 3], placed := [[], [2], [1]])
  }

  lemma FourSums()
    ensures var ts := FourTasks().tasks;
            && SimpleSum(ts, 3, 4) == 0.4 && SimpleSum(ts, 2, 4) == 1.1 && SimpleSum(ts, 0, 4) == 2.0
  {
    var ts := FourTasks().tasks;
    assert SimpleSum(ts, 4, 4) == 0.0;
    assert SimpleSum(ts, 3, 4) == 0.4;
    assert SimpleSum(ts, 2, 4) == 1.1;
    assert SimpleSum(ts, 1, 4) == 1.6;
  }

  lemma SameState(s: State, s': State)
    requires s.tasks == s'.tasks && s.next == s'.next && s.cores == s'.cores && s.normal == s'.normal && s.pre == s'.pre
    requires s.uq == s'.uq && s.bound == s'.bound && s.placed == s'.placed
    ensures s == s'
  {
  }

  lemma FourPreAssigned()
    ensures PreAssign(FourTasks(), 0, 4) == Next(FourDealt())
  {
    FourSums();
    var s0 := FourTasks();
    var s1 := s0.(uq := [0]);
    var s2 := s1.(cores := [Core(0.0, false), Core(0.0, false), Core(0.5, true)], normal := [0, 1], pre := [2], placed := [[], [], [1]]);
    var s3 := FourDealt().(uq := [0]);
    assert Push(s0, 0) == s1;
    assert s1.placed[2] + [1] == [1] && s2.placed[1] + [2] == [2];
    SameState(AfterPre(s1, 1), s2);
    SameState(AfterPre(s2, 2), s3);
    SameState(Push(s3, 3), FourDealt());
    hide SimpleSum, Push, AfterPre;
    assert SimpleTest(s1, 1, 4) && SimpleTest(s2, 2, 4);
    assert PreAssign(FourDealt(), 4, 4) == Next(FourDealt());
    assert PreAssign(s3, 3, 4) == Next(FourDealt());
    assert PreAssign(s2, 2, 4) == Next(FourDealt());
    assert PreAssign(s1, 1, 4) == Next(FourDealt());
  }

  /** After one round, and after two: the second one splits a task. */
  function FourOnce(): State {
    FourDealt().(uq := [0], cores := [Core(0.4, false), Core(0.7, true), Core(0.5, true)], placed := [[3], [2], [1]])
  }

  function FourTwice(): State {
    var s := FourOnce();
    s.(tasks := s.tasks[0 := Body(s.tasks[0], 0.3)][4 := Tail(s.tasks[0], 0.3)], next := 5, uq := [4],
       cores := [Core(0.7, false), Core(0.7, true), Core(0.5, true)], placed := [[3, 0], [2], [1]])
  }

  lemma FirstRound()
    ensures WellFormed(FourDealt()) && Place(FourDealt()) == Next(FourOnce())
  {
    var s := FourDealt();
    assert s.placed[0] + [3] == [3];
    SameState(Place(s).s, FourOnce());
  }

  lemma SecondRound()
    ensures WellFormed(FourOnce()) && Place(FourOnce()) == Next(FourTwice())
  {
    var s := FourOnce();
    var s1 := s.(uq := []);
    assert MinCore(s) == 0 && Place(s) == PlaceOn(s1, 0, 0);
    var s2 := Split(s1, 0, 0);
    assert s2 == s1.(tasks := FourTwice().tasks, next := 5, uq := [4]);
    hide Split;
    assert s.placed[0] + [0] == [3, 0];
    assert Assign(s2, 0, 0).cores == FourTwice().cores;
    assert Assign(s2, 0, 0).placed == FourTwice().placed;
    SameState(Assign(s2, 0, 0), FourTwice());
  }

  lemma ThirdRound()
    ensures WellFormed(FourTwice()) && Place(FourTwice()) == FullyUtilized(FourTwice().(uq := [], pre := [2]))
  {
    assert MinCore(FourTwice()) == 0;
  }

  lemma FourRounds()
    ensures WellFormed(FourDealt()) && Run(FourDealt()) == FullyUtilized(FourTwice().(uq := [], pre := [2]))
  {
    FirstRound();
    SecondRound();
    ThirdRound();
    hide Place, WellFormed;
    assert Run(FourTwice()) == Place(FourTwice());
    assert Run(FourOnce()) == Run(FourTwice());
    assert Run(FourDealt()) == Run(FourOnce());
  }

  /** With two cores given away the last of them can be full while the other has room;
      the loop then says that everything is full, although all tasks together fit. */
  lemma SecondPreAssignedCoreIsMissed()
    ensures Initial(FourTasks(), 4)
    ensures var s0, s := FourTasks(), FourDealt();
            && PreAssign(s0, 0, 4) == Next(s) && SimpleSum(s0.tasks, 0, 4) <= |s0.cores| as real * s0.bound
            && s.pre == [2, 1] && WellFormed(s) && Run(s).FullyUtilized?
            && |Run(s).s.cores| == 3 && Run(s).s.cores[2].util < s.bound
  {
    FourSums();
    FourPreAssigned();
    FourRounds();
    hide Run, SimpleSum, PreAssign, WellFormed;
  }
}
