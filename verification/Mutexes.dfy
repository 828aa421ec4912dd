/** Mutexes with priority inheritance, from queue.c and tasks.c.

    A task that blocks on a mutex lends its priority to the holder.  The holder
    gives it back when it has returned its last mutex, or, in part, when the
    blocked task's time runs out.  A run is any interleaving of the critical
    sections of the calls. */
module Mutexes {
  import opened ListSpec
  import opened Common

  type TaskId = nat
  type Id = nat

  /** Where a task is: outside, blocked on a mutex, or awake again (given the mutex
      or timed out) and about to retry; `inherited` is the call's
      xInheritanceOccurred. */
  datatype Phase = Out | Waits(id: Id, inherited: bool) | Retries(id: Id, inherited: bool)

  /** uxPriority, uxBasePriority and uxMutexesHeld */
  datatype Task = Task(priority: nat, base: nat, held: int, phase: Phase)

  /** uxMessagesWaiting, xMutexHolder, whether the mutex is recursive,
      uxRecursiveCallCount and xTasksWaitingToReceive.  `answers` records, for the
      specification, whom the holder answers for: who has blocked on the mutex since
      it took it, and who was waiting then without being more urgent than it. */
  datatype Mutex = Mutex(count: nat, holder: Option<TaskId>, recursive: bool, calls: int,
                         waiting: seq<Entry<TaskId>>, answers: set<TaskId>)

  datatype State = State(tasks: map<TaskId, Task>, mutexes: map<Id, Mutex>)

  // ---------------------------------------------------------------- the code

  function SetTask(s: State, t: TaskId, v: Task): State {
    s.(tasks := s.tasks[t := v])
  }

  function SetMutex(s: State, m: Id, v: Mutex): State {
    s.(mutexes := s.mutexes[m := v])
  }

  /** A new value for a task's event list item, which stays where it is. */
  function Retag(ws: seq<Entry<TaskId>>, t: TaskId, value: nat): (r: seq<Entry<TaskId>>)
    ensures |r| == |ws| && forall i | 0 <= i < |ws| :: r[i] == if ws[i].owner == t then Entry(t, value) else ws[i]
  {
    seq(|ws|, i requires 0 <= i < |ws| => if ws[i].owner == t then Entry(t, value) else ws[i])
  }

  function RetagAll(s: State, t: TaskId, value: nat): State {
    s.(mutexes := map m | m in s.mutexes :: s.mutexes[m].(waiting := Retag(s.mutexes[m].waiting, t, value)))
  }

  /** The value of a task's event list item: larger for lower priorities. */
  function ItemValue(priority: nat): nat {
    if priority <= MAX_PRIORITIES then MAX_PRIORITIES - priority else 0
  }

  function SetPriority(s: State, t: TaskId, priority: nat): State
    requires t in s.tasks
  {
    RetagAll(SetTask(s, t, s.tasks[t].(priority := priority)), t, ItemValue(priority))
  }

  /** xTaskPriorityInherit, called by a task of priority `p` */
  function Inherit(s: State, holder: Option<TaskId>, p: nat): (State, bool)
    requires holder.Some? ==> holder.value in s.tasks
  {
    if holder == None then (s, false)
    else
      var h := s.tasks[holder.value];
      if h.priority < p then (SetPriority(s, holder.value, p), true)
      else (s, h.base < p)
  }

  /** xTaskPriorityDisinherit */
  function Disinherit(s: State, t: TaskId): State
    requires t in s.tasks
  {
    var v := s.tasks[t].(held := s.tasks[t].held - 1);
    if v.priority != v.base && v.held == 0 then SetPriority(SetTask(s, t, v), t, v.base) else SetTask(s, t, v)
  }

  /** prvGetHighestPriorityOfWaitToReceiveList */
  function HighestWaiting(ws: seq<Entry<TaskId>>): nat {
    if ws == [] || ws[0].value > MAX_PRIORITIES then 0 else MAX_PRIORITIES - ws[0].value
  }

  /** vTaskPriorityDisinheritAfterTimeout */
  function DisinheritAfterTimeout(s: State, holder: Option<TaskId>, highest: nat): State
    requires holder.Some? ==> holder.value in s.tasks
  {
    if holder == None then s
    else
      var h := s.tasks[holder.value];
      var p := if h.base < highest then highest else h.base;
      if h.priority != p && h.held == 1 then SetPriority(s, holder.value, p) else s
  }

  /** The waiting tasks that are not above a priority. */
  function NotAbove(tasks: map<TaskId, Task>, ws: seq<Entry<TaskId>>, p: nat): set<TaskId> {
    set i | 0 <= i < |ws| && ws[i].owner in tasks && tasks[ws[i].owner].priority <= p :: ws[i].owner
  }

  /** The critical section that takes a mutex, or counts another take of a recursive
      one by its holder; it changes nothing when the mutex is not there to take. */
  function Take(s: State, t: TaskId, m: Id): State
    requires t in s.tasks && m in s.mutexes
  {
    var x := s.mutexes[m];
    if x.recursive && x.holder == Some(t) then SetMutex(s, m, x.(calls := x.calls + 1))
    else if x.count > 0 then
      var taken := x.(count := x.count - 1, holder := Some(t),
                      answers := NotAbove(s.tasks, x.waiting, s.tasks[t].priority),
                      calls := if x.recursive then x.calls + 1 else x.calls);
      SetMutex(SetTask(s, t, s.tasks[t].(held := s.tasks[t].held + 1, phase := Out)), m, taken)
    else s
  }

  /** The task finds the mutex still taken, lends its priority and is placed on the list. */
  function Block(s: State, t: TaskId, m: Id): State
    requires t in s.tasks && m in s.mutexes && (s.mutexes[m].holder.Some? ==> s.mutexes[m].holder.value in s.tasks)
  {
    var (s1, inherited) := Inherit(s, s.mutexes[m].holder, s.tasks[t].priority);
    var x := s1.mutexes[m];
    if s.mutexes[m].count == 0 && t in s1.tasks then
      SetMutex(SetTask(s1, t, s1.tasks[t].(phase := Waits(m, inherited))), m,
               x.(waiting := Insert(x.waiting, Entry(t, ItemValue(s.tasks[t].priority))), answers := x.answers + {t}))
    else s
  }

  /** A blocked task's time-out expires. */
  function TimeOut(s: State, t: TaskId): State
    requires t in s.tasks && s.tasks[t].phase.Waits? && s.tasks[t].phase.id in s.mutexes
  {
    var p := s.tasks[t].phase;
    var x := s.mutexes[p.id];
    SetMutex(SetTask(s, t, s.tasks[t].(phase := Retries(p.id, p.inherited))), p.id, x.(waiting := Without(x.waiting, t)))
  }

  /** The end of a call that was in vain: what was lent is taken back in part. */
  function GiveUp(s: State, t: TaskId): State
    requires t in s.tasks && s.tasks[t].phase.Retries? && s.tasks[t].phase.id in s.mutexes
    requires var h := s.mutexes[s.tasks[t].phase.id].holder; h.Some? ==> h.value in s.tasks
  {
    var p := s.tasks[t].phase;
    var x := s.mutexes[p.id];
    var s1 := SetTask(s, t, s.tasks[t].(phase := Out));
    if p.inherited then DisinheritAfterTimeout(s1, x.holder, HighestWaiting(x.waiting)) else s1
  }

  /** The first waiting task is woken. */
  function WakeFirst(s: State, m: Id): State
    requires m in s.mutexes
  {
    var x := s.mutexes[m];
    if x.waiting == [] then s
    else
      var w := x.waiting[0].owner;
      var s1 := SetMutex(s, m, x.(waiting := x.waiting[1..]));
      if w in s1.tasks && s1.tasks[w].phase.Waits?
      then SetTask(s1, w, s1.tasks[w].(phase := Retries(m, s1.tasks[w].phase.inherited)))
      else s1
  }

  function Freed(s: State, m: Id): State
    requires m in s.mutexes
  {
    SetMutex(s, m, s.mutexes[m].(count := s.mutexes[m].count + 1, holder := None))
  }

  /** The mutex is given back. */
  function Release(s: State, t: TaskId, m: Id): State
    requires t in s.tasks && m in s.mutexes
  {
    WakeFirst(Freed(Disinherit(s, t), m), m)
  }

  /** A give by `t`: a recursive mutex goes back at the last one only, and stays where
      it is if `t` does not hold it. */
  function Give(s: State, t: TaskId, m: Id): State
    requires t in s.tasks && m in s.mutexes
  {
    var x := s.mutexes[m];
    if !x.recursive then Release(s, t, m)
    else if x.holder != Some(t) then s
    else
      var s1 := SetMutex(s, m, x.(calls := x.calls - 1));
      if x.calls - 1 == 0 then Release(s1, t, m) else s1
  }

  /** vTaskPrioritySet */
  function PrioritySet(s: State, t: TaskId, p: nat): State
    requires t in s.tasks
  {
    var v := s.tasks[t];
    if v.base == p then s
    else
      var v1 := if v.base == v.priority || p > v.priority then v.(priority := p, base := p) else v.(base := p);
      RetagAll(SetTask(s, t, v1), t, ItemValue(p))
  }

  datatype Event =
      Takes(t: TaskId, m: Id) | Blocks(t: TaskId, m: Id) | TimesOut(t: TaskId) | GivesUp(t: TaskId)
    | Gives(t: TaskId, m: Id) | SetsPriority(t: TaskId, p: nat)

  /** A task that is awake calls what it likes; one that is in a call goes on with it.
      A mutex that is not recursive is given by its holder only, and a task does not
      block on a recursive one it holds. */
  ghost predicate Enabled(s: State, e: Event) {
    && e.t in s.tasks
    && match e
       case Takes(t, m) =>
         m in s.mutexes && (s.tasks[t].phase == Out || (s.tasks[t].phase.Retries? && s.tasks[t].phase.id == m))
       case Blocks(t, m) =>
         && m in s.mutexes && (s.tasks[t].phase == Out || (s.tasks[t].phase.Retries? && s.tasks[t].phase.id == m))
         && !(s.mutexes[m].recursive && s.mutexes[m].holder == Some(t))
       case TimesOut(t) => s.tasks[t].phase.Waits?
       case GivesUp(t) => s.tasks[t].phase.Retries?
       case Gives(t, m) =>
         && m in s.mutexes && s.tasks[t].phase == Out
         && (!s.mutexes[m].recursive ==> s.mutexes[m].holder == Some(t))
       case SetsPriority(_, p) => p < MAX_PRIORITIES
  }

  // ---------------------------------------------------------------- accounting

  function HeldBy(s: State, t: TaskId): set<Id> {
    set m | m in s.mutexes && s.mutexes[m].holder == Some(t)
  }

  ghost predicate MutexOk(s: State, m: Id)
    requires m in s.mutexes
  {
    var x := s.mutexes[m];
    && x.count <= 1 && (x.count == 0 <==> x.holder.Some?)
    && (x.holder.Some? ==> x.holder.value in s.tasks)
    && x.calls >= 0 && (if x.recursive then x.holder.Some? <==> x.calls > 0 else x.calls == 0)
  }

  ghost predicate TaskOk(s: State, t: TaskId)
    requires t in s.tasks
  {
    var v := s.tasks[t];
    && v.held == |HeldBy(s, t)| && v.base <= v.priority && (v.held == 0 ==> v.priority == v.base)
    && (!v.phase.Out? ==> v.phase.id in s.mutexes)
  }

  ghost predicate Accounted(s: State) {
    && (forall m | m in s.mutexes :: MutexOk(s, m))
    && (forall t | t in s.tasks :: TaskOk(s, t))
  }

  function Step(s: State, e: Event): State
    requires Accounted(s) && Enabled(s, e)
  {
    match e
    case Takes(t, m) => Take(s, t, m)
    case Blocks(t, m) => assert MutexOk(s, m); Block(s, t, m)
    case TimesOut(t) => assert TaskOk(s, t); TimeOut(s, t)
    case GivesUp(t) => assert TaskOk(s, t); assert MutexOk(s, s.tasks[t].phase.id); GiveUp(s, t)
    case Gives(t, m) => Give(s, t, m)
    case SetsPriority(t, p) => PrioritySet(s, t, p)
  }

  /** Two states that differ in the mutexes' waiting lists at most, as far as the
      mutexes go. */
  ghost predicate SameMutexes(s: State, s': State) {
    && s'.mutexes.Keys == s.mutexes.Keys && s'.tasks.Keys == s.tasks.Keys
    && (forall m | m in s.mutexes ::
          s'.mutexes[m] == s.mutexes[m].(waiting := s'.mutexes[m].waiting, answers := s'.mutexes[m].answers))
  }

  lemma SameMutexesOk(s: State, s': State)
    requires SameMutexes(s, s')
    ensures forall t :: HeldBy(s', t) == HeldBy(s, t)
    ensures forall m | m in s.mutexes :: MutexOk(s', m) == MutexOk(s, m)
  {
  }

  /** A priority that is no lower than the base, for a task that holds a mutex or has
      its base priority, is in order. */
  lemma SetPriorityOk(s: State, t: TaskId, p: nat)
    requires Accounted(s) && t in s.tasks && p >= s.tasks[t].base && (s.tasks[t].held == 0 ==> p == s.tasks[t].base)
    ensures Accounted(SetPriority(s, t, p)) && SameMutexes(s, SetPriority(s, t, p))
    ensures forall u | u in s.tasks && u != t :: SetPriority(s, t, p).tasks[u] == s.tasks[u]
    ensures SetPriority(s, t, p).tasks[t] == s.tasks[t].(priority := p)
  {
    var s' := SetPriority(s, t, p);
    hide HeldBy, Retag;
    SameMutexesOk(s, s');
    assert forall u | u in s.tasks :: TaskOk(s, u);
    assert forall m | m in s.mutexes :: MutexOk(s, m);
  }

  /** Whoever holds a mutex has it in its count. */
  lemma HolderHolds(s: State, m: Id)
    requires Accounted(s) && m in s.mutexes && s.mutexes[m].holder.Some?
    ensures s.mutexes[m].holder.value in s.tasks && s.tasks[s.mutexes[m].holder.value].held > 0
  {
    var h := s.mutexes[m].holder.value;
    assert MutexOk(s, m) && TaskOk(s, h);
    assert m in HeldBy(s, h);
  }

  lemma InheritOk(s: State, m: Id, p: nat)
    requires Accounted(s) && m in s.mutexes && (s.mutexes[m].holder.Some? ==> s.mutexes[m].holder.value in s.tasks)
    ensures var s' := Inherit(s, s.mutexes[m].holder, p).0;
            && Accounted(s') && SameMutexes(s, s')
            && (forall u | u in s.tasks :: s'.tasks[u] == s.tasks[u].(priority := s'.tasks[u].priority))
  {
    if s.mutexes[m].holder.Some? {
      HolderHolds(s, m);
      var h := s.mutexes[m].holder.value;
      assert TaskOk(s, h);
      hide SetPriority, HeldBy;
      SetPriorityOk(s, h, if s.tasks[h].priority < p then p else s.tasks[h].priority);
    }
    SameItself(s);
  }

  lemma SameItself(s: State)
    ensures SameMutexes(s, s)
  {
  }

  /** A change of phase alone. */
  lemma PhaseOk(s: State, t: TaskId, p: Phase)
    requires Accounted(s) && t in s.tasks && (!p.Out? ==> p.id in s.mutexes)
    ensures Accounted(SetTask(s, t, s.tasks[t].(phase := p)))
  {
  }

  /** A change of a waiting list alone. */
  lemma WaitingOk(s: State, m: Id, v: Mutex)
    requires Accounted(s) && m in s.mutexes && v == s.mutexes[m].(waiting := v.waiting, answers := v.answers)
    ensures Accounted(SetMutex(s, m, v))
  {
    var s' := SetMutex(s, m, v);
    hide HeldBy;
    SameMutexesOk(s, s');
    assert forall u | u in s.tasks :: TaskOk(s, u);
    assert forall n | n in s.mutexes :: MutexOk(s, n);
  }

  /** One mutex changes hands. */
  lemma HeldMore(s: State, s': State, t: TaskId, m: Id)
    requires m in s.mutexes && s.mutexes[m].holder == None && m in s'.mutexes && s'.mutexes[m].holder == Some(t)
    requires s'.mutexes.Keys == s.mutexes.Keys && forall n | n in s.mutexes && n != m :: s'.mutexes[n].holder == s.mutexes[n].holder
    ensures forall u :: |HeldBy(s', u)| == |HeldBy(s, u)| + if u == t then 1 else 0
  {
    assert HeldBy(s', t) == HeldBy(s, t) + {m} && m !in HeldBy(s, t);
    forall u
      ensures |HeldBy(s', u)| == |HeldBy(s, u)| + if u == t then 1 else 0
    {
      if u != t {
        assert HeldBy(s', u) == HeldBy(s, u);
      }
    }
  }

  lemma AccountedEach(s: State)
    requires Accounted(s)
    ensures forall t | t in s.tasks :: TaskOk(s, t)
    ensures forall m | m in s.mutexes :: MutexOk(s, m)
  {
  }

  lemma TakeOk(s: State, t: TaskId, m: Id)
    requires Accounted(s) && t in s.tasks && m in s.mutexes
    ensures Accounted(Take(s, t, m))
  {
    AccountedEach(s);
    var x := s.mutexes[m];
    if x.recursive && x.holder == Some(t) {
      CallsOk(s, m, x.calls + 1);
    } else if x.count > 0 {
      HeldMore(s, Take(s, t, m), t, m);
      hide HeldBy, Accounted;
      TakenOk(s, t, m);
    }
  }

  lemma CallsOk(s: State, m: Id, calls: int)
    requires Accounted(s) && m in s.mutexes && s.mutexes[m].recursive && s.mutexes[m].holder.Some? && calls > 0
    ensures Accounted(SetMutex(s, m, s.mutexes[m].(calls := calls)))
  {
    var s' := SetMutex(s, m, s.mutexes[m].(calls := calls));
    AccountedEach(s);
    assert forall u :: HeldBy(s', u) == HeldBy(s, u);
    hide HeldBy;
  }

  lemma TakenOk(s: State, t: TaskId, m: Id)
    requires t in s.tasks && m in s.mutexes && s.mutexes[m].count > 0
    requires !(s.mutexes[m].recursive && s.mutexes[m].holder == Some(t))
    requires forall u | u in s.tasks :: TaskOk(s, u)
    requires forall n | n in s.mutexes :: MutexOk(s, n)
    requires forall u :: |HeldBy(Take(s, t, m), u)| == |HeldBy(s, u)| + if u == t then 1 else 0
    ensures Accounted(Take(s, t, m))
  {
    hide HeldBy;
    var s' := Take(s, t, m);
    forall u | u in s'.tasks
      ensures TaskOk(s', u)
    {
      assert TaskOk(s, u);
    }
    forall n | n in s'.mutexes
      ensures MutexOk(s', n)
    {
      assert MutexOk(s, n);
    }
  }

  lemma BlockOk(s: State, t: TaskId, m: Id)
    requires Accounted(s) && t in s.tasks && m in s.mutexes && (s.mutexes[m].holder.Some? ==> s.mutexes[m].holder.value in s.tasks)
    ensures Accounted(Block(s, t, m))
  {
    var (s1, inherited) := Inherit(s, s.mutexes[m].holder, s.tasks[t].priority);
    hide Accounted, Inherit, Insert, ItemValue;
    InheritOk(s, m, s.tasks[t].priority);
    var x := s1.mutexes[m];
    var s2 := SetTask(s1, t, s1.tasks[t].(phase := Waits(m, inherited)));
    PhaseOk(s1, t, Waits(m, inherited));
    WaitingOk(s2, m, x.(waiting := Insert(x.waiting, Entry(t, ItemValue(s.tasks[t].priority))), answers := x.answers + {t}));
  }

  lemma TimeOutOk(s: State, t: TaskId)
    requires Accounted(s) && t in s.tasks && s.tasks[t].phase.Waits? && s.tasks[t].phase.id in s.mutexes
    ensures Accounted(TimeOut(s, t))
  {
    hide Accounted, Without;
    var p := s.tasks[t].phase;
    PhaseOk(s, t, Retries(p.id, p.inherited));
    var x := s.mutexes[p.id];
    WaitingOk(SetTask(s, t, s.tasks[t].(phase := Retries(p.id, p.inherited))), p.id, x.(waiting := Without(x.waiting, t)));
  }

  lemma GiveUpOk(s: State, t: TaskId)
    requires Accounted(s) && t in s.tasks && s.tasks[t].phase.Retries? && s.tasks[t].phase.id in s.mutexes
    requires var h := s.mutexes[s.tasks[t].phase.id].holder; h.Some? ==> h.value in s.tasks
    ensures Accounted(GiveUp(s, t))
  {
    var p := s.tasks[t].phase;
    var x := s.mutexes[p.id];
    PhaseOk(s, t, Out);
    var s1 := SetTask(s, t, s.tasks[t].(phase := Out));
    if x.holder.Some? {
      var h := s1.tasks[x.holder.value];
      var q := if h.base < HighestWaiting(x.waiting) then HighestWaiting(x.waiting) else h.base;
      hide Accounted, SetPriority, HighestWaiting;
      if h.held == 1 {
        SetPriorityOk(s1, x.holder.value, q);
      }
    }
  }

  lemma WakeFirstOk(s: State, m: Id)
    requires Accounted(s) && m in s.mutexes
    ensures Accounted(WakeFirst(s, m))
  {
    hide Accounted;
    var x := s.mutexes[m];
    if x.waiting != [] {
      var w := x.waiting[0].owner;
      var s1 := SetMutex(s, m, x.(waiting := x.waiting[1..]));
      WaitingOk(s, m, x.(waiting := x.waiting[1..]));
      if w in s1.tasks && s1.tasks[w].phase.Waits? {
        PhaseOk(s1, w, Retries(m, s1.tasks[w].phase.inherited));
      }
    }
  }

  /** One mutex is given back: its holder's count and priority follow. */
  lemma ReleaseOk(s: State, t: TaskId, m: Id)
    requires Releasing(s, t, m)
    ensures Accounted(Release(s, t, m))
  {
    DisinheritOk(s, t, m);
    hide Accounted, Disinherit, Releasing, WakeFirst;
    WakeFirstOk(Freed(Disinherit(s, t), m), m);
  }

  /** The state in which the last call of the holder goes back: but for the count of
      recursive calls everything is in order. */
  ghost predicate Releasing(s: State, t: TaskId, m: Id) {
    && t in s.tasks && m in s.mutexes && s.mutexes[m].holder == Some(t) && s.mutexes[m].count == 0 && s.mutexes[m].calls == 0
    && (forall u | u in s.tasks :: TaskOk(s, u))
    && (forall n | n in s.mutexes && n != m :: MutexOk(s, n))
  }

  lemma DisinheritOk(s: State, t: TaskId, m: Id)
    requires Releasing(s, t, m)
    ensures var s1 := Disinherit(s, t);
            && SameMutexes(s, s1)
            && Accounted(Freed(s1, m))
  {
    hide Retag, ItemValue, HeldBy;
    var s1 := Disinherit(s, t);
    DisinheritTasks(s, t);
    var s2 := Freed(s1, m);
    HeldMore(s2, s, t, m);
    hide Disinherit;
    forall u | u in s2.tasks
      ensures TaskOk(s2, u)
    {
      assert TaskOk(s, u);
    }
    forall n | n in s2.mutexes
      ensures MutexOk(s2, n)
    {
      assert n != m ==> MutexOk(s, n);
    }
  }

  /** What giving a mutex back does to the tasks. */
  lemma DisinheritTasks(s: State, t: TaskId)
    requires t in s.tasks
    ensures var s1, v := Disinherit(s, t), s.tasks[t];
            && SameMutexes(s, s1)
            && s1.tasks == s.tasks[t := v.(held := v.held - 1, priority := if v.held == 1 then v.base else v.priority)]
  {
  }

  lemma GiveOk(s: State, t: TaskId, m: Id)
    requires Accounted(s) && Enabled(s, Gives(t, m))
    ensures Accounted(Give(s, t, m))
  {
    AccountedEach(s);
    assert MutexOk(s, m);
    var x := s.mutexes[m];
    if !x.recursive {
      ReleaseOk(s, t, m);
    } else if x.holder == Some(t) {
      if x.calls - 1 == 0 {
        LastCall(s, t, m);
        ReleaseOk(SetMutex(s, m, x.(calls := 0)), t, m);
      } else {
        CallsOk(s, m, x.calls - 1);
      }
    }
  }

  lemma LastCall(s: State, t: TaskId, m: Id)
    requires Accounted(s) && t in s.tasks && m in s.mutexes && s.mutexes[m].holder == Some(t)
    ensures Releasing(SetMutex(s, m, s.mutexes[m].(calls := 0)), t, m)
  {
    var s' := SetMutex(s, m, s.mutexes[m].(calls := 0));
    AccountedEach(s);
    assert MutexOk(s, m);
    assert forall u :: HeldBy(s', u) == HeldBy(s, u);
    hide HeldBy;
    forall u | u in s'.tasks
      ensures TaskOk(s', u)
    {
      assert TaskOk(s, u);
    }
    forall n | n in s'.mutexes && n != m
      ensures MutexOk(s', n)
    {
      assert MutexOk(s, n);
    }
  }

  lemma PrioritySetOk(s: State, t: TaskId, p: nat)
    requires Accounted(s) && t in s.tasks
    ensures Accounted(PrioritySet(s, t, p)) && SameMutexes(s, PrioritySet(s, t, p))
  {
    hide HeldBy, Retag, ItemValue;
    var s' := PrioritySet(s, t, p);
    AccountedEach(s);
    SameMutexesOk(s, s');
    forall u | u in s'.tasks
      ensures TaskOk(s', u)
    {
      assert TaskOk(s, u);
    }
    forall n | n in s'.mutexes
      ensures MutexOk(s', n)
    {
      assert MutexOk(s, n);
    }
  }

  /** Every step keeps the books: a mutex's count is 0 exactly when it has a holder,
      a task's uxMutexesHeld is the number of mutexes it holds, its priority is never
      below its base, and equal to it when it holds none. */
  lemma StepAccounted(s: State, e: Event)
    requires Accounted(s) && Enabled(s, e)
    ensures Accounted(Step(s, e))
  {
    AccountedEach(s);
    hide Accounted;
    match e
    case Takes(t, m) => TakeOk(s, t, m);
    case Blocks(t, m) =>
      assert MutexOk(s, m);
      BlockOk(s, t, m);
    case TimesOut(t) =>
      assert TaskOk(s, t);
      TimeOutOk(s, t);
    case GivesUp(t) =>
      assert TaskOk(s, t);
      assert MutexOk(s, s.tasks[t].phase.id);
      GiveUpOk(s, t);
    case Gives(t, m) => GiveOk(s, t, m);
    case SetsPriority(t, p) => PrioritySetOk(s, t, p);
  }

  // ---------------------------------------------------------------- runs

  ghost predicate AllowedRun(s: State, es: seq<Event>)
    requires Accounted(s)
    decreases |es|
  {
    es == [] || (Enabled(s, es[0]) && (StepAccounted(s, es[0]); AllowedRun(Step(s, es[0]), es[1..])))
  }

  ghost function Run(s: State, es: seq<Event>): (s': State)
    requires Accounted(s) && AllowedRun(s, es)
    ensures Accounted(s')
    decreases |es|
  {
    if es == [] then s else
      StepAccounted(s, es[0]);
      Run(Step(s, es[0]), es[1..])
  }

  /** Before anything has happened. */
  ghost predicate Start(s: State) {
    && (forall m | m in s.mutexes :: s.mutexes[m] == Mutex(1, None, s.mutexes[m].recursive, 0, [], {}))
    && (forall t | t in s.tasks :: s.tasks[t] == Task(s.tasks[t].base, s.tasks[t].base, 0, Out) && s.tasks[t].base < MAX_PRIORITIES)
  }

  lemma StartAccounted(s: State)
    requires Start(s)
    ensures Accounted(s)
  {
  }

  // ---------------------------------------------------------------- nested takes

  /** How an event changes the number of takes that `t` owes gives for. */
  function Change(e: Event, t: TaskId, m: Id): int {
    if e == Takes(t, m) then 1 else if e == Gives(t, m) then -1 else 0
  }

  function Changes(es: seq<Event>, t: TaskId, m: Id): int {
    if es == [] then 0 else Change(es[0], t, m) + Changes(es[1..], t, m)
  }

  /** While a task holds a recursive mutex, its own takes and gives are the only
      steps that count. */
  lemma NestedStep(s: State, e: Event, t: TaskId, m: Id)
    requires Accounted(s) && Enabled(s, e) && m in s.mutexes && s.mutexes[m].recursive && s.mutexes[m].holder == Some(t)
    ensures m in Step(s, e).mutexes && Step(s, e).mutexes[m].recursive
    ensures var c, x := s.mutexes[m].calls + Change(e, t, m), Step(s, e).mutexes[m];
            && c >= 0 && x.calls == c && x.holder == (if c > 0 then Some(t) else None) && x.count == (if c > 0 then 0 else 1)
  {
    hide Accounted, Block, TimeOut, GiveUp, Give, PrioritySet, Release, Inherit, Disinherit, NotAbove;
    BooksOf(s, m);
    match e
    case Takes(u, n) => TakeHolders(s, u, n, m);
    case Blocks(u, n) =>
      BooksOf(s, n);
      BlockHolders(s, u, n);
    case TimesOut(u) =>
      CallOf(s, u);
      TimeOutHolders(s, u);
    case GivesUp(u) =>
      CallOf(s, u);
      BooksOf(s, s.tasks[u].phase.id);
      GiveUpHolders(s, u);
    case Gives(u, n) => GiveHolders(s, u, n, m);
    case SetsPriority(u, p) => PriorityHolders(s, u, p);
  }

  lemma BooksOf(s: State, m: Id)
    requires Accounted(s) && m in s.mutexes
    ensures var x := s.mutexes[m];
            && x.count <= 1 && (x.count == 0 <==> x.holder.Some?) && (x.holder.Some? ==> x.holder.value in s.tasks)
            && x.calls >= 0 && (if x.recursive then x.holder.Some? <==> x.calls > 0 else x.calls == 0)
  {
    assert MutexOk(s, m);
  }

  lemma CallOf(s: State, t: TaskId)
    requires Accounted(s) && t in s.tasks
    ensures !s.tasks[t].phase.Out? ==> s.tasks[t].phase.id in s.mutexes
  {
    assert TaskOk(s, t);
  }

  lemma TakeHolders(s: State, u: TaskId, n: Id, m: Id)
    requires u in s.tasks && n in s.mutexes && m in s.mutexes && s.mutexes[m].recursive && s.mutexes[m].holder.Some?
    requires s.mutexes[m].count == 0
    ensures m in Take(s, u, n).mutexes
    ensures var x := s.mutexes[m]; Take(s, u, n).mutexes[m] == x.(calls := x.calls + Change(Takes(u, n), x.holder.value, m))
  {
  }

  lemma TimeOutHolders(s: State, t: TaskId)
    requires t in s.tasks && s.tasks[t].phase.Waits? && s.tasks[t].phase.id in s.mutexes
    ensures SameMutexes(s, TimeOut(s, t))
  {
  }

  lemma GiveUpHolders(s: State, t: TaskId)
    requires t in s.tasks && s.tasks[t].phase.Retries? && s.tasks[t].phase.id in s.mutexes
    requires var h := s.mutexes[s.tasks[t].phase.id].holder; h.Some? ==> h.value in s.tasks
    ensures SameMutexes(s, GiveUp(s, t))
  {
  }

  lemma PriorityHolders(s: State, t: TaskId, p: nat)
    requires t in s.tasks
    ensures SameMutexes(s, PrioritySet(s, t, p))
  {
  }

  lemma BlockHolders(s: State, t: TaskId, m: Id)
    requires t in s.tasks && m in s.mutexes && (s.mutexes[m].holder.Some? ==> s.mutexes[m].holder.value in s.tasks)
    ensures SameMutexes(s, Block(s, t, m))
  {
  }

  lemma ReleaseHolders(s: State, t: TaskId, m: Id)
    requires t in s.tasks && m in s.mutexes
    ensures var s' := Release(s, t, m);
            && s'.mutexes.Keys == s.mutexes.Keys && s'.tasks.Keys == s.tasks.Keys
            && s'.mutexes[m].holder == None && s'.mutexes[m].count == s.mutexes[m].count + 1
            && s'.mutexes[m].calls == s.mutexes[m].calls && s'.mutexes[m].recursive == s.mutexes[m].recursive
            && forall n | n in s.mutexes && n != m ::
                 s'.mutexes[n] == s.mutexes[n].(waiting := s'.mutexes[n].waiting, answers := s'.mutexes[n].answers)
  {
    hide Retag, ItemValue;
    DisinheritTasks(s, t);
    hide Disinherit;
  }

  lemma GiveHolders(s: State, u: TaskId, n: Id, m: Id)
    requires Accounted(s) && Enabled(s, Gives(u, n)) && m in s.mutexes && s.mutexes[m].recursive && s.mutexes[m].holder.Some?
    ensures var t := s.mutexes[m].holder.value;
            && m in Give(s, u, n).mutexes
            && var x, c := Give(s, u, n).mutexes[m], s.mutexes[m].calls + Change(Gives(u, n), t, m);
            && x.recursive && x.calls == c && x.holder == (if c > 0 then Some(t) else None) && x.count == (if c > 0 then 0 else 1)
  {
    AccountedEach(s);
    assert MutexOk(s, m);
    hide Accounted, TaskOk, MutexOk, Release;
    var x := s.mutexes[n];
    if n != m {
      GiveElsewhere(s, u, n, m);
    } else if x.holder == Some(u) && x.calls == 1 {
      ReleaseHolders(SetMutex(s, n, x.(calls := 0)), u, n);
    }
  }

  /** Giving one mutex leaves who holds another one, and how often, alone. */
  lemma GiveElsewhere(s: State, u: TaskId, n: Id, m: Id)
    requires u in s.tasks && n in s.mutexes && m in s.mutexes && n != m
    ensures m in Give(s, u, n).mutexes
    ensures var x := Give(s, u, n).mutexes[m]; x == s.mutexes[m].(waiting := x.waiting, answers := x.answers)
  {
    hide Release;
    var x := s.mutexes[n];
    if !x.recursive {
      ReleaseElsewhere(s, u, n, m);
    } else if x.holder == Some(u) {
      ReleaseElsewhere(SetMutex(s, n, x.(calls := x.calls - 1)), u, n, m);
    }
  }

  lemma ReleaseElsewhere(s: State, u: TaskId, n: Id, m: Id)
    requires u in s.tasks && n in s.mutexes && m in s.mutexes && n != m
    ensures m in Release(s, u, n).mutexes
    ensures var x := Release(s, u, n).mutexes[m]; x == s.mutexes[m].(waiting := x.waiting, answers := x.answers)
  {
    hide Release;
    ReleaseHolders(s, u, n);
  }

  /** The takes outweigh the gives in every part of the run. */
  ghost predicate Outweighs(calls: int, es: seq<Event>, t: TaskId, m: Id)
    decreases |es|
  {
    es == [] || (calls + Change(es[0], t, m) > 0 && Outweighs(calls + Change(es[0], t, m), es[1..], t, m))
  }

  /** k nested takes need k gives: whatever others do, the task holds the mutex while
      its takes outweigh its gives, and the event that evens them up frees it. */
  lemma {:induction false} NestedTakes(s: State, es: seq<Event>, e: Event, t: TaskId, m: Id)
    requires Accounted(s) && AllowedRun(s, es) && Enabled(Run(s, es), e)
    requires m in s.mutexes && s.mutexes[m].recursive && s.mutexes[m].holder == Some(t)
    requires Outweighs(s.mutexes[m].calls, es, t, m)
    ensures m in Run(s, es).mutexes && Run(s, es).mutexes[m].holder == Some(t)
    ensures Run(s, es).mutexes[m].calls == s.mutexes[m].calls + Changes(es, t, m)
    ensures m in Step(Run(s, es), e).mutexes
    ensures var owed := s.mutexes[m].calls + Changes(es, t, m) + Change(e, t, m);
            var x := Step(Run(s, es), e).mutexes[m];
            && (x.holder == Some(t) <==> owed > 0) && (owed == 0 ==> x.holder == None && x.count == 1)
    decreases |es|
  {
    hide Accounted, Enabled, Step;
    if es == [] {
      NestedStep(s, e, t, m);
    } else {
      StepAccounted(s, es[0]);
      NestedStep(s, es[0], t, m);
      NestedTakes(Step(s, es[0]), es[1..], e, t, m);
    }
  }

  // ---------------------------------------------------------------- what inheritance guarantees

  /** A waiting list holds, sorted by priority, tasks that wait for this mutex. */
  ghost predicate ListOk(s: State, m: Id)
    requires m in s.mutexes
  {
    var x := s.mutexes[m];
    && Sorted(x.waiting) && Distinct(x.waiting)
    && (forall i | 0 <= i < |x.waiting| :: WaitsFor(s, x.waiting[i], m))
  }

  ghost predicate WaitsFor(s: State, w: Entry<TaskId>, m: Id) {
    && w.owner in s.tasks && s.tasks[w.owner].phase.Waits? && s.tasks[w.owner].phase.id == m
    && w.value == ItemValue(s.tasks[w.owner].priority)
  }

  /** The holder's priority is at least that of everyone it answers for. */
  ghost predicate Lent(s: State, m: Id)
    requires m in s.mutexes
  {
    var x := s.mutexes[m];
    x.holder.Some? && x.holder.value in s.tasks ==>
      forall i | 0 <= i < |x.waiting| && x.waiting[i].owner in x.answers && x.waiting[i].owner in s.tasks ::
        s.tasks[x.waiting[i].owner].priority <= s.tasks[x.holder.value].priority
  }

  /** Nobody is in a call for a mutex while holding one; priorities are in range. */
  ghost predicate CallerOk(s: State, t: TaskId)
    requires t in s.tasks
  {
    (!s.tasks[t].phase.Out? ==> s.tasks[t].held == 0) && s.tasks[t].priority < MAX_PRIORITIES && s.tasks[t].base < MAX_PRIORITIES
  }

  ghost predicate Protected(s: State) {
    && Accounted(s)
    && (forall m | m in s.mutexes :: ListOk(s, m) && Lent(s, m))
    && (forall t | t in s.tasks :: CallerOk(s, t))
  }

  /** The runs the guarantee is about: priorities are not set, and nobody blocks on a
      mutex while holding one. */
  ghost predicate Simple(s: State, e: Event) {
    && !e.SetsPriority? && (e.Blocks? ==> e.t in s.tasks && s.tasks[e.t].held == 0)
  }

  /** A task that is in no call for a mutex is on no list, so that changing its event
      list item changes no list. */
  lemma RetagNothing(s: State, t: TaskId, value: nat)
    requires forall m | m in s.mutexes :: ListOk(s, m)
    requires t in s.tasks ==> s.tasks[t].phase.Out?
    ensures RetagAll(s, t, value) == s
  {
    forall m | m in s.mutexes
      ensures Retag(s.mutexes[m].waiting, t, value) == s.mutexes[m].waiting
    {
      assert ListOk(s, m);
    }
    assert RetagAll(s, t, value).mutexes == s.mutexes;
  }

  lemma ProtectedEach(s: State)
    requires Protected(s)
    ensures forall m | m in s.mutexes :: ListOk(s, m) && Lent(s, m) && MutexOk(s, m)
    ensures forall t | t in s.tasks :: CallerOk(s, t) && TaskOk(s, t)
  {
  }

  /** Setting the priority of a task that holds mutexes: the lists stay, and it must
      stay above what it has been lent. */
  lemma HolderPriority(s: State, h: TaskId, p: nat)
    requires Protected(s) && h in s.tasks && s.tasks[h].held > 0
    ensures SetPriority(s, h, p) == SetTask(s, h, s.tasks[h].(priority := p))
    ensures forall m | m in s.mutexes :: ListOk(SetTask(s, h, s.tasks[h].(priority := p)), m)
  {
    ProtectedEach(s);
    assert CallerOk(s, h);
    var s' := SetTask(s, h, s.tasks[h].(priority := p));
    hide ItemValue, Retag, Accounted;
    forall m | m in s'.mutexes
      ensures ListOk(s', m)
    {
      assert ListOk(s, m);
    }
    RetagNothing(s', h, ItemValue(p));
  }

  /** Raising a holder's priority, and lowering it to no less than the head of the one
      list it answers for, keep what was lent. */
  lemma RepriorityLent(s: State, h: TaskId, p: nat)
    requires Protected(s) && h in s.tasks && s.tasks[h].held > 0 && s.tasks[h].base <= p < MAX_PRIORITIES
    requires p >= s.tasks[h].priority
             || forall m, i | m in s.mutexes && s.mutexes[m].holder == Some(h) && 0 <= i < |s.mutexes[m].waiting| ::
                  s.mutexes[m].waiting[i].owner in s.tasks && s.tasks[s.mutexes[m].waiting[i].owner].priority <= p
    ensures Protected(SetPriority(s, h, p))
  {
    HolderPriority(s, h, p);
    SetPriorityOk(s, h, p);
    ProtectedEach(s);
    assert CallerOk(s, h);
    var s' := SetTask(s, h, s.tasks[h].(priority := p));
    hide SetPriority, Accounted, ItemValue, Retag, Sorted, Distinct;
    forall m | m in s'.mutexes
      ensures Lent(s', m)
    {
      assert Lent(s, m) && ListOk(s, m);
      var x := s.mutexes[m];
      forall i | 0 <= i < |x.waiting|
        ensures s'.tasks[x.waiting[i].owner] == s.tasks[x.waiting[i].owner]
      {
        assert WaitsFor(s, x.waiting[i], m);
      }
    }
    forall u | u in s'.tasks
      ensures CallerOk(s', u)
    {
      assert CallerOk(s, u);
    }
  }

  /** Lending: the holder ends up no lower than the caller. */
  lemma InheritProtected(s: State, m: Id, p: nat)
    requires Protected(s) && m in s.mutexes && s.mutexes[m].holder.Some? && p < MAX_PRIORITIES
    ensures s.mutexes[m].holder.value in s.tasks
    ensures var h := s.mutexes[m].holder.value;
            var s' := Inherit(s, s.mutexes[m].holder, p).0;
            && Protected(s') && s'.mutexes == s.mutexes && s'.tasks.Keys == s.tasks.Keys
            && s'.tasks[h].priority >= p
            && forall u | u in s.tasks && u != h :: s'.tasks[u] == s.tasks[u]
  {
    ProtectedEach(s);
    HolderHolds(s, m);
    var h := s.mutexes[m].holder.value;
    assert TaskOk(s, h);
    hide Protected, SetPriority;
    if s.tasks[h].priority < p {
      HolderPriority(s, h, p);
      RepriorityLent(s, h, p);
    }
  }

  lemma BlockProtected(s: State, t: TaskId, m: Id)
    requires Protected(s) && Enabled(s, Blocks(t, m)) && s.tasks[t].held == 0
    ensures s.mutexes[m].holder.Some? ==> s.mutexes[m].holder.value in s.tasks
    ensures Protected(Block(s, t, m))
  {
    ProtectedEach(s);
    assert MutexOk(s, m) && CallerOk(s, t) && TaskOk(s, t);
    if s.mutexes[m].count == 0 {
      var p := s.tasks[t].priority;
      hide Protected, Inherit, Insert, HeldBy, ItemValue;
      HolderHolds2(s, m);
      InheritProtected(s, m, p);
      var (s1, inherited) := Inherit(s, s.mutexes[m].holder, p);
      PlaceProtected(s1, t, m, inherited);
    }
  }

  lemma HolderHolds2(s: State, m: Id)
    requires Protected(s) && m in s.mutexes && s.mutexes[m].holder.Some?
    ensures s.mutexes[m].holder.value in s.tasks && s.tasks[s.mutexes[m].holder.value].held > 0
  {
    HolderHolds(s, m);
  }

  /** The caller joins the list of the mutex, its holder being no lower. */
  lemma PlaceProtected(s: State, t: TaskId, m: Id, inherited: bool)
    requires Protected(s) && t in s.tasks && !s.tasks[t].phase.Waits? && s.tasks[t].held == 0
    requires m in s.mutexes && s.mutexes[m].holder.Some? && s.mutexes[m].holder.value in s.tasks
    requires s.tasks[s.mutexes[m].holder.value].priority >= s.tasks[t].priority
    ensures var x := s.mutexes[m];
            Protected(SetMutex(SetTask(s, t, s.tasks[t].(phase := Waits(m, inherited))), m,
              x.(waiting := Insert(x.waiting, Entry(t, ItemValue(s.tasks[t].priority))), answers := x.answers + {t})))
  {
    ProtectedEach(s);
    var x, e := s.mutexes[m], Entry(t, ItemValue(s.tasks[t].priority));
    var s1 := SetTask(s, t, s.tasks[t].(phase := Waits(m, inherited)));
    var s2 := SetMutex(s1, m, x.(waiting := Insert(x.waiting, e), answers := x.answers + {t}));
    PhaseOk(s, t, Waits(m, inherited));
    WaitingOk(s1, m, s2.mutexes[m]);
    hide Accounted, ItemValue, InsertPos;
    forall u | u in s2.tasks
      ensures CallerOk(s2, u)
    {
      assert CallerOk(s, u);
    }
    forall n | n in s2.mutexes
      ensures ListOk(s2, n) && Lent(s2, n)
    {
      assert ListOk(s, n) && Lent(s, n);
      if n == m {
        InsertSorts(x.waiting, e);
        PlacedList(s, s2, t, m, InsertPos(x.waiting, e.value));
      } else {
        SameList(s, s2, t, n);
      }
    }
  }

  /** A list that `t` is not on does not notice what happens to `t` and to the others'
      mutexes. */
  lemma SameList(s: State, s': State, t: TaskId, n: Id)
    requires n in s.mutexes && ListOk(s, n) && Lent(s, n) && n in s'.mutexes && s'.mutexes[n] == s.mutexes[n]
    requires s'.tasks.Keys == s.tasks.Keys && forall u | u in s.tasks && u != t :: s'.tasks[u] == s.tasks[u]
    requires t in s.tasks && s'.tasks[t].priority >= s.tasks[t].priority
    requires !(s.tasks[t].phase.Waits? && s.tasks[t].phase.id == n)
    ensures ListOk(s', n) && Lent(s', n)
  {
  }

  lemma PlacedList(s: State, s': State, t: TaskId, m: Id, p: nat)
    requires m in s.mutexes && ListOk(s, m) && Lent(s, m) && m in s'.mutexes && t in s.tasks && !s.tasks[t].phase.Waits?
    requires s'.tasks.Keys == s.tasks.Keys && forall u | u in s.tasks && u != t :: s'.tasks[u] == s.tasks[u]
    requires s'.tasks[t].phase.Waits? && s'.tasks[t].phase.id == m && s'.tasks[t].priority == s.tasks[t].priority
    requires p <= |s.mutexes[m].waiting|
    requires var x, x' := s.mutexes[m], s'.mutexes[m];
             && x'.waiting == x.waiting[..p] + [Entry(t, ItemValue(s.tasks[t].priority))] + x.waiting[p..] && Sorted(x'.waiting)
             && x'.holder == x.holder && x.holder.Some? && x.holder.value in s.tasks && x'.answers == x.answers + {t}
             && s.tasks[x.holder.value].priority >= s.tasks[t].priority
    ensures ListOk(s', m) && Lent(s', m)
  {
  }

  ghost predicate Lists(s: State) {
    && (forall m | m in s.mutexes :: ListOk(s, m) && Lent(s, m))
    && (forall t | t in s.tasks :: CallerOk(s, t))
  }

  lemma TakeProtected(s: State, t: TaskId, m: Id)
    requires Protected(s) && Enabled(s, Takes(t, m))
    ensures Lists(Take(s, t, m))
  {
    ProtectedEach(s);
    var s' := Take(s, t, m);
    hide Accounted, ItemValue, Sorted, Distinct, MutexOk, TaskOk;
    forall u | u in s'.tasks
      ensures CallerOk(s', u)
    {
      assert CallerOk(s, u);
    }
    forall n | n in s'.mutexes
      ensures ListOk(s', n) && Lent(s', n)
    {
      assert ListOk(s, n) && Lent(s, n);
      if n == m {
        SameWaiting(s, s', t, m);
      } else {
        SameList(s, s', t, n);
      }
    }
  }

  lemma SameWaiting(s: State, s': State, t: TaskId, n: Id)
    requires n in s.mutexes && ListOk(s, n) && n in s'.mutexes && s'.mutexes[n].waiting == s.mutexes[n].waiting
    requires s'.tasks.Keys == s.tasks.Keys && forall u | u in s.tasks && u != t :: s'.tasks[u] == s.tasks[u]
    requires t in s.tasks && !(s.tasks[t].phase.Waits? && s.tasks[t].phase.id == n)
    ensures ListOk(s', n)
  {
  }

  lemma TimeOutProtected(s: State, t: TaskId)
    requires Protected(s) && Enabled(s, TimesOut(t)) && s.tasks[t].phase.id in s.mutexes
    ensures Lists(TimeOut(s, t))
  {
    ProtectedEach(s);
    var s', m := TimeOut(s, t), s.tasks[t].phase.id;
    hide Accounted, ItemValue, Sorted, MutexOk, TaskOk, Without;
    forall u | u in s'.tasks
      ensures CallerOk(s', u)
    {
      assert CallerOk(s, u);
    }
    forall n | n in s'.mutexes
      ensures ListOk(s', n) && Lent(s', n)
    {
      assert ListOk(s, n) && Lent(s, n);
      if n == m {
        WithoutKeeps(s.mutexes[m].waiting, t);
        ShorterList(s, s', t, m);
      } else {
        SameList(s, s', t, n);
      }
    }
  }

  /** Part of a list: whoever is still on it was there before. */
  lemma ShorterList(s: State, s': State, t: TaskId, m: Id)
    requires m in s.mutexes && ListOk(s, m) && Lent(s, m) && m in s'.mutexes && t in s.tasks
    requires s'.tasks.Keys == s.tasks.Keys && forall u | u in s.tasks && u != t :: s'.tasks[u] == s.tasks[u]
    requires s'.tasks[t].priority >= s.tasks[t].priority
    requires var x, x' := s.mutexes[m], s'.mutexes[m];
             && Sorted(x'.waiting) && Distinct(x'.waiting) && x'.answers == x.answers && (x'.holder == x.holder || x'.holder == None)
             && forall i | 0 <= i < |x'.waiting| :: x'.waiting[i] in x.waiting && x'.waiting[i].owner != t
    ensures ListOk(s', m) && Lent(s', m)
  {
  }

  lemma GiveUpProtected(s: State, t: TaskId)
    requires Protected(s) && Enabled(s, GivesUp(t)) && s.tasks[t].phase.id in s.mutexes
    requires var h := s.mutexes[s.tasks[t].phase.id].holder; h.Some? ==> h.value in s.tasks
    ensures Protected(GiveUp(s, t))
  {
    ProtectedEach(s);
    var m := s.tasks[t].phase.id;
    var s1 := SetTask(s, t, s.tasks[t].(phase := Out));
    OutProtected(s, t);
    var x := s.mutexes[m];
    hide Protected, SetPriority, HighestWaiting;
    if s.tasks[t].phase.inherited && x.holder.Some? && s1.tasks[x.holder.value].held == 1 {
      var h := x.holder.value;
      var q := if s1.tasks[h].base < HighestWaiting(x.waiting) then HighestWaiting(x.waiting) else s1.tasks[h].base;
      OnlyThis(s1, m, h, q);
      RepriorityLent(s1, h, q);
    }
  }

  lemma OutProtected(s: State, t: TaskId)
    requires Protected(s) && t in s.tasks && s.tasks[t].phase.Retries?
    ensures Protected(SetTask(s, t, s.tasks[t].(phase := Out)))
  {
    ProtectedEach(s);
    var s' := SetTask(s, t, s.tasks[t].(phase := Out));
    PhaseOk(s, t, Out);
    hide Accounted, ItemValue, Sorted, MutexOk, TaskOk;
    forall u | u in s'.tasks
      ensures CallerOk(s', u)
    {
      assert CallerOk(s, u);
    }
    forall n | n in s'.mutexes
      ensures ListOk(s', n) && Lent(s', n)
    {
      SameList(s, s', t, n);
    }
  }

  /** A task that holds one mutex answers for one list, and its head is the highest on it. */
  lemma OnlyThis(s: State, m: Id, h: TaskId, q: nat)
    requires Protected(s) && m in s.mutexes && s.mutexes[m].holder == Some(h) && h in s.tasks && s.tasks[h].held == 1
    requires q >= HighestWaiting(s.mutexes[m].waiting)
    requires q == HighestWaiting(s.mutexes[m].waiting) || q == s.tasks[h].base
    ensures q < MAX_PRIORITIES
    ensures forall n, i | n in s.mutexes && s.mutexes[n].holder == Some(h) && 0 <= i < |s.mutexes[n].waiting| ::
              s.mutexes[n].waiting[i].owner in s.tasks && s.tasks[s.mutexes[n].waiting[i].owner].priority <= q
  {
    ProtectedEach(s);
    assert TaskOk(s, h) && ListOk(s, m) && CallerOk(s, h);
    OneElement(HeldBy(s, h), m);
    forall n | n in s.mutexes && s.mutexes[n].holder == Some(h)
      ensures n == m
    {
      assert n in HeldBy(s, h);
    }
    var ws := s.mutexes[m].waiting;
    hide HeldBy, Accounted;
    forall i | 0 <= i < |ws|
      ensures ws[i].owner in s.tasks && s.tasks[ws[i].owner].priority <= q && ws[0].value > 0
    {
      assert WaitsFor(s, ws[i], m) && WaitsFor(s, ws[0], m);
      assert ws[0].value <= ws[i].value;
      assert CallerOk(s, ws[i].owner) && CallerOk(s, ws[0].owner);
    }
  }

  lemma OneElement(a: set<Id>, m: Id)
    requires |a| == 1 && m in a
    ensures a == {m}
  {
    var rest := a - {m};
    assert a == rest + {m} && |rest| == 0;
  }

  /** Giving a mutex back: the holder may sink to its base when it holds nothing
      more, and then it answers for no list. */
  lemma ReleaseProtected(s: State, t: TaskId, m: Id)
    requires Releasing(s, t, m) && Lists(s) && s.tasks[t].phase.Out?
    ensures Lists(Release(s, t, m))
  {
    DisinheritLists(s, t, m);
    hide Disinherit, ItemValue, Releasing;
    var s1 := Freed(Disinherit(s, t), m);
    WakeFirstLists(s1, m);
  }

  lemma DisinheritLists(s: State, t: TaskId, m: Id)
    requires Releasing(s, t, m) && Lists(s) && s.tasks[t].phase.Out?
    ensures m in Disinherit(s, t).mutexes
    ensures Lists(Freed(Disinherit(s, t), m)) && Freed(Disinherit(s, t), m).mutexes[m].holder == None
  {
    var s1 := Disinherit(s, t);
    DisinheritTasks(s, t);
    DisinheritMutexes(s, t);
    var s2 := Freed(s1, m);
    assert TaskOk(s, t);
    hide Disinherit, ItemValue, Sorted, Distinct;
    forall u | u in s2.tasks
      ensures CallerOk(s2, u)
    {
      assert CallerOk(s, u);
    }
    forall n | n in s2.mutexes
      ensures ListOk(s2, n) && Lent(s2, n)
    {
      assert ListOk(s, n) && Lent(s, n);
      SameWaiting(s, s2, t, n);
      if n != m {
        ReleasedLent(s, s2, t, m, n);
      }
    }
  }

  lemma DisinheritMutexes(s: State, t: TaskId)
    requires t in s.tasks && s.tasks[t].phase.Out? && forall m | m in s.mutexes :: ListOk(s, m)
    ensures Disinherit(s, t).mutexes == s.mutexes
  {
    var v := s.tasks[t].(held := s.tasks[t].held - 1);
    var s1 := SetTask(s, t, v);
    var s2 := SetTask(s1, t, v.(priority := v.base));
    forall m | m in s.mutexes
      ensures ListOk(s2, m)
    {
      assert ListOk(s, m);
      SameWaiting(s, s2, t, m);
    }
    hide ListOk;
    RetagNothing(s2, t, ItemValue(v.base));
  }

  lemma ReleasedLent(s: State, s2: State, t: TaskId, m: Id, n: Id)
    requires Releasing(s, t, m) && n in s.mutexes && n != m && ListOk(s, n) && Lent(s, n) && s.tasks[t].phase.Out?
    requires n in s2.mutexes && s2.mutexes[n] == s.mutexes[n]
    requires var v := s.tasks[t];
             s2.tasks == s.tasks[t := v.(held := v.held - 1, priority := if v.held == 1 then v.base else v.priority)]
    ensures Lent(s2, n)
  {
    var x := s.mutexes[n];
    assert TaskOk(s, t);
    if x.holder == Some(t) {
      assert {m, n} <= HeldBy(s, t);
      SubsetCount({m, n}, HeldBy(s, t));
    }
    hide HeldBy;
    forall i | 0 <= i < |x.waiting|
      ensures s2.tasks[x.waiting[i].owner] == s.tasks[x.waiting[i].owner]
    {
      assert WaitsFor(s, x.waiting[i], n);
    }
  }

  lemma WakeFirstLists(s: State, m: Id)
    requires Lists(s) && m in s.mutexes && s.mutexes[m].holder == None
    ensures Lists(WakeFirst(s, m))
  {
  }

  lemma GiveProtected(s: State, t: TaskId, m: Id)
    requires Protected(s) && Enabled(s, Gives(t, m))
    ensures Lists(Give(s, t, m))
  {
    hide Release, Protected;
    ProtectedLists(s);
    var x := s.mutexes[m];
    if !x.recursive {
      PlainGive(s, t, m);
    } else if x.holder == Some(t) {
      CallsLists(s, m, x.calls - 1);
      if x.calls - 1 == 0 {
        LastGive(s, t, m);
      }
    }
  }

  lemma PlainGive(s: State, t: TaskId, m: Id)
    requires Protected(s) && t in s.tasks && s.tasks[t].phase.Out?
    requires m in s.mutexes && !s.mutexes[m].recursive && s.mutexes[m].holder == Some(t)
    ensures Lists(Release(s, t, m))
  {
    ProtectedLists(s);
    PlainReleasing(s, t, m);
    hide Lists, Releasing, Release;
    ReleaseProtected(s, t, m);
  }

  lemma LastGive(s: State, t: TaskId, m: Id)
    requires Protected(s) && t in s.tasks && s.tasks[t].phase.Out?
    requires m in s.mutexes && s.mutexes[m].holder == Some(t)
    ensures Lists(Release(SetMutex(s, m, s.mutexes[m].(calls := 0)), t, m))
  {
    ProtectedLists(s);
    CallsLists(s, m, 0);
    LastCall(s, t, m);
    hide Lists, Releasing, Release;
    ReleaseProtected(SetMutex(s, m, s.mutexes[m].(calls := 0)), t, m);
  }

  lemma ProtectedLists(s: State)
    requires Protected(s)
    ensures Lists(s) && Accounted(s)
  {
  }

  lemma PlainReleasing(s: State, t: TaskId, m: Id)
    requires Accounted(s) && t in s.tasks && m in s.mutexes && !s.mutexes[m].recursive && s.mutexes[m].holder == Some(t)
    ensures Releasing(s, t, m)
  {
  }

  lemma CallsLists(s: State, m: Id, calls: int)
    requires Lists(s) && m in s.mutexes
    ensures Lists(SetMutex(s, m, s.mutexes[m].(calls := calls)))
  {
  }

  /** Every step of such a run keeps what has been lent. */
  lemma StepProtected(s: State, e: Event)
    requires Protected(s) && Enabled(s, e) && Simple(s, e)
    ensures Protected(Step(s, e))
  {
    ProtectedEach(s);
    StepAccounted(s, e);
    hide Accounted, Take, Block, TimeOut, GiveUp, Give;
    match e
    case Takes(t, m) => TakeProtected(s, t, m);
    case Blocks(t, m) => BlockProtected(s, t, m);
    case TimesOut(t) =>
      assert TaskOk(s, t);
      TimeOutProtected(s, t);
    case GivesUp(t) =>
      assert TaskOk(s, t);
      assert MutexOk(s, s.tasks[t].phase.id);
      GiveUpProtected(s, t);
    case Gives(t, m) => GiveProtected(s, t, m);
  }

  ghost predicate SimpleRun(s: State, es: seq<Event>)
    requires Accounted(s) && AllowedRun(s, es)
    decreases |es|
  {
    es == [] || (Simple(s, es[0]) && (StepAccounted(s, es[0]); SimpleRun(Step(s, es[0]), es[1..])))
  }

  lemma {:induction false} RunProtected(s: State, es: seq<Event>)
    requires Protected(s) && AllowedRun(s, es) && SimpleRun(s, es)
    ensures Protected(Run(s, es))
    decreases |es|
  {
    ProtectedAccounted(s);
    hide Protected, Accounted, Enabled, Step, Simple;
    if es != [] {
      StepAccounted(s, es[0]);
      StepProtected(s, es[0]);
      RunProtected(Step(s, es[0]), es[1..]);
    }
  }

  lemma ProtectedAccounted(s: State)
    requires Protected(s)
    ensures Accounted(s)
  {
  }

  /** The guarantee: over every such run, through time-outs and with several mutexes
      held, a mutex's holder has at least the priority of every waiting task that
      blocked on the mutex since the holder took it, and of every one that was already
      waiting then without being more urgent. */
  lemma HolderIsNoLower(s: State, es: seq<Event>, m: Id, t: TaskId)
    requires Start(s) && Accounted(s) && AllowedRun(s, es) && SimpleRun(s, es)
    ensures var s' := Run(s, es);
            (m in s'.mutexes && s'.mutexes[m].holder.Some? && t in s'.mutexes[m].answers && t in s'.tasks
             && exists i :: 0 <= i < |s'.mutexes[m].waiting| && s'.mutexes[m].waiting[i].owner == t)
            ==> (s'.mutexes[m].holder.value in s'.tasks
                 && s'.tasks[t].priority <= s'.tasks[s'.mutexes[m].holder.value].priority)
  {
    StartProtected(s);
    RunProtected(s, es);
    var s' := Run(s, es);
    ProtectedEach(s');
    hide Run, AllowedRun, SimpleRun, Accounted, Protected;
    if m in s'.mutexes {
      assert Lent(s', m) && MutexOk(s', m);
    }
  }

  lemma StartProtected(s: State)
    requires Start(s)
    ensures Protected(s)
  {
  }

  // ---------------------------------------------------------------- a whole tenure

  /** No waiting task is more urgent than the mutex's holder. */
  ghost predicate Covers(s: State, m: Id) {
    m in s.mutexes && s.mutexes[m].holder.Some? && s.mutexes[m].holder.value in s.tasks
    && forall i | 0 <= i < |s.mutexes[m].waiting| ::
         && s.mutexes[m].waiting[i].owner in s.tasks
         && s.tasks[s.mutexes[m].waiting[i].owner].priority <= s.tasks[s.mutexes[m].holder.value].priority
  }

  /** The holder answers for everyone who waits. */
  ghost predicate AllAnswered(s: State, m: Id) {
    m in s.mutexes && forall i | 0 <= i < |s.mutexes[m].waiting| :: s.mutexes[m].waiting[i].owner in s.mutexes[m].answers
  }

  ghost predicate Holds(s: State, t: TaskId, m: Id) {
    m in s.mutexes && s.mutexes[m].holder == Some(t)
  }

  /** A free mutex is taken by `t`: nobody waiting for it is above `t` just if the
      first one is not, which can be seen before. */
  lemma TakerIsNoLower(s: State, t: TaskId, m: Id)
    requires Protected(s) && Enabled(s, Takes(t, m)) && s.mutexes[m].count > 0
    ensures var ws := s.mutexes[m].waiting;
            && (ws != [] ==> ws[0].owner in s.tasks)
            && Holds(Take(s, t, m), t, m)
            && (Covers(Take(s, t, m), m) <==> ws == [] || s.tasks[ws[0].owner].priority <= s.tasks[t].priority)
            && (Covers(Take(s, t, m), m) ==> AllAnswered(Take(s, t, m), m))
  {
    ProtectedEach(s);
    var x := s.mutexes[m];
    assert MutexOk(s, m) && ListOk(s, m);
    forall i | 0 <= i < |x.waiting|
      ensures x.waiting[i].owner in s.tasks
      ensures s.tasks[x.waiting[i].owner].priority <= s.tasks[x.waiting[0].owner].priority
    {
      assert WaitsFor(s, x.waiting[i], m) && WaitsFor(s, x.waiting[0], m);
      assert CallerOk(s, x.waiting[i].owner) && CallerOk(s, x.waiting[0].owner);
    }
    hide Accounted, ListOk, MutexOk, TaskOk, Protected;
  }

  lemma AnsweredCovers(s: State, t: TaskId, m: Id)
    requires Protected(s) && Holds(s, t, m) && AllAnswered(s, m)
    ensures Covers(s, m)
  {
    assert MutexOk(s, m) && ListOk(s, m) && Lent(s, m);
  }

  /** The same tasks wait in the same places, and are answered for. */
  ghost predicate SameWaiters(s: State, s': State) {
    && s'.mutexes.Keys == s.mutexes.Keys && s'.tasks.Keys == s.tasks.Keys
    && forall m | m in s.mutexes ::
         && |s'.mutexes[m].waiting| == |s.mutexes[m].waiting| && s'.mutexes[m].answers == s.mutexes[m].answers
         && (forall i | 0 <= i < |s.mutexes[m].waiting| :: s'.mutexes[m].waiting[i].owner == s.mutexes[m].waiting[i].owner)
  }

  lemma InheritWaiters(s: State, holder: Option<TaskId>, p: nat)
    requires holder.Some? ==> holder.value in s.tasks
    ensures SameWaiters(s, Inherit(s, holder, p).0)
  {
  }

  lemma DisinheritWaiters(s: State, t: TaskId)
    requires t in s.tasks
    ensures SameWaiters(s, Disinherit(s, t))
  {
  }

  lemma TimeoutWaiters(s: State, holder: Option<TaskId>, highest: nat)
    requires holder.Some? ==> holder.value in s.tasks
    ensures SameWaiters(s, DisinheritAfterTimeout(s, holder, highest))
  {
  }

  /** Whoever blocks is answered for, and the rest of a step only takes tasks off the list. */
  lemma StepAnswered(s: State, e: Event, t: TaskId, m: Id)
    requires Accounted(s) && Enabled(s, e) && Simple(s, e) && Holds(s, t, m) && AllAnswered(s, m) && Holds(Step(s, e), t, m)
    ensures AllAnswered(Step(s, e), m)
  {
    AccountedEach(s);
    assert MutexOk(s, m);
    match e
    case Takes(u, n) =>
    case Blocks(u, n) =>
      assert MutexOk(s, n);
      BlockAnswered(s, u, n, m);
    case TimesOut(u) =>
      assert TaskOk(s, u);
      WithoutKeeps(s.mutexes[s.tasks[u].phase.id].waiting, u);
      TimeOutAnswered(s, u, m);
    case GivesUp(u) =>
      assert TaskOk(s, u) && MutexOk(s, s.tasks[u].phase.id);
      GiveUpAnswered(s, u, m);
    case Gives(u, n) =>
      GiveAnswered(s, u, n, m);
  }

  lemma BlockAnswered(s: State, u: TaskId, n: Id, m: Id)
    requires u in s.tasks && n in s.mutexes && (s.mutexes[n].holder.Some? ==> s.mutexes[n].holder.value in s.tasks)
    requires AllAnswered(s, m)
    ensures AllAnswered(Block(s, u, n), m)
  {
    InheritWaiters(s, s.mutexes[n].holder, s.tasks[u].priority);
    hide Inherit, ItemValue;
    var s1 := Inherit(s, s.mutexes[n].holder, s.tasks[u].priority).0;
    InsertMembers(s1.mutexes[n].waiting, Entry(u, ItemValue(s.tasks[u].priority)));
  }

  lemma InsertMembers(ws: seq<Entry<TaskId>>, e: Entry<TaskId>)
    ensures forall i | 0 <= i < |Insert(ws, e)| :: Insert(ws, e)[i] == e || Insert(ws, e)[i] in ws
  {
  }

  lemma TimeOutAnswered(s: State, u: TaskId, m: Id)
    requires u in s.tasks && s.tasks[u].phase.Waits? && s.tasks[u].phase.id in s.mutexes && AllAnswered(s, m)
    ensures AllAnswered(TimeOut(s, u), m)
  {
    WithoutKeeps(s.mutexes[s.tasks[u].phase.id].waiting, u);
    hide Without;
  }

  lemma GiveUpAnswered(s: State, u: TaskId, m: Id)
    requires u in s.tasks && s.tasks[u].phase.Retries? && s.tasks[u].phase.id in s.mutexes && AllAnswered(s, m)
    requires var h := s.mutexes[s.tasks[u].phase.id].holder; h.Some? ==> h.value in s.tasks
    ensures AllAnswered(GiveUp(s, u), m)
  {
    var x := s.mutexes[s.tasks[u].phase.id];
    TimeoutWaiters(SetTask(s, u, s.tasks[u].(phase := Out)), x.holder, HighestWaiting(x.waiting));
    hide DisinheritAfterTimeout, HighestWaiting;
  }

  lemma GiveAnswered(s: State, u: TaskId, n: Id, m: Id)
    requires u in s.tasks && n in s.mutexes && AllAnswered(s, m)
    ensures AllAnswered(Give(s, u, n), m)
  {
    var x := s.mutexes[n];
    ReleaseAnswered(s, u, n, m);
    if x.recursive {
      ReleaseAnswered(SetMutex(s, n, x.(calls := x.calls - 1)), u, n, m);
    }
    hide Release;
  }

  lemma ReleaseAnswered(s: State, u: TaskId, n: Id, m: Id)
    requires u in s.tasks && n in s.mutexes && AllAnswered(s, m)
    ensures AllAnswered(Release(s, u, n), m)
  {
    DisinheritWaiters(s, u);
    hide Disinherit;
  }

  /** Throughout a run `t` keeps the mutex, and nobody waiting is ever above it. */
  ghost predicate KeepsHolding(s: State, es: seq<Event>, t: TaskId, m: Id)
    requires Accounted(s) && AllowedRun(s, es)
    decreases |es|
  {
    Holds(s, t, m) && (es == [] || (StepAccounted(s, es[0]); KeepsHolding(Step(s, es[0]), es[1..], t, m)))
  }

  ghost predicate AlwaysCovers(s: State, es: seq<Event>, m: Id)
    requires Accounted(s) && AllowedRun(s, es)
    decreases |es|
  {
    Covers(s, m) && (es == [] || (StepAccounted(s, es[0]); AlwaysCovers(Step(s, es[0]), es[1..], m)))
  }

  lemma {:induction false} TenureCovers(s: State, es: seq<Event>, t: TaskId, m: Id)
    requires Protected(s) && AllowedRun(s, es) && SimpleRun(s, es) && KeepsHolding(s, es, t, m) && AllAnswered(s, m)
    ensures AlwaysCovers(s, es, m)
    decreases |es|
  {
    ProtectedAccounted(s);
    hide Protected, Accounted, Enabled, Step, Simple, AllAnswered, Covers;
    AnsweredCovers(s, t, m);
    if es != [] {
      StepAccounted(s, es[0]);
      StepProtected(s, es[0]);
      assert Holds(Step(s, es[0]), t, m);
      StepAnswered(s, es[0], t, m);
      TenureCovers(Step(s, es[0]), es[1..], t, m);
    }
  }

  /** The exact guarantee over a whole tenure: from the take of a free mutex on, as
      long as `t` keeps it, no waiting task is ever more urgent than `t` if and only
      if the first of those waiting at the take was not. */
  lemma NeverBelowWaiters(s: State, t: TaskId, m: Id, es: seq<Event>)
    requires Protected(s) && Enabled(s, Takes(t, m)) && s.mutexes[m].count > 0
    requires Accounted(Take(s, t, m)) && AllowedRun(Take(s, t, m), es) && SimpleRun(Take(s, t, m), es)
    requires KeepsHolding(Take(s, t, m), es, t, m)
    ensures var ws := s.mutexes[m].waiting;
            && (ws != [] ==> ws[0].owner in s.tasks)
            && (AlwaysCovers(Take(s, t, m), es, m) <==> ws == [] || s.tasks[ws[0].owner].priority <= s.tasks[t].priority)
  {
    TakerIsNoLower(s, t, m);
    StepProtected(s, Takes(t, m));
    var s1 := Take(s, t, m);
    hide Protected, Accounted, Enabled, Take, AllAnswered, Covers;
    if Covers(s1, m) {
      TenureCovers(s1, es, t, m);
    }
  }

  // ---------------------------------------------------------------- setting a priority

  /** vTaskPrioritySet makes the priority the task's own at once; what it has inherited
      it keeps unless the new priority is higher, and whatever it gives back brings it
      to the new one. */
  lemma PrioritySetExactly(s: State, t: TaskId, p: nat)
    requires Accounted(s) && t in s.tasks
    ensures var s', v := PrioritySet(s, t, p), s.tasks[t];
            && SameWaiters(s, s') && SameMutexes(s, s')
            && s'.tasks[t].base == p && s'.tasks[t].held == v.held && s'.tasks[t].phase == v.phase
            && s'.tasks[t].priority == (if v.priority > v.base && v.priority > p then v.priority else p)
            && (forall u | u in s.tasks && u != t :: s'.tasks[u] == s.tasks[u])
            && (v.held == 1 ==> Disinherit(s', t).tasks[t].priority == p)
            && (v.base != p ==> forall m, i | m in s.mutexes && 0 <= i < |s.mutexes[m].waiting| && s.mutexes[m].waiting[i].owner == t ::
                                  s'.mutexes[m].waiting[i].value == ItemValue(p))
  {
    assert TaskOk(s, t);
    DisinheritTasks(PrioritySet(s, t, p), t);
    hide Disinherit, Accounted, ItemValue;
  }

  // ---------------------------------------------------------------- the calls, exactly

  /** A task that blocks lends the holder its priority, waits in the order of priorities
      behind its equals, and remembers having lent if the holder's own is lower. */
  lemma BlocksExactly(s: State, t: TaskId, m: Id)
    requires Protected(s) && Enabled(s, Blocks(t, m)) && s.mutexes[m].holder.Some? && s.mutexes[m].holder != Some(t)
    requires s.tasks[t].held == 0
    ensures var s', h := Step(s, Blocks(t, m)), s.mutexes[m].holder.value;
            && h in s.tasks && SameMutexes(s, s')
            && s'.tasks[h] == s.tasks[h].(priority := if s.tasks[h].priority < s.tasks[t].priority then s.tasks[t].priority else s.tasks[h].priority)
            && s'.tasks[t] == s.tasks[t].(phase := Waits(m, s.tasks[h].base < s.tasks[t].priority))
            && (forall u | u in s.tasks && u != h && u != t :: s'.tasks[u] == s.tasks[u])
            && s'.mutexes[m].waiting == Insert(s.mutexes[m].waiting, Entry(t, ItemValue(s.tasks[t].priority)))
  {
    ProtectedEach(s);
    BooksOf(s, m);
    HolderHolds2(s, m);
    var h := s.mutexes[m].holder.value;
    assert TaskOk(s, h) && ListOk(s, m);
    HolderPriority(s, h, s.tasks[t].priority);
    BlockHolders(s, t, m);
    hide Protected, Accounted, ItemValue, Insert, ListOk, SetPriority, Lent;
  }

  /** A time-out takes the task off its list, and it still remembers having lent. */
  lemma TimesOutExactly(s: State, t: TaskId)
    requires Accounted(s) && Enabled(s, TimesOut(t))
    ensures var s', p := Step(s, TimesOut(t)), s.tasks[t].phase;
            && p.id in s.mutexes && s'.mutexes.Keys == s.mutexes.Keys
            && s'.tasks == s.tasks[t := s.tasks[t].(phase := Retries(p.id, p.inherited))]
            && s'.mutexes[p.id] == s.mutexes[p.id].(waiting := Without(s.mutexes[p.id].waiting, t))
            && forall n | n in s.mutexes && n != p.id :: s'.mutexes[n] == s.mutexes[n]
  {
    CallOf(s, t);
    hide Accounted;
  }

  /** What a release does: the mutex is free, the giver has one less and, if that was
      its last, its own priority; the first of those waiting is awake and off the list,
      and nobody else is. */
  ghost predicate Released(s: State, s': State, t: TaskId, m: Id)
    requires t in s.tasks && m in s.mutexes
  {
    var x, v := s.mutexes[m], s.tasks[t];
    && s'.mutexes.Keys == s.mutexes.Keys && s'.tasks.Keys == s.tasks.Keys
    && s'.mutexes[m].holder == None && s'.mutexes[m].count == x.count + 1
    && s'.tasks[t] == v.(held := v.held - 1, priority := if v.held == 1 then v.base else v.priority)
    && (x.waiting == [] ==> s'.mutexes[m].waiting == [] && forall u | u in s.tasks && u != t :: s'.tasks[u] == s.tasks[u])
    && (x.waiting != [] ==>
          var w := x.waiting[0].owner;
          && w in s.tasks && w != t && s.tasks[w].phase.Waits? && s'.mutexes[m].waiting == x.waiting[1..]
          && s'.tasks[w] == s.tasks[w].(phase := Retries(m, s.tasks[w].phase.inherited))
          && forall u | u in s.tasks && u != t && u != w :: s'.tasks[u] == s.tasks[u])
    && forall n | n in s.mutexes && n != m :: s'.mutexes[n] == s.mutexes[n]
  }

  lemma ReleaseExactly(s: State, t: TaskId, m: Id)
    requires t in s.tasks && m in s.mutexes && s.tasks[t].phase.Out? && forall n | n in s.mutexes :: ListOk(s, n)
    ensures Released(s, Release(s, t, m), t, m)
  {
    DisinheritMutexes(s, t);
    DisinheritTasks(s, t);
    var x := s.mutexes[m];
    if x.waiting != [] {
      assert ListOk(s, m) && WaitsFor(s, x.waiting[0], m);
    }
    hide Disinherit, ListOk;
  }

  /** The give that counts is a release. */
  lemma GivesExactly(s: State, t: TaskId, m: Id)
    requires Protected(s) && Enabled(s, Gives(t, m)) && s.mutexes[m].holder == Some(t)
    requires s.mutexes[m].recursive ==> s.mutexes[m].calls == 1
    ensures Released(s, Step(s, Gives(t, m)), t, m)
    ensures Step(s, Gives(t, m)).mutexes[m].count == 1 && Step(s, Gives(t, m)).mutexes[m].calls == 0
  {
    hide Protected, Accounted, ListOk, Lent, Release, TaskOk, MutexOk, Released, CallerOk;
    ProtectedAccounted(s);
    BooksOf(s, m);
    var s0 := if s.mutexes[m].recursive then SetMutex(s, m, s.mutexes[m].(calls := 0)) else s;
    GiveIsRelease(s, s0, t, m);
    ReleaseListed(s, s0, t, m);
    ReleaseHolders(s0, t, m);
    hide Give;
    ReleasedFrom(s, s0, Release(s0, t, m), t, m);
  }

  lemma GiveIsRelease(s: State, s0: State, t: TaskId, m: Id)
    requires t in s.tasks && m in s.mutexes && s.mutexes[m].holder == Some(t) && (s.mutexes[m].recursive ==> s.mutexes[m].calls == 1)
    requires s0 == if s.mutexes[m].recursive then SetMutex(s, m, s.mutexes[m].(calls := 0)) else s
    ensures t in s0.tasks && m in s0.mutexes && Give(s, t, m) == Release(s0, t, m)
  {
    hide Release;
  }

  lemma ReleaseListed(s: State, s0: State, t: TaskId, m: Id)
    requires Protected(s) && Enabled(s, Gives(t, m))
    requires s0 == if s.mutexes[m].recursive then SetMutex(s, m, s.mutexes[m].(calls := 0)) else s
    ensures Released(s0, Release(s0, t, m), t, m)
  {
    ProtectedEach(s);
    if s.mutexes[m].recursive {
      CallsListed(s, s0, m);
    }
    hide Protected, Accounted, Release, ListOk, Lent;
    ReleaseExactly(s0, t, m);
  }

  lemma ReleasedFrom(s: State, s0: State, s': State, t: TaskId, m: Id)
    requires t in s.tasks && m in s.mutexes && (s0 == s || s0 == SetMutex(s, m, s.mutexes[m].(calls := 0))) && Released(s0, s', t, m)
    ensures Released(s, s', t, m)
  {
  }

  lemma CallsListed(s: State, s0: State, m: Id)
    requires m in s.mutexes && s0 == SetMutex(s, m, s.mutexes[m].(calls := 0)) && forall n | n in s.mutexes :: ListOk(s, n)
    ensures forall n | n in s0.mutexes :: ListOk(s0, n)
  {
  }

  // ---------------------------------------------------------------- what was lent is taken back

  /** Whoever waits holds nothing and has its base priority. */
  lemma WaiterHasBase(s: State, m: Id, i: nat)
    requires Protected(s) && m in s.mutexes && i < |s.mutexes[m].waiting|
    ensures var w := s.mutexes[m].waiting[i].owner;
            && w in s.tasks && s.tasks[w].phase.Waits? && s.tasks[w].phase.id == m
            && s.tasks[w].held == 0 && s.tasks[w].priority == s.tasks[w].base < MAX_PRIORITIES
            && s.mutexes[m].waiting[i].value == MAX_PRIORITIES - s.tasks[w].base
  {
    ProtectedEach(s);
    assert ListOk(s, m);
    assert WaitsFor(s, s.mutexes[m].waiting[i], m);
    var w := s.mutexes[m].waiting[i].owner;
    assert CallerOk(s, w) && TaskOk(s, w);
  }

  /** The first task on a list has the highest priority on it. */
  lemma FirstIsHighest(s: State, m: Id)
    requires Protected(s) && m in s.mutexes && s.mutexes[m].waiting != []
    ensures var ws := s.mutexes[m].waiting;
            && ws[0].owner in s.tasks && HighestWaiting(ws) == s.tasks[ws[0].owner].priority
            && forall i | 0 <= i < |ws| :: ws[i].owner in s.tasks && s.tasks[ws[i].owner].priority <= HighestWaiting(ws)
  {
    var ws := s.mutexes[m].waiting;
    ProtectedEach(s);
    assert ListOk(s, m);
    forall i | 0 <= i < |ws|
      ensures ws[i].owner in s.tasks && s.tasks[ws[i].owner].priority <= HighestWaiting(ws)
    {
      WaiterHasBase(s, m, i);
      WaiterHasBase(s, m, 0);
      hide Protected, ListOk;
      assert ws[0].value <= ws[i].value;
    }
    WaiterHasBase(s, m, 0);
  }

  lemma SetPriorityTasks(s: State, t: TaskId, p: nat)
    requires t in s.tasks
    ensures SetPriority(s, t, p).tasks == s.tasks[t := s.tasks[t].(priority := p)]
  {
  }

  /** The priority that a call given up leaves the holder: what was lent is taken back
      but for the base priority and the most urgent of those still waiting, if the
      holder holds nothing else. */
  function Remaining(s: State, m: Id, h: TaskId): nat
    requires m in s.mutexes && h in s.tasks
  {
    var ws := s.mutexes[m].waiting;
    if s.tasks[h].held != 1 then s.tasks[h].priority
    else if HighestWaiting(ws) > s.tasks[h].base then HighestWaiting(ws) else s.tasks[h].base
  }

  /** A call that had lent its priority is given up: a holder of this one mutex has
      exactly the highest of its base priority and of those still waiting; one that
      holds more keeps what it has; nobody else's priority changes. */
  lemma GivesUpExactly(s: State, t: TaskId)
    requires Protected(s) && Enabled(s, GivesUp(t)) && s.tasks[t].phase.inherited
    ensures var m := s.tasks[t].phase.id;
            && m in s.mutexes && Step(s, GivesUp(t)).mutexes.Keys == s.mutexes.Keys
            && Step(s, GivesUp(t)).tasks.Keys == s.tasks.Keys
            && (s.mutexes[m].holder.Some? ==>
                  var h, ws := s.mutexes[m].holder.value, s.mutexes[m].waiting;
                  && h in s.tasks && h != t
                  && var p := Step(s, GivesUp(t)).tasks[h].priority;
                  if s.tasks[h].held == 1 then
                    && p >= s.tasks[h].base && (forall i | 0 <= i < |ws| :: ws[i].owner in s.tasks && p >= s.tasks[ws[i].owner].priority)
                    && (p == s.tasks[h].base || exists i :: 0 <= i < |ws| && ws[i].owner in s.tasks && p == s.tasks[ws[i].owner].priority)
                  else p == s.tasks[h].priority)
            && (forall u | u in s.tasks && Some(u) != s.mutexes[m].holder :: Step(s, GivesUp(t)).tasks[u].priority == s.tasks[u].priority)
  {
    hide Protected, Accounted, GiveUp, ListOk, Lent, TaskOk, MutexOk, HighestWaiting;
    ProtectedAccounted(s);
    CallOf(s, t);
    WhoRetriesHoldsNothing(s, t);
    var m := s.tasks[t].phase.id;
    BooksOf(s, m);
    if s.mutexes[m].holder.Some? {
      HolderHolds2(s, m);
      HoldersBase(s, s.mutexes[m].holder.value);
    }
    if s.mutexes[m].waiting != [] {
      FirstIsHighest(s, m);
    } else {
      NobodyHighest();
    }
    GiveUpTasks(s, t);
  }

  lemma NobodyHighest()
    ensures HighestWaiting([]) == 0
  {
  }

  lemma HoldersBase(s: State, h: TaskId)
    requires Protected(s) && h in s.tasks
    ensures s.tasks[h].priority >= s.tasks[h].base
  {
    assert TaskOk(s, h);
  }

  lemma GiveUpTasks(s: State, t: TaskId)
    requires t in s.tasks && s.tasks[t].phase.Retries? && s.tasks[t].phase.id in s.mutexes
    requires var h := s.mutexes[s.tasks[t].phase.id].holder; h.Some? ==> h.value in s.tasks && h.value != t
    ensures var m := s.tasks[t].phase.id;
            var out := s.tasks[t := s.tasks[t].(phase := Out)];
            && GiveUp(s, t).mutexes.Keys == s.mutexes.Keys
            && GiveUp(s, t).tasks ==
                 if s.tasks[t].phase.inherited && s.mutexes[m].holder.Some? then
                   out[s.mutexes[m].holder.value := s.tasks[s.mutexes[m].holder.value].(priority := Remaining(s, m, s.mutexes[m].holder.value))]
                 else out
  {
    var p := s.tasks[t].phase;
    var x := s.mutexes[p.id];
    var s1 := SetTask(s, t, s.tasks[t].(phase := Out));
    if p.inherited && x.holder.Some? {
      var h := x.holder.value;
      SetPriorityTasks(s1, h, Remaining(s, p.id, h));
      hide SetPriority;
      assert s1.tasks[h := s1.tasks[h].(priority := s1.tasks[h].priority)] == s1.tasks;
    }
  }

  /** It can even raise the holder: exactly if a task that was waiting before the holder
      took the mutex is still first on the list and more urgent. */
  lemma GivesUpRaises(s: State, t: TaskId)
    requires Protected(s) && Enabled(s, GivesUp(t)) && s.tasks[t].phase.inherited
    requires s.tasks[t].phase.id in s.mutexes && s.mutexes[s.tasks[t].phase.id].holder.Some?
    ensures var m := s.tasks[t].phase.id;
            var h, ws := s.mutexes[m].holder.value, s.mutexes[m].waiting;
            && h in s.tasks && h in Step(s, GivesUp(t)).tasks && (ws != [] ==> ws[0].owner in s.tasks)
            && (Step(s, GivesUp(t)).tasks[h].priority > s.tasks[h].priority <==>
                  s.tasks[h].held == 1 && ws != [] && s.tasks[ws[0].owner].priority > s.tasks[h].priority)
            && (Step(s, GivesUp(t)).tasks[h].priority > s.tasks[h].priority ==> ws[0].owner !in s.mutexes[m].answers)
  {
    var m := s.tasks[t].phase.id;
    GivesUpExactly(s, t);
    ProtectedEach(s);
    assert Lent(s, m) && TaskOk(s, s.mutexes[m].holder.value);
    if s.mutexes[m].waiting != [] {
      FirstIsHighest(s, m);
    }
    hide Protected, Accounted, Step, ListOk, MutexOk;
  }

  /** The base priorities of those who have waited for a mutex while `h` held it,
      since `h` last held nothing. */
  function LendersAfter(s: State, e: Event, h: TaskId, lenders: set<nat>): set<nat>
    requires Accounted(s) && Enabled(s, e)
  {
    var s' := Step(s, e);
    if h !in s'.tasks || s'.tasks[h].held == 0 then {}
    else match e
      case Blocks(u, m) => if s.mutexes[m].holder == Some(h) then lenders + {s.tasks[u].base} else lenders
      case Takes(u, m) => if u == h then lenders + WaitingBases(s, m) else lenders
      case _ => lenders
  }

  function WaitingBases(s: State, m: Id): set<nat>
    requires m in s.mutexes
  {
    set i | 0 <= i < |s.mutexes[m].waiting| && s.mutexes[m].waiting[i].owner in s.tasks :: s.tasks[s.mutexes[m].waiting[i].owner].base
  }

  /** The priority of `h` is its own or was lent by one of `lenders`, and these include
      everyone who waits for `h`. */
  ghost predicate LentBy(s: State, h: TaskId, lenders: set<nat>) {
    && h in s.tasks && (s.tasks[h].priority == s.tasks[h].base || s.tasks[h].priority in lenders)
    && forall m | m in s.mutexes && s.mutexes[m].holder == Some(h) :: WaitingBases(s, m) <= lenders
  }

  /** What the steps of such runs do to priorities. */
  ghost predicate Repriced(s: State, e: Event, s': State, v: TaskId)
    requires v in s.tasks && v in s'.tasks
  {
    && s'.tasks[v].base == s.tasks[v].base
    && (s'.tasks[v].priority == s.tasks[v].priority
        || s'.tasks[v].priority == s.tasks[v].base
        || (e.Blocks? && e.t in s.tasks && e.m in s.mutexes && s.mutexes[e.m].holder == Some(v) && s'.tasks[v].priority == s.tasks[e.t].priority)
        || (e.GivesUp? && e.t in s.tasks && s.tasks[e.t].phase.Retries? && s.tasks[e.t].phase.id in s.mutexes
            && var x := s.mutexes[s.tasks[e.t].phase.id];
            && x.holder == Some(v) && x.waiting != [] && x.waiting[0].owner in s.tasks
            && s'.tasks[v].priority == s.tasks[x.waiting[0].owner].priority))
  }

  lemma StepReprices(s: State, e: Event, v: TaskId)
    requires Protected(s) && Enabled(s, e) && Simple(s, e) && v in s.tasks
    ensures v in Step(s, e).tasks && Repriced(s, e, Step(s, e), v)
  {
    ProtectedEach(s);
    hide Protected, Accounted, ListOk, Lent, CallerOk;
    match e
    case Takes(t, m) =>
    case Blocks(t, m) =>
      assert MutexOk(s, m);
      BlockTasks(s, t, m);
      hide Block;
    case TimesOut(t) =>
      assert TaskOk(s, t);
    case GivesUp(t) =>
      assert TaskOk(s, t) && MutexOk(s, s.tasks[t].phase.id);
      GiveUpReprices(s, t, v);
    case Gives(t, m) =>
      GiveTasks(s, t, m, v);
      hide Give;
  }

  lemma BlockTasks(s: State, t: TaskId, m: Id)
    requires t in s.tasks && m in s.mutexes && (s.mutexes[m].holder.Some? ==> s.mutexes[m].holder.value in s.tasks)
    ensures Block(s, t, m).tasks.Keys == s.tasks.Keys
    ensures forall v | v in s.tasks ::
              && Block(s, t, m).tasks[v].base == s.tasks[v].base
              && (Block(s, t, m).tasks[v].priority == s.tasks[v].priority
                  || (s.mutexes[m].holder == Some(v) && Block(s, t, m).tasks[v].priority == s.tasks[t].priority))
  {
    if s.mutexes[m].holder.Some? {
      SetPriorityTasks(s, s.mutexes[m].holder.value, s.tasks[t].priority);
    }
    hide SetPriority, Insert;
  }

  lemma GiveUpReprices(s: State, t: TaskId, v: TaskId)
    requires Protected(s) && Enabled(s, GivesUp(t)) && v in s.tasks
    requires s.tasks[t].phase.id in s.mutexes && (s.mutexes[s.tasks[t].phase.id].holder.Some? ==> s.mutexes[s.tasks[t].phase.id].holder.value in s.tasks)
    ensures v in GiveUp(s, t).tasks && Repriced(s, GivesUp(t), GiveUp(s, t), v)
  {
    var m := s.tasks[t].phase.id;
    if s.mutexes[m].holder.Some? {
      HolderHolds2(s, m);
      WhoRetriesHoldsNothing(s, t);
    }
    if s.mutexes[m].waiting != [] {
      FirstIsHighest(s, m);
    }
    GiveUpTasks(s, t);
    hide Protected, GiveUp;
  }

  lemma WhoRetriesHoldsNothing(s: State, t: TaskId)
    requires Protected(s) && t in s.tasks && !s.tasks[t].phase.Out?
    ensures s.tasks[t].held == 0
  {
    assert CallerOk(s, t);
  }

  lemma GiveTasks(s: State, t: TaskId, m: Id, v: TaskId)
    requires t in s.tasks && m in s.mutexes && v in s.tasks
    ensures v in Give(s, t, m).tasks
    ensures Give(s, t, m).tasks[v].base == s.tasks[v].base
    ensures Give(s, t, m).tasks[v].priority == s.tasks[v].priority || Give(s, t, m).tasks[v].priority == s.tasks[v].base
  {
    var x := s.mutexes[m];
    ReleaseTasks(s, t, m, v);
    ReleaseTasks(SetMutex(s, m, x.(calls := x.calls - 1)), t, m, v);
    hide Release;
  }

  lemma ReleaseTasks(s: State, t: TaskId, m: Id, v: TaskId)
    requires t in s.tasks && m in s.mutexes && v in s.tasks
    ensures v in Release(s, t, m).tasks
    ensures Release(s, t, m).tasks[v].base == s.tasks[v].base
    ensures Release(s, t, m).tasks[v].priority == s.tasks[v].priority || Release(s, t, m).tasks[v].priority == s.tasks[v].base
  {
    DisinheritTasks(s, t);
    hide Disinherit;
  }

  function Names(ws: seq<Entry<TaskId>>): set<TaskId> {
    set i | 0 <= i < |ws| :: ws[i].owner
  }

  /** The list of a mutex after a step that makes at most `more` wait for it. */
  ghost predicate FewerWait(s: State, s': State, m: Id, more: set<TaskId>) {
    m in s'.mutexes ==>
      && m in s.mutexes && (s'.mutexes[m].holder == s.mutexes[m].holder || s'.mutexes[m].holder == None)
      && Names(s'.mutexes[m].waiting) <= Names(s.mutexes[m].waiting) + more
  }

  /** Who waits for a mutex of `h` after a step: who did before, or has just blocked, or
      waited for a mutex that `h` has just taken. */
  lemma StepWaiters(s: State, e: Event, m: Id)
    requires Protected(s) && Enabled(s, e) && Simple(s, e) && m in Step(s, e).mutexes
    ensures if e.Takes? && e.m == m then m in s.mutexes && Names(Step(s, e).mutexes[m].waiting) == Names(s.mutexes[m].waiting)
            else FewerWait(s, Step(s, e), m, if e.Blocks? && e.m == m then {e.t} else {})
    ensures e.Takes? && e.m == m ==>
              Step(s, e).mutexes[m].holder == Some(e.t) || Step(s, e).mutexes[m].holder == s.mutexes[m].holder
  {
    ProtectedEach(s);
    hide Protected, Accounted, ListOk, Lent, CallerOk, Names, NotAbove;
    match e
    case Takes(t, n) =>
    case Blocks(t, n) =>
      assert MutexOk(s, n);
      BlockWaiters(s, t, n, m);
    case TimesOut(t) =>
      assert TaskOk(s, t);
      WithoutNames(s.mutexes[s.tasks[t].phase.id].waiting, t);
    case GivesUp(t) =>
      assert TaskOk(s, t) && MutexOk(s, s.tasks[t].phase.id);
      GiveUpWaiters(s, t, m);
    case Gives(t, n) => GiveWaiters(s, t, n, m);
  }

  lemma WithoutNames(ws: seq<Entry<TaskId>>, t: TaskId)
    ensures Names(Without(ws, t)) <= Names(ws)
  {
    WithoutKeeps(ws, t);
  }

  lemma SameNames(ws: seq<Entry<TaskId>>, ws': seq<Entry<TaskId>>)
    requires |ws'| == |ws| && forall i | 0 <= i < |ws| :: ws'[i].owner == ws[i].owner
    ensures Names(ws') == Names(ws)
  {
  }

  lemma SameWaitersFewer(s: State, s': State, m: Id)
    requires SameWaiters(s, s') && SameMutexes(s, s')
    ensures FewerWait(s, s', m, {})
  {
    if m in s'.mutexes {
      SameNames(s.mutexes[m].waiting, s'.mutexes[m].waiting);
    }
  }

  lemma BlockWaiters(s: State, t: TaskId, n: Id, m: Id)
    requires t in s.tasks && n in s.mutexes && (s.mutexes[n].holder.Some? ==> s.mutexes[n].holder.value in s.tasks)
    ensures FewerWait(s, Block(s, t, n), m, if m == n then {t} else {})
  {
    BlockHolders(s, t, n);
    InheritWaiters(s, s.mutexes[n].holder, s.tasks[t].priority);
    var s1 := Inherit(s, s.mutexes[n].holder, s.tasks[t].priority).0;
    if m in s.mutexes {
      SameNames(s.mutexes[m].waiting, s1.mutexes[m].waiting);
      InsertNames(s1.mutexes[m].waiting, Entry(t, ItemValue(s.tasks[t].priority)));
    }
    hide Inherit, ItemValue, Insert, Names;
  }

  lemma InsertNames(ws: seq<Entry<TaskId>>, e: Entry<TaskId>)
    ensures Names(Insert(ws, e)) <= Names(ws) + {e.owner}
  {
    InsertMembers(ws, e);
  }

  lemma GiveUpWaiters(s: State, t: TaskId, m: Id)
    requires t in s.tasks && s.tasks[t].phase.Retries? && s.tasks[t].phase.id in s.mutexes
    requires var h := s.mutexes[s.tasks[t].phase.id].holder; h.Some? ==> h.value in s.tasks
    ensures FewerWait(s, GiveUp(s, t), m, {})
  {
    var x := s.mutexes[s.tasks[t].phase.id];
    var s1 := SetTask(s, t, s.tasks[t].(phase := Out));
    TimeoutWaiters(s1, x.holder, HighestWaiting(x.waiting));
    GiveUpHolders(s, t);
    hide DisinheritAfterTimeout, HighestWaiting;
    SameWaitersFewer(s, GiveUp(s, t), m);
  }

  lemma GiveWaiters(s: State, t: TaskId, n: Id, m: Id)
    requires t in s.tasks && n in s.mutexes
    ensures FewerWait(s, Give(s, t, n), m, {})
  {
    hide Release, Names;
    var x := s.mutexes[n];
    if !x.recursive {
      ReleaseWaiters(s, t, n, m);
    } else if x.holder == Some(t) {
      ReleaseWaiters(SetMutex(s, n, x.(calls := x.calls - 1)), t, n, m);
    }
  }

  lemma ReleaseWaiters(s: State, t: TaskId, n: Id, m: Id)
    requires t in s.tasks && n in s.mutexes
    ensures FewerWait(s, Release(s, t, n), m, {})
  {
    DisinheritWaiters(s, t);
    DisinheritTasks(s, t);
    var s1 := Disinherit(s, t);
    hide Disinherit;
    if m in s.mutexes {
      SameNames(s.mutexes[m].waiting, s1.mutexes[m].waiting);
      TailNames(s1.mutexes[m].waiting);
    }
    hide Names;
  }

  lemma TailNames(ws: seq<Entry<TaskId>>)
    ensures ws != [] ==> Names(ws[1..]) <= Names(ws)
  {
  }

  /** A step keeps account of the lenders. */
  lemma StepLentBy(s: State, e: Event, h: TaskId, lenders: set<nat>)
    requires Protected(s) && Enabled(s, e) && Simple(s, e) && LentBy(s, h, lenders)
    ensures LentBy(Step(s, e), h, LendersAfter(s, e, h, lenders))
  {
    StepProtected(s, e);
    StepReprices(s, e, h);
    var s', lenders' := Step(s, e), LendersAfter(s, e, h, lenders);
    IdleHasBase(s', h);
    LendersGrow(s, e, h, lenders);
    forall m | m in s'.mutexes && s'.mutexes[m].holder == Some(h)
      ensures WaitingBases(s', m) <= lenders'
    {
      HolderHolds2(s', m);
      forall i | 0 <= i < |s'.mutexes[m].waiting| && s'.mutexes[m].waiting[i].owner in s'.tasks
        ensures s'.tasks[s'.mutexes[m].waiting[i].owner].base in lenders'
      {
        WaiterIsLender(s, e, h, lenders, m, i);
      }
      hide Step, LendersAfter, Protected;
    }
    PriceIsLent(s, e, h, lenders);
  }

  lemma IdleHasBase(s: State, h: TaskId)
    requires Protected(s) && h in s.tasks
    ensures s.tasks[h].held == 0 ==> s.tasks[h].priority == s.tasks[h].base
  {
    assert TaskOk(s, h);
  }

  lemma LendersGrow(s: State, e: Event, h: TaskId, lenders: set<nat>)
    requires Accounted(s) && Enabled(s, e) && h in Step(s, e).tasks
    ensures Step(s, e).tasks[h].held != 0 ==> lenders <= LendersAfter(s, e, h, lenders)
  {
    hide Step, Accounted, WaitingBases;
  }

  lemma WaiterIsLender(s: State, e: Event, h: TaskId, lenders: set<nat>, m: Id, i: nat)
    requires Protected(s) && Enabled(s, e) && Simple(s, e) && LentBy(s, h, lenders)
    requires var s' := Step(s, e);
             && h in s'.tasks && s'.tasks[h].held != 0
             && m in s'.mutexes && s'.mutexes[m].holder == Some(h) && i < |s'.mutexes[m].waiting|
    ensures var s' := Step(s, e);
            s'.mutexes[m].waiting[i].owner in s'.tasks ==>
              s'.tasks[s'.mutexes[m].waiting[i].owner].base in LendersAfter(s, e, h, lenders)
  {
    ProtectedAccounted(s);
    hide Step, Protected, Simple, Accounted;
    StepWaiters(s, e, m);
    LendersGrow(s, e, h, lenders);
    var w := Step(s, e).mutexes[m].waiting[i].owner;
    assert w in Names(Step(s, e).mutexes[m].waiting);
    if e.Blocks? && e.m == m && e.t == w {
      StepReprices(s, e, w);
    } else {
      var j :| 0 <= j < |s.mutexes[m].waiting| && s.mutexes[m].waiting[j].owner == w;
      WaiterHasBase(s, m, j);
      StepReprices(s, e, w);
      assert s.tasks[w].base in WaitingBases(s, m);
    }
  }

  lemma PriceIsLent(s: State, e: Event, h: TaskId, lenders: set<nat>)
    requires Protected(s) && Enabled(s, e) && Simple(s, e) && LentBy(s, h, lenders)
    ensures var s' := Step(s, e);
            && h in s'.tasks
            && (s'.tasks[h].held != 0 ==> s'.tasks[h].priority == s'.tasks[h].base || s'.tasks[h].priority in LendersAfter(s, e, h, lenders))
  {
    StepReprices(s, e, h);
    LendersGrow(s, e, h, lenders);
    if e.Blocks? {
      CallerHasBase(s, e.t);
    } else if e.GivesUp? {
      var m := s.tasks[e.t].phase.id;
      if m in s.mutexes && s.mutexes[m].waiting != [] && s.mutexes[m].holder == Some(h) {
        WaiterHasBase(s, m, 0);
        assert s.tasks[s.mutexes[m].waiting[0].owner].base in WaitingBases(s, m);
      }
    }
    hide Step, Protected, WaitingBases;
  }

  lemma CallerHasBase(s: State, t: TaskId)
    requires Protected(s) && t in s.tasks && s.tasks[t].held == 0
    ensures s.tasks[t].priority == s.tasks[t].base
  {
    assert TaskOk(s, t);
  }

  ghost function Lenders(s: State, es: seq<Event>, h: TaskId, lenders: set<nat>): set<nat>
    requires Accounted(s) && AllowedRun(s, es)
    decreases |es|
  {
    if es == [] then lenders else
      StepAccounted(s, es[0]);
      Lenders(Step(s, es[0]), es[1..], h, LendersAfter(s, es[0], h, lenders))
  }

  /** The other half of the guarantee: over every such run a task's priority is its own,
      or that of a task that has waited for a mutex it held since it last held nothing. */
  lemma {:induction false} PriorityIsLent(s: State, es: seq<Event>, h: TaskId, lenders: set<nat>)
    requires Protected(s) && AllowedRun(s, es) && SimpleRun(s, es) && LentBy(s, h, lenders)
    ensures LentBy(Run(s, es), h, Lenders(s, es, h, lenders))
    decreases |es|
  {
    ProtectedAccounted(s);
    hide Protected, Accounted, Enabled, Step, Simple, LentBy, LendersAfter;
    if es != [] {
      StepAccounted(s, es[0]);
      StepProtected(s, es[0]);
      StepLentBy(s, es[0], h, lenders);
      PriorityIsLent(Step(s, es[0]), es[1..], h, LendersAfter(s, es[0], h, lenders));
    }
  }

  /** A free mutex is not taken in front of a more urgent task. */
  ghost predicate FairTake(s: State, e: Event) {
    e.Takes? && e.t in s.tasks && e.m in s.mutexes && s.mutexes[e.m].count > 0 && s.mutexes[e.m].waiting != [] ==>
      s.mutexes[e.m].waiting[0].owner in s.tasks && s.tasks[s.mutexes[e.m].waiting[0].owner].priority <= s.tasks[e.t].priority
  }

  /** The largest of the base priority of `h` and those of the tasks that have blocked
      on a mutex it held, since it last held nothing. */
  function LimitAfter(s: State, e: Event, h: TaskId, limit: nat): nat
    requires Accounted(s) && Enabled(s, e) && h in s.tasks
  {
    var s' := Step(s, e);
    if h !in s'.tasks || s'.tasks[h].held == 0 then s.tasks[h].base
    else if e.Blocks? && s.mutexes[e.m].holder == Some(h) && s.tasks[e.t].base > limit then s.tasks[e.t].base
    else limit
  }

  ghost predicate LimitedBy(s: State, h: TaskId, limit: nat) {
    && h in s.tasks && s.tasks[h].base <= limit && s.tasks[h].priority <= limit
    && forall m | m in s.mutexes && s.mutexes[m].holder == Some(h) :: forall b | b in WaitingBases(s, m) :: b <= limit
  }

  lemma StepLimited(s: State, e: Event, h: TaskId, limit: nat)
    requires Protected(s) && Enabled(s, e) && Simple(s, e) && FairTake(s, e) && LimitedBy(s, h, limit)
    ensures LimitedBy(Step(s, e), h, LimitAfter(s, e, h, limit))
  {
    StepProtected(s, e);
    StepReprices(s, e, h);
    var s', limit' := Step(s, e), LimitAfter(s, e, h, limit);
    IdleHasBase(s', h);
    forall m, b | m in s'.mutexes && s'.mutexes[m].holder == Some(h) && b in WaitingBases(s', m)
      ensures b <= limit'
    {
      HolderHolds2(s', m);
      var i :| 0 <= i < |s'.mutexes[m].waiting| && s'.mutexes[m].waiting[i].owner in s'.tasks
               && b == s'.tasks[s'.mutexes[m].waiting[i].owner].base;
      WaiterIsLimited(s, e, h, limit, m, i);
    }
    PriceIsLimited(s, e, h, limit);
    hide Step, LimitAfter, Protected;
  }

  lemma WaiterIsLimited(s: State, e: Event, h: TaskId, limit: nat, m: Id, i: nat)
    requires Protected(s) && Enabled(s, e) && Simple(s, e) && FairTake(s, e) && LimitedBy(s, h, limit)
    requires var s' := Step(s, e);
             && h in s'.tasks && s'.tasks[h].held != 0
             && m in s'.mutexes && s'.mutexes[m].holder == Some(h) && i < |s'.mutexes[m].waiting|
    ensures var s' := Step(s, e);
            s'.mutexes[m].waiting[i].owner in s'.tasks ==>
              s'.tasks[s'.mutexes[m].waiting[i].owner].base <= LimitAfter(s, e, h, limit)
  {
    ProtectedAccounted(s);
    hide Step, Protected, Simple, Accounted;
    StepWaiters(s, e, m);
    var w := Step(s, e).mutexes[m].waiting[i].owner;
    assert w in Names(Step(s, e).mutexes[m].waiting);
    if e.Blocks? && e.m == m && e.t == w {
      StepReprices(s, e, w);
    } else {
      var j :| 0 <= j < |s.mutexes[m].waiting| && s.mutexes[m].waiting[j].owner == w;
      WaiterHasBase(s, m, j);
      StepReprices(s, e, w);
      if s.mutexes[m].holder != Some(h) {
        TakenFairly(s, e, h, m, j);
      } else {
        assert s.tasks[w].base in WaitingBases(s, m);
      }
    }
  }

  lemma TakenFairly(s: State, e: Event, h: TaskId, m: Id, j: nat)
    requires Protected(s) && Enabled(s, e) && FairTake(s, e) && h in s.tasks
    requires m in s.mutexes && s.mutexes[m].holder != Some(h) && e == Takes(h, m) && Step(s, e).mutexes[m].holder == Some(h)
    requires j < |s.mutexes[m].waiting|
    ensures s.mutexes[m].waiting[j].owner in s.tasks && s.tasks[s.mutexes[m].waiting[j].owner].base <= s.tasks[h].priority
  {
    ProtectedAccounted(s);
    BooksOf(s, m);
    FirstIsHighest(s, m);
    WaiterHasBase(s, m, j);
    hide Protected, Accounted;
  }

  lemma PriceIsLimited(s: State, e: Event, h: TaskId, limit: nat)
    requires Protected(s) && Enabled(s, e) && Simple(s, e) && LimitedBy(s, h, limit)
    ensures var s' := Step(s, e);
            && h in s'.tasks && (s'.tasks[h].held != 0 ==> s'.tasks[h].priority <= LimitAfter(s, e, h, limit))
            && s'.tasks[h].base <= LimitAfter(s, e, h, limit)
  {
    StepReprices(s, e, h);
    if e.Blocks? {
      CallerHasBase(s, e.t);
    } else if e.GivesUp? {
      var m := s.tasks[e.t].phase.id;
      if m in s.mutexes && s.mutexes[m].waiting != [] && s.mutexes[m].holder == Some(h) {
        WaiterHasBase(s, m, 0);
        assert s.tasks[s.mutexes[m].waiting[0].owner].base in WaitingBases(s, m);
      }
    }
    hide Step, Protected, WaitingBases;
  }

  ghost function Limit(s: State, es: seq<Event>, h: TaskId, limit: nat): nat
    requires Protected(s) && AllowedRun(s, es) && SimpleRun(s, es) && h in s.tasks
    decreases |es|
  {
    if es == [] then limit else
      StepProtected(s, es[0]);
      StepReprices(s, es[0], h);
      Limit(Step(s, es[0]), es[1..], h, LimitAfter(s, es[0], h, limit))
  }

  ghost predicate FairRun(s: State, es: seq<Event>)
    requires Accounted(s) && AllowedRun(s, es)
    decreases |es|
  {
    es == [] || (FairTake(s, es[0]) && (StepAccounted(s, es[0]); FairRun(Step(s, es[0]), es[1..])))
  }

  /** Where nobody takes a mutex in front of a more urgent task, a task's priority stays
      below its base priority and those of the tasks that blocked on what it held. */
  lemma {:induction false} PriorityIsLimited(s: State, es: seq<Event>, h: TaskId, limit: nat)
    requires Protected(s) && AllowedRun(s, es) && SimpleRun(s, es) && FairRun(s, es) && LimitedBy(s, h, limit)
    ensures LimitedBy(Run(s, es), h, Limit(s, es, h, limit))
    decreases |es|
  {
    ProtectedAccounted(s);
    hide Protected, Accounted, Enabled, Step, Simple, LimitedBy, LimitAfter, FairTake;
    if es != [] {
      StepAccounted(s, es[0]);
      StepProtected(s, es[0]);
      StepReprices(s, es[0], h);
      StepLimited(s, es[0], h, limit);
      PriorityIsLimited(Step(s, es[0]), es[1..], h, LimitAfter(s, es[0], h, limit));
    }
  }

  lemma StartLimited(s: State, h: TaskId)
    requires Start(s) && h in s.tasks
    ensures LimitedBy(s, h, s.tasks[h].base)
  {
  }

  lemma StartLentBy(s: State, h: TaskId)
    requires Start(s) && h in s.tasks
    ensures LentBy(s, h, {})
  {
  }

  /** A run, one step at a time. */
  lemma OneStep(s: State, e: Event, s1: State, es: seq<Event>)
    requires Accounted(s) && Enabled(s, e) && Simple(s, e) && Step(s, e) == s1
    ensures Accounted(s1)
    ensures AllowedRun(s1, es) ==> AllowedRun(s, [e] + es) && Run(s, [e] + es) == Run(s1, es)
    ensures AllowedRun(s1, es) && SimpleRun(s1, es) ==> SimpleRun(s, [e] + es)
  {
    hide Accounted, Enabled, Step, Simple;
    StepAccounted(s, e);
    assert ([e] + es)[0] == e && ([e] + es)[1..] == es;
  }

  lemma NoStep(s: State)
    requires Accounted(s)
    ensures AllowedRun(s, []) && SimpleRun(s, []) && Run(s, []) == s
  {
  }

  /** Tasks numbered from 0 and one mutex. */
  function Scene(ts: seq<Task>, x: Mutex): State {
    State(map i: TaskId | 0 <= i < |ts| :: ts[i], map[0 := x])
  }

  lemma SceneTask(ts: seq<Task>, x: Mutex, t: TaskId, v: Task)
    requires t < |ts|
    ensures t in Scene(ts, x).tasks && Scene(ts, x).tasks[t] == ts[t]
    ensures SetTask(Scene(ts, x), t, v) == Scene(ts[t := v], x)
  {
  }

  lemma SceneMutex(ts: seq<Task>, x: Mutex, y: Mutex)
    ensures 0 in Scene(ts, x).mutexes && Scene(ts, x).mutexes[0] == x
    ensures SetMutex(Scene(ts, x), 0, y) == Scene(ts, y)
  {
  }

  lemma ScenePriority(ts: seq<Task>, x: Mutex, t: TaskId, p: nat)
    requires t < |ts| && forall i | 0 <= i < |x.waiting| :: x.waiting[i].owner != t
    ensures t in Scene(ts, x).tasks && SetPriority(Scene(ts, x), t, p) == Scene(ts[t := ts[t].(priority := p)], x)
  {
    hide Scene, Retag;
    SceneTask(ts, x, t, ts[t].(priority := p));
    SceneRetag(ts[t := ts[t].(priority := p)], x, t, ItemValue(p));
  }

  lemma SceneRetag(ts: seq<Task>, x: Mutex, t: TaskId, value: nat)
    requires forall i | 0 <= i < |x.waiting| :: x.waiting[i].owner != t
    ensures RetagAll(Scene(ts, x), t, value) == Scene(ts, x)
  {
    assert Retag(x.waiting, t, value) == x.waiting;
    assert RetagAll(Scene(ts, x), t, value).mutexes == Scene(ts, x).mutexes;
  }

  lemma SceneTakes(ts: seq<Task>, x: Mutex, t: TaskId)
    requires t < |ts| && ts[t].phase.Out? && x.count == 1 && !x.recursive
    requires forall i | 0 <= i < |x.waiting| :: x.waiting[i].owner < |ts| && ts[x.waiting[i].owner].priority > ts[t].priority
    ensures var s := Scene(ts, x);
            && Enabled(s, Takes(t, 0)) && Simple(s, Takes(t, 0))
            && Take(s, t, 0) == Scene(ts[t := ts[t].(held := ts[t].held + 1)], x.(count := 0, holder := Some(t), answers := {}))
  {
    var s := Scene(ts, x);
    assert NotAbove(s.tasks, x.waiting, ts[t].priority) == {};
    SceneTask(ts, x, t, ts[t].(held := ts[t].held + 1));
    SceneMutex(ts, x, x.(count := 0, holder := Some(t), answers := {}));
  }

  lemma SceneBlocks(ts: seq<Task>, x: Mutex, t: TaskId, h: TaskId)
    requires t < |ts| && h < |ts| && t != h && ts[t].phase.Out? && ts[t].held == 0
    requires x.count == 0 && !x.recursive && x.holder == Some(h)
    requires forall i | 0 <= i < |x.waiting| :: x.waiting[i].owner != h
    requires ts[h].base < ts[t].priority
    ensures var s := Scene(ts, x);
            && Enabled(s, Blocks(t, 0)) && Simple(s, Blocks(t, 0)) && h in s.tasks
            && var p := if ts[h].priority < ts[t].priority then ts[t].priority else ts[h].priority;
            Block(s, t, 0) == Scene(ts[h := ts[h].(priority := p)][t := ts[t].(phase := Waits(0, true))],
              x.(waiting := Insert(x.waiting, Entry(t, ItemValue(ts[t].priority))), answers := x.answers + {t}))
  {
    hide Scene, Insert, ItemValue, SetPriority;
    var p := if ts[h].priority < ts[t].priority then ts[t].priority else ts[h].priority;
    var ts1 := ts[h := ts[h].(priority := p)];
    SceneTask(ts, x, t, ts[t]);
    SceneTask(ts, x, h, ts[h]);
    SceneMutex(ts, x, x);
    ScenePriority(ts, x, h, ts[t].priority);
    assert Inherit(Scene(ts, x), x.holder, ts[t].priority) == (Scene(ts1, x), true) by {
      assert ts[h := ts[h]] == ts;
    }
    SceneTask(ts1, x, t, ts[t].(phase := Waits(0, true)));
    SceneMutex(ts1, x, x);
    SceneMutex(ts1[t := ts[t].(phase := Waits(0, true))], x,
               x.(waiting := Insert(x.waiting, Entry(t, ItemValue(ts[t].priority))), answers := x.answers + {t}));
  }

  lemma SceneGives(ts: seq<Task>, x: Mutex, t: TaskId, w: TaskId)
    requires t < |ts| && w < |ts| && t != w && ts[t].phase.Out? && ts[t].held == 1
    requires x.count == 0 && !x.recursive && x.holder == Some(t) && x.waiting != [] && x.waiting[0].owner == w
    requires forall i | 0 <= i < |x.waiting| :: x.waiting[i].owner != t
    requires ts[w].phase.Waits?
    ensures var s := Scene(ts, x);
            && Enabled(s, Gives(t, 0)) && Simple(s, Gives(t, 0))
            && Give(s, t, 0) == Scene(ts[t := ts[t].(held := 0, priority := ts[t].base)][w := ts[w].(phase := Retries(0, ts[w].phase.inherited))],
                 x.(count := 1, holder := None, waiting := x.waiting[1..]))
  {
    hide Scene, SetPriority;
    var v := ts[t].(held := 0);
    SceneTask(ts, x, t, v);
    SceneMutex(ts, x, x);
    var ts1 := ts[t := v];
    ScenePriority(ts1, x, t, v.base);
    var ts2 := ts[t := v.(priority := v.base)];
    assert ts1[t := v.(priority := v.base)] == ts2;
    assert v.priority == v.base ==> ts1 == ts2;
    assert Disinherit(Scene(ts, x), t) == Scene(ts2, x);
    var free := x.(count := 1, holder := None);
    SceneMutex(ts2, x, free);
    assert Freed(Scene(ts2, x), 0) == Scene(ts2, free) by { SceneMutex(ts2, x, x); }
    SceneWakes(ts2, free, w);
  }

  lemma SceneWakes(ts: seq<Task>, x: Mutex, w: TaskId)
    requires w < |ts| && x.waiting != [] && x.waiting[0].owner == w && ts[w].phase.Waits?
    ensures 0 in Scene(ts, x).mutexes
    ensures WakeFirst(Scene(ts, x), 0) == Scene(ts[w := ts[w].(phase := Retries(0, ts[w].phase.inherited))], x.(waiting := x.waiting[1..]))
  {
  }

  /** The guarantee stops there: a task that takes a freed mutex while a more urgent one
      has been waiting for it since before runs below that one. */
  lemma EarlierWaitersDoNotLend() returns (s: State, es: seq<Event>)
    ensures Start(s) && Accounted(s) && AllowedRun(s, es) && SimpleRun(s, es)
    ensures var s' := Run(s, es);
            && 0 in s'.mutexes && s'.mutexes[0].holder == Some(1) && 1 in s'.tasks && 3 in s'.tasks
            && |s'.mutexes[0].waiting| == 1 && s'.mutexes[0].waiting[0].owner == 3
            && s'.tasks[1].priority < s'.tasks[3].priority
  {
    var s1, s2, s3, s4, s5 := FirstFive();
    s := Players();
    PlayersStart();
    hide Players, Accounted, AllowedRun, SimpleRun, Run, Enabled, Simple, Take, Block, Give;
    es := [Takes(0, 0)] + ([Blocks(2, 0)] + ([Blocks(3, 0)] + ([Gives(0, 0)] + ([Takes(1, 0)] + []))));
    FiveAccounted(s, s1, s2, s3, s4, s5);
    NoStep(s5);
    RunOn(s, Takes(0, 0), s1, Blocks(2, 0), s2, Blocks(3, 0), s3, Gives(0, 0), s4, Takes(1, 0), s5, []);
  }

  /** And there a time-out can raise the holder above everyone who has blocked since it
      took the mutex: when task 4 gives up, task 1 gets the priority of task 3. */
  lemma TimeOutRaises() returns (s: State, es: seq<Event>, after: seq<Event>)
    ensures Start(s) && Accounted(s) && AllowedRun(s, es + after) && SimpleRun(s, es + after)
    ensures AllowedRun(s, es) && 0 in Run(s, es).mutexes && Run(s, es).mutexes[0].holder == Some(1) && Run(s, es).mutexes[0].answers == {}
    ensures after == [Blocks(4, 0), TimesOut(4), GivesUp(4)]
    ensures var s' := Run(s, es + after);
            && 1 in s'.tasks && 4 in s'.tasks && s'.tasks[1].base < s'.tasks[4].base < s'.tasks[1].priority
  {
    var s1, s2, s3, s4, s5 := FirstFive();
    var s6, s7, s8 := GivesUpInVain();
    s := Players();
    PlayersStart();
    hide Players, Scene, Accounted, AllowedRun, SimpleRun, Run, Enabled, Simple, Take, Block, Give, TimeOut, GiveUp;
    FiveAccounted(s, s1, s2, s3, s4, s5);
    NoStep(s5);
    RunOn(s, Takes(0, 0), s1, Blocks(2, 0), s2, Blocks(3, 0), s3, Gives(0, 0), s4, Takes(1, 0), s5, []);
    StepAccounted(s5, Blocks(4, 0));
    StepAccounted(s6, TimesOut(4));
    StepAccounted(s7, GivesUp(4));
    NoStep(s8);
    OneStep(s7, GivesUp(4), s8, []);
    OneStep(s6, TimesOut(4), s7, [GivesUp(4)] + []);
    OneStep(s5, Blocks(4, 0), s6, [TimesOut(4)] + ([GivesUp(4)] + []));
    after := [Blocks(4, 0)] + ([TimesOut(4)] + ([GivesUp(4)] + []));
    RunOn(s, Takes(0, 0), s1, Blocks(2, 0), s2, Blocks(3, 0), s3, Gives(0, 0), s4, Takes(1, 0), s5, after);
    es := [Takes(0, 0)] + ([Blocks(2, 0)] + ([Blocks(3, 0)] + ([Gives(0, 0)] + ([Takes(1, 0)] + []))));
    assert es + after == [Takes(0, 0)] + ([Blocks(2, 0)] + ([Blocks(3, 0)] + ([Gives(0, 0)] + ([Takes(1, 0)] + after))));
  }

  /** Two tasks of low priority and three others, and a mutex. */
  function Players(): State {
    Scene([Task(1, 1, 0, Out), Task(1, 1, 0, Out), Task(4, 4, 0, Out), Task(3, 3, 0, Out), Task(2, 2, 0, Out)],
          Mutex(1, None, false, 0, [], {}))
  }

  lemma PlayersStart()
    ensures Start(Players()) && Accounted(Players())
  {
    StartAccounted(Players());
  }

  /** Task 0 takes the mutex, 2 and 3 block on it, 0 gives it to 2, but 1 is faster. */
  lemma FirstFive() returns (s1: State, s2: State, s3: State, s4: State, s5: State)
    ensures var s := Players(); Enabled(s, Takes(0, 0)) && Simple(s, Takes(0, 0)) && Take(s, 0, 0) == s1
    ensures Enabled(s1, Blocks(2, 0)) && Simple(s1, Blocks(2, 0)) && Enabled(s2, Blocks(3, 0)) && Simple(s2, Blocks(3, 0))
    ensures (s1.mutexes[0].holder.Some? ==> s1.mutexes[0].holder.value in s1.tasks) && Block(s1, 2, 0) == s2
    ensures (s2.mutexes[0].holder.Some? ==> s2.mutexes[0].holder.value in s2.tasks) && Block(s2, 3, 0) == s3
    ensures Enabled(s3, Gives(0, 0)) && Simple(s3, Gives(0, 0)) && Give(s3, 0, 0) == s4
    ensures Enabled(s4, Takes(1, 0)) && Simple(s4, Takes(1, 0)) && Take(s4, 1, 0) == s5
    ensures s5 == Scene([Task(1, 1, 0, Out), Task(1, 1, 1, Out), Task(4, 4, 0, Retries(0, true)), Task(3, 3, 0, Waits(0, true)), Task(2, 2, 0, Out)],
                        Mutex(0, Some(1), false, 0, [Entry(3, 2)], {}))
    ensures 0 in s5.mutexes && s5.mutexes[0] == Mutex(0, Some(1), false, 0, [Entry(3, 2)], {})
    ensures 1 in s5.tasks && 3 in s5.tasks && s5.tasks[1].priority == 1 && s5.tasks[3].priority == 3
  {
    hide Scene, Take, Block, Give, Enabled, Simple, Insert, ItemValue;
    var low, high, mid, small := Task(1, 1, 0, Out), Task(4, 4, 0, Out), Task(3, 3, 0, Out), Task(2, 2, 0, Out);
    var ts, x0 := [low, low, high, mid, small], Mutex(1, None, false, 0, [], {});
    var ts1, x1 := ts[0 := low.(held := 1)], x0.(count := 0, holder := Some(0), answers := {});
    SceneTakes(ts, x0, 0);
    s1 := Scene(ts1, x1);
    SceneMutex(ts1, x1, x1);
    var ts2 := ts1[0 := Task(4, 1, 1, Out)][2 := high.(phase := Waits(0, true))];
    Inserts();
    var x2 := x1.(waiting := [Entry(2, 1)], answers := {2});
    assert {} + {2} == {2} && {2} + {3} == {2, 3};
    SceneBlocks(ts1, x1, 2, 0);
    s2 := Scene(ts2, x2);
    SceneMutex(ts2, x2, x2);
    assert ts2[0 := ts2[0].(priority := 4)] == ts2;
    SceneBlocks(ts2, x2, 3, 0);
    var ts3, x3 := ts2[3 := mid.(phase := Waits(0, true))], x2.(waiting := [Entry(2, 1), Entry(3, 2)], answers := {2, 3});
    s3 := Scene(ts3, x3);
    SceneGives(ts3, x3, 0, 2);
    var ts4 := ts3[0 := low][2 := high.(phase := Retries(0, true))];
    assert x3.waiting[1..] == [Entry(3, 2)];
    var x4 := x3.(count := 1, holder := None, waiting := [Entry(3, 2)]);
    s4 := Scene(ts4, x4);
    SceneTakes(ts4, x4, 1);
    var ts5, x5 := ts4[1 := low.(held := 1)], x4.(count := 0, holder := Some(1), answers := {});
    s5 := Scene(ts5, x5);
    assert ts5 == [low, low.(held := 1), high.(phase := Retries(0, true)), mid.(phase := Waits(0, true)), small];
    SceneTask(ts5, x5, 1, ts5[1]);
    SceneTask(ts5, x5, 3, ts5[3]);
    SceneMutex(ts5, x5, x5);
  }

  /** Task 4 blocks as well, and gives up. */
  lemma GivesUpInVain() returns (s6: State, s7: State, s8: State)
    ensures var s5 := Scene([Task(1, 1, 0, Out), Task(1, 1, 1, Out), Task(4, 4, 0, Retries(0, true)), Task(3, 3, 0, Waits(0, true)), Task(2, 2, 0, Out)],
                            Mutex(0, Some(1), false, 0, [Entry(3, 2)], {}));
            && Enabled(s5, Blocks(4, 0)) && Simple(s5, Blocks(4, 0))
            && 0 in s5.mutexes && (s5.mutexes[0].holder.Some? ==> s5.mutexes[0].holder.value in s5.tasks) && Block(s5, 4, 0) == s6
    ensures Enabled(s6, TimesOut(4)) && Simple(s6, TimesOut(4)) && s6.tasks[4].phase.id in s6.mutexes && TimeOut(s6, 4) == s7
    ensures Enabled(s7, GivesUp(4)) && Simple(s7, GivesUp(4)) && s7.tasks[4].phase.id in s7.mutexes
    ensures var h := s7.mutexes[s7.tasks[4].phase.id].holder; (h.Some? ==> h.value in s7.tasks) && GiveUp(s7, 4) == s8
    ensures 1 in s8.tasks && 4 in s8.tasks && s8.tasks[1] == Task(3, 1, 1, Out) && s8.tasks[4].base == 2
  {
    hide Scene, Block, TimeOut, GiveUp, Enabled, Simple;
    s6 := FourthBlocks();
    s7, s8 := FourthGivesUp();
  }

  lemma FourthBlocks() returns (s6: State)
    ensures var s5 := Scene([Task(1, 1, 0, Out), Task(1, 1, 1, Out), Task(4, 4, 0, Retries(0, true)), Task(3, 3, 0, Waits(0, true)), Task(2, 2, 0, Out)],
                            Mutex(0, Some(1), false, 0, [Entry(3, 2)], {}));
            && Enabled(s5, Blocks(4, 0)) && Simple(s5, Blocks(4, 0))
            && 0 in s5.mutexes && (s5.mutexes[0].holder.Some? ==> s5.mutexes[0].holder.value in s5.tasks) && Block(s5, 4, 0) == s6
    ensures s6 == Scene([Task(1, 1, 0, Out), Task(2, 1, 1, Out), Task(4, 4, 0, Retries(0, true)), Task(3, 3, 0, Waits(0, true)), Task(2, 2, 0, Waits(0, true))],
                        Mutex(0, Some(1), false, 0, [Entry(3, 2), Entry(4, 3)], {4}))
  {
    var low, high, mid, small := Task(1, 1, 1, Out), Task(4, 4, 0, Retries(0, true)), Task(3, 3, 0, Waits(0, true)), Task(2, 2, 0, Out);
    var ts5, x5 := [Task(1, 1, 0, Out), low, high, mid, small], Mutex(0, Some(1), false, 0, [Entry(3, 2)], {});
    hide Scene, Block, Enabled, Simple, Insert, ItemValue;
    SceneTask(ts5, x5, 1, low);
    SceneMutex(ts5, x5, x5);
    SceneBlocks(ts5, x5, 4, 1);
    Inserts();
    assert {} + {4} == {4};
    var ts6 := ts5[1 := low.(priority := 2)][4 := small.(phase := Waits(0, true))];
    s6 := Scene(ts6, x5.(waiting := [Entry(3, 2), Entry(4, 3)], answers := {4}));
    assert ts6 == [Task(1, 1, 0, Out), low.(priority := 2), high, mid, small.(phase := Waits(0, true))];
  }

  lemma FourthGivesUp() returns (s7: State, s8: State)
    ensures var s6 := Scene([Task(1, 1, 0, Out), Task(2, 1, 1, Out), Task(4, 4, 0, Retries(0, true)), Task(3, 3, 0, Waits(0, true)), Task(2, 2, 0, Waits(0, true))],
                            Mutex(0, Some(1), false, 0, [Entry(3, 2), Entry(4, 3)], {4}));
            && Enabled(s6, TimesOut(4)) && Simple(s6, TimesOut(4)) && s6.tasks[4].phase.id in s6.mutexes && TimeOut(s6, 4) == s7
    ensures Enabled(s7, GivesUp(4)) && Simple(s7, GivesUp(4)) && s7.tasks[4].phase.id in s7.mutexes
    ensures var h := s7.mutexes[s7.tasks[4].phase.id].holder; (h.Some? ==> h.value in s7.tasks) && GiveUp(s7, 4) == s8
    ensures 1 in s8.tasks && 4 in s8.tasks && s8.tasks[1] == Task(3, 1, 1, Out) && s8.tasks[4].base == 2
  {
    var low, high, mid, small := Task(2, 1, 1, Out), Task(4, 4, 0, Retries(0, true)), Task(3, 3, 0, Waits(0, true)), Task(2, 2, 0, Waits(0, true));
    var ts6, x6 := [Task(1, 1, 0, Out), low, high, mid, small], Mutex(0, Some(1), false, 0, [Entry(3, 2), Entry(4, 3)], {4});
    hide Scene, TimeOut, GiveUp, Enabled, Simple, Without;
    SceneTimesOut(ts6, x6, 4);
    SceneTask(ts6, x6, 4, ts6[4]);
    SceneMutex(ts6, x6, x6);
    Withouts();
    var ts7, x7 := ts6[4 := small.(phase := Retries(0, true))], x6.(waiting := [Entry(3, 2)]);
    s7 := Scene(ts7, x7);
    SceneTask(ts7, x7, 4, ts7[4]);
    SceneTask(ts7, x7, 1, ts7[1]);
    SceneMutex(ts7, x7, x7);
    SceneGivesUp(ts7, x7, 4, 1);
    var ts8 := ts7[4 := small.(phase := Out)][1 := low.(priority := 3)];
    s8 := Scene(ts8, x7);
    SceneTask(ts8, x7, 1, ts8[1]);
    SceneTask(ts8, x7, 4, ts8[4]);
  }

  lemma SceneTimesOut(ts: seq<Task>, x: Mutex, t: TaskId)
    requires t < |ts| && ts[t].phase == Waits(0, true)
    ensures var s := Scene(ts, x);
            && Enabled(s, TimesOut(t)) && Simple(s, TimesOut(t)) && s.tasks[t].phase.id in s.mutexes
            && TimeOut(s, t) == Scene(ts[t := ts[t].(phase := Retries(0, true))], x.(waiting := Without(x.waiting, t)))
  {
    hide Scene;
    SceneTask(ts, x, t, ts[t].(phase := Retries(0, true)));
    SceneMutex(ts, x, x);
    SceneMutex(ts[t := ts[t].(phase := Retries(0, true))], x, x.(waiting := Without(x.waiting, t)));
  }

  lemma SceneGivesUp(ts: seq<Task>, x: Mutex, t: TaskId, h: TaskId)
    requires t < |ts| && h < |ts| && t != h && ts[t].phase == Retries(0, true) && ts[h].held == 1 && x.holder == Some(h)
    requires forall i | 0 <= i < |x.waiting| :: x.waiting[i].owner != h
    requires HighestWaiting(x.waiting) > ts[h].base && ts[h].priority != HighestWaiting(x.waiting)
    ensures var s := Scene(ts, x);
            && Enabled(s, GivesUp(t)) && Simple(s, GivesUp(t)) && s.tasks[t].phase.id in s.mutexes && h in s.tasks
            && s.mutexes[s.tasks[t].phase.id].holder == Some(h)
            && GiveUp(s, t) == Scene(ts[t := ts[t].(phase := Out)][h := ts[h].(priority := HighestWaiting(x.waiting))], x)
  {
    hide Scene, SetPriority, HighestWaiting;
    var ts1 := ts[t := ts[t].(phase := Out)];
    SceneTask(ts, x, t, ts[t].(phase := Out));
    SceneTask(ts, x, h, ts[h]);
    SceneTask(ts1, x, h, ts1[h]);
    SceneMutex(ts, x, x);
    ScenePriority(ts1, x, h, HighestWaiting(x.waiting));
  }

  lemma Inserts()
    ensures Insert<TaskId>([], Entry(2, ItemValue(4))) == [Entry(2, 1)]
    ensures Insert<TaskId>([Entry(2, 1)], Entry(3, ItemValue(3))) == [Entry(2, 1), Entry(3, 2)]
    ensures Insert<TaskId>([Entry(3, 2)], Entry(4, ItemValue(2))) == [Entry(3, 2), Entry(4, 3)]
  {
  }

  lemma Withouts()
    ensures Without<TaskId>([Entry(3, 2), Entry(4, 3)], 4) == [Entry(3, 2)]
    ensures HighestWaiting([Entry(3, 2)]) == 3
  {
    var a, b: seq<Entry<TaskId>> := [Entry(3, 2), Entry(4, 3)], [Entry(4, 3)];
    assert a[1..] == b && b[1..] == [];
    assert Without<TaskId>([Entry(4, 3)], 4) == [];
  }

  lemma FiveAccounted(s0: State, s1: State, s2: State, s3: State, s4: State, s5: State)
    requires Accounted(s0) && Enabled(s0, Takes(0, 0)) && Take(s0, 0, 0) == s1
    requires Enabled(s1, Blocks(2, 0)) && (s1.mutexes[0].holder.Some? ==> s1.mutexes[0].holder.value in s1.tasks) && Block(s1, 2, 0) == s2
    requires Enabled(s2, Blocks(3, 0)) && (s2.mutexes[0].holder.Some? ==> s2.mutexes[0].holder.value in s2.tasks) && Block(s2, 3, 0) == s3
    requires Enabled(s3, Gives(0, 0)) && Give(s3, 0, 0) == s4
    requires Enabled(s4, Takes(1, 0)) && Take(s4, 1, 0) == s5
    ensures Accounted(s1) && Accounted(s2) && Accounted(s3) && Accounted(s4) && Accounted(s5)
  {
    hide Accounted, Enabled, Take, Block, Give;
    StepAccounted(s0, Takes(0, 0));
    StepAccounted(s1, Blocks(2, 0));
    StepAccounted(s2, Blocks(3, 0));
    StepAccounted(s3, Gives(0, 0));
    StepAccounted(s4, Takes(1, 0));
  }

  /** Five steps and the rest of a run. */
  lemma RunOn(s0: State, e0: Event, s1: State, e1: Event, s2: State, e2: Event, s3: State, e3: Event, s4: State, e4: Event, s5: State,
              es: seq<Event>)
    requires Accounted(s0) && Enabled(s0, e0) && Simple(s0, e0) && Step(s0, e0) == s1
    requires Enabled(s1, e1) && Simple(s1, e1) && (Accounted(s1) ==> Step(s1, e1) == s2)
    requires Enabled(s2, e2) && Simple(s2, e2) && (Accounted(s2) ==> Step(s2, e2) == s3)
    requires Enabled(s3, e3) && Simple(s3, e3) && (Accounted(s3) ==> Step(s3, e3) == s4)
    requires Enabled(s4, e4) && Simple(s4, e4) && (Accounted(s4) ==> Step(s4, e4) == s5)
    requires Accounted(s5) && AllowedRun(s5, es) && SimpleRun(s5, es)
    ensures var all := [e0] + ([e1] + ([e2] + ([e3] + ([e4] + es))));
            AllowedRun(s0, all) && SimpleRun(s0, all) && Run(s0, all) == Run(s5, es)
  {
    hide Accounted, AllowedRun, SimpleRun, Run, Step, Enabled, Simple;
    OneStep(s0, e0, s1, [e1] + ([e2] + ([e3] + ([e4] + es))));
    OneStep(s1, e1, s2, [e2] + ([e3] + ([e4] + es)));
    OneStep(s2, e2, s3, [e3] + ([e4] + es));
    OneStep(s3, e3, s4, [e4] + es);
    OneStep(s4, e4, s5, es);
  }

  // ---------------------------------------------------------------- the code in place

  /** The TCBs and mutexes as the kernel updates them.  A task's event list item, if it
      is on a list, carries the task's priority; `SetItemValue` changes it in place. */
  class Kernel {
    var tasks: map<TaskId, Task>
    var mutexes: map<Id, Mutex>

    ghost function Model(): State
      reads this
    {
      State(tasks, mutexes)
    }

    method SetItemValue(t: TaskId, value: nat)
      modifies this`mutexes
      ensures Model() == RetagAll(old(Model()), t, value)
    {
      mutexes := map m | m in mutexes :: mutexes[m].(waiting := Retag(mutexes[m].waiting, t, value));
    }

    /** xTaskPriorityInherit */
    method PriorityInherit(holder: Option<TaskId>, caller: TaskId) returns (inherited: bool)
      requires caller in tasks && (holder.Some? ==> holder.value in tasks)
      modifies this
      ensures (Model(), inherited) == Inherit(old(Model()), holder, old(tasks[caller].priority))
    {
      hide ItemValue;
      inherited := false;
      if holder.Some? {
        var p := tasks[caller].priority;
        if tasks[holder.value].priority < p {
          tasks := tasks[holder.value := tasks[holder.value].(priority := p)];
          SetItemValue(holder.value, ItemValue(p));
          inherited := true;
        } else if tasks[holder.value].base < p {
          inherited := true;
        }
      }
    }

    /** xTaskPriorityDisinherit; the assertions are the code's own */
    method PriorityDisinherit(t: TaskId)
      requires t in tasks && tasks[t].held > 0
      modifies this
      ensures Model() == Disinherit(old(Model()), t)
    {
      hide ItemValue;
      assert tasks[t].held > 0;
      tasks := tasks[t := tasks[t].(held := tasks[t].held - 1)];
      if tasks[t].priority != tasks[t].base {
        if tasks[t].held == 0 {
          ghost var v := tasks[t];
          tasks := tasks[t := tasks[t].(priority := tasks[t].base)];
          SetItemValue(t, ItemValue(tasks[t].priority));
        }
      }
    }

    /** vTaskPriorityDisinheritAfterTimeout */
    method PriorityDisinheritAfterTimeout(holder: Option<TaskId>, highest: nat)
      requires holder.Some? ==> holder.value in tasks && tasks[holder.value].held > 0
      modifies this
      ensures Model() == DisinheritAfterTimeout(old(Model()), holder, highest)
    {
      hide ItemValue;
      if holder.Some? {
        var h := holder.value;
        assert tasks[h].held > 0;
        var priority;
        if tasks[h].base < highest {
          priority := highest;
        } else {
          priority := tasks[h].base;
        }
        if tasks[h].priority != priority {
          if tasks[h].held == 1 {
            tasks := tasks[h := tasks[h].(priority := priority)];
            SetItemValue(h, ItemValue(priority));
          }
        }
      }
    }

    /** vTaskPrioritySet */
    method SetTaskPriority(t: TaskId, p: nat)
      requires t in tasks && p < MAX_PRIORITIES
      modifies this
      ensures Model() == PrioritySet(old(Model()), t, p)
    {
      hide ItemValue;
      if tasks[t].base != p {
        if tasks[t].base == tasks[t].priority || p > tasks[t].priority {
          tasks := tasks[t := tasks[t].(priority := p)];
        }
        tasks := tasks[t := tasks[t].(base := p)];
        SetItemValue(t, ItemValue(p));
      }
    }

    /** The taking part of xQueueSemaphoreTake and xQueueTakeMutexRecursive */
    method TakeMutex(t: TaskId, m: Id) returns (taken: bool)
      requires t in tasks && m in mutexes
      modifies this
      ensures Model() == Take(old(Model()), t, m)
      ensures taken <==> old(mutexes[m].recursive && mutexes[m].holder == Some(t)) || old(mutexes[m].count) > 0
    {
      if mutexes[m].recursive && mutexes[m].holder == Some(t) {
        mutexes := mutexes[m := mutexes[m].(calls := mutexes[m].calls + 1)];
        return true;
      }
      if mutexes[m].count == 0 {
        return false;
      }
      mutexes := mutexes[m := mutexes[m].(count := mutexes[m].count - 1, holder := Some(t),
                                          answers := NotAbove(tasks, mutexes[m].waiting, tasks[t].priority))];
      tasks := tasks[t := tasks[t].(held := tasks[t].held + 1, phase := Out)];
      if mutexes[m].recursive {
        mutexes := mutexes[m := mutexes[m].(calls := mutexes[m].calls + 1)];
      }
      taken := true;
    }

    /** The blocking part: priority inheritance and vTaskPlaceOnEventList */
    method BlockOnMutex(t: TaskId, m: Id)
      requires Accounted(Model()) && Enabled(Model(), Blocks(t, m))
      modifies this
      ensures Accounted(Model()) && Model() == Step(old(Model()), Blocks(t, m))
    {
      StepAccounted(Model(), Blocks(t, m));
      assert MutexOk(Model(), m);
      hide Accounted, Inherit, Insert, ItemValue;
      ghost var s := Model();
      InheritOk(s, m, tasks[t].priority);
      if mutexes[m].count == 0 {
        var p := tasks[t].priority;
        var inherited := PriorityInherit(mutexes[m].holder, t);
        assert (Model(), inherited) == Inherit(s, s.mutexes[m].holder, p);
        tasks := tasks[t := tasks[t].(phase := Waits(m, inherited))];
        var x := mutexes[m];
        mutexes := mutexes[m := x.(waiting := Insert(x.waiting, Entry(t, ItemValue(p))), answers := x.answers + {t})];
      }
    }

    /** xQueueGiveMutexRecursive, or a give of a mutex that is not recursive */
    method GiveMutex(t: TaskId, m: Id) returns (given: bool)
      requires Accounted(Model()) && Enabled(Model(), Gives(t, m))
      modifies this
      ensures Accounted(Model()) && Model() == Step(old(Model()), Gives(t, m))
      ensures given <==> old(mutexes[m].holder) == Some(t)
    {
      StepAccounted(Model(), Gives(t, m));
      hide Accounted;
      if mutexes[m].recursive {
        if mutexes[m].holder != Some(t) {
          return false;
        }
        mutexes := mutexes[m := mutexes[m].(calls := mutexes[m].calls - 1)];
        if mutexes[m].calls != 0 {
          return true;
        }
      }
      HeldPositive(old(Model()), t, m);
      ReleaseMutex(t, m);
      given := true;
    }

    /** xQueueGenericSend on a mutex */
    method ReleaseMutex(t: TaskId, m: Id)
      requires t in tasks && tasks[t].held > 0 && m in mutexes
      modifies this
      ensures Model() == Release(old(Model()), t, m)
    {
      hide ItemValue;
      DisinheritTasks(Model(), t);
      hide Disinherit;
      PriorityDisinherit(t);
      mutexes := mutexes[m := mutexes[m].(holder := None)];
      mutexes := mutexes[m := mutexes[m].(count := mutexes[m].count + 1)];
      assert Model() == Freed(Disinherit(old(Model()), t), m);
      if mutexes[m].waiting != [] {
        var w := mutexes[m].waiting[0].owner;
        mutexes := mutexes[m := mutexes[m].(waiting := mutexes[m].waiting[1..])];
        if w in tasks && tasks[w].phase.Waits? {
          tasks := tasks[w := tasks[w].(phase := Retries(m, tasks[w].phase.inherited))];
        }
      }
    }
  }

  lemma HeldPositive(s: State, t: TaskId, m: Id)
    requires Accounted(s) && m in s.mutexes && s.mutexes[m].holder == Some(t) && t in s.tasks
    ensures s.tasks[t].held > 0
  {
    HolderHolds(s, m);
  }
}
