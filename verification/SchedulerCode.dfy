/** The multi-core scheduler as tasks.c writes it, with its loops and its updates in
    place; each method is proved to compute the function of module `Scheduler` about
    which the properties are proved. */
module SchedulerCode {
  import opened Common
  import opened Scheduler

  class Kernel {
    var tcbs: map<Task, Tcb>
    var ready: seq<seq<Task>>
    var top: int
    var current: seq<Task>
    var pending: seq<bool>
    var terminating: seq<Task>
    const multiple: bool

    ghost function Model(): State
      reads this
    {
      State(tcbs, ready, top, current, pending, terminating, multiple)
    }

    /** What the scheduler's own code relies on; it follows from `Inv`. */
    ghost predicate Valid()
      reads this
    {
      Mapped(Model()) && Listed(Model()) && 0 <= top < |ready|
    }

    /** taskTASK_IS_RUNNING */
    predicate TaskIsRunning(t: Task)
      requires t in tcbs
      reads this
      ensures TaskIsRunning(t) == IsRunning(Model(), t)
    {
      0 <= tcbs[t].run < |current|
    }

    method SetRunState(t: Task, run: int)
      requires t in tcbs
      modifies this`tcbs
      ensures Model() == SetRun(old(Model()), t, run)
    {
      tcbs := tcbs[t := tcbs[t].(run := run)];
    }

    /** prvYieldCore */
    method YieldCore(caller: Core, c: Core)
      requires Valid() && c < |current|
      modifies this`tcbs, this`pending
      ensures Valid() && Model() == Scheduler.YieldCore(old(Model()), caller, c)
    {
      YieldCoreSame(Model(), caller, c);
      SameListed(Model(), Scheduler.YieldCore(Model(), caller, c));
      if c == caller {
        pending := pending[c := true];
      } else if tcbs[current[c]].run != SCHEDULED_TO_YIELD {
        SetRunState(current[c], SCHEDULED_TO_YIELD);
      }
      assert Model() == Scheduler.YieldCore(old(Model()), caller, c);
    }

    /** prvYieldForTask */
    method YieldForTask(caller: Core, t: Task)
      requires Valid() && t in tcbs
      modifies this`tcbs, this`pending
      ensures Valid() && Model() == Scheduler.YieldForTask(old(Model()), caller, t)
    {
      hide Mapped, Listed, YieldVisit;
      if if multiple then !TaskIsRunning(t) else tcbs[t].priority >= top {
        ghost var search0 := Search(Model(), tcbs[t].priority - 1, None, 0);
        var lowest := tcbs[t].priority - 1;
        var lowestCore: Option<Core>, yielded: nat := None, 0;
        YieldLoopSame(search0, caller, t, 0);
        var x: Core := 0;
        while x < |current|
          invariant Valid() && t in tcbs && x <= |current|
          invariant unchanged(`ready, `top, `current, `terminating) && tcbs.Keys == old(tcbs.Keys)
          invariant lowestCore.Some? ==> lowestCore.value < |current|
          invariant YieldLoop(Search(Model(), lowest, lowestCore, yielded), caller, t, x) == YieldLoop(search0, caller, t, 0)
          decreases |current| - x
        {
          ghost var v := Search(Model(), lowest, lowestCore, yielded);
          YieldVisitSame(v, caller, t, x);
          VisitValid(v, caller, t, x);
          lowest, lowestCore, yielded := Visit(caller, t, x, lowest, lowestCore, yielded);
          x := x + 1;
        }
        if lowestCore.Some? && (multiple || yielded == 0) {
          YieldCore(caller, lowestCore.value);
        }
      }
    }

    /** The body of its loop. */
    method Visit(caller: Core, t: Task, x: Core, lowest0: int, core0: Option<Core>, yielded0: nat)
      returns (lowest: int, core: Option<Core>, yielded: nat)
      requires Valid() && t in tcbs && x < |current|
      modifies this`tcbs, this`pending
      ensures Valid()
      ensures Search(Model(), lowest, core, yielded) == YieldVisit(Search(old(Model()), lowest0, core0, yielded0), caller, t, x)
    {
      MappedCurrent(Model());
      hide Mapped, Listed;
      lowest, core, yielded := lowest0, core0, yielded0;
      var priority: int := tcbs[current[x]].priority;
      if tcbs[current[x]].idle {
        priority := priority - 1;
      }
      if TaskIsRunning(current[x]) && !pending[x] {
        if multiple || !TaskIsRunning(t) {
          if priority <= lowest {
            if x in tcbs[t].mask {
              lowest, core := priority, Some(x);
            }
          }
        }
        if !multiple && priority > -1 && priority < tcbs[t].priority {
          YieldCore(caller, x);
          yielded := yielded + 1;
        }
      }
    }

    /** prvSelectHighestPriorityTask */
    method SelectHighestPriorityTask(c: Core)
      requires Valid() && c < |current| && First(Rotate(Model(), c), Rotate(Model(), c).ready[0], c, true) < |Rotate(Model(), c).ready[0]|
      requires TopBounds(Model())
      modifies this`tcbs, this`ready, this`top, this`current, this`pending
      ensures Model() == Select(old(Model()), c)
    {
      hide Mapped, Listed, Scan, Rotate, Assign, Settle, First, EmptyAbove, Right;
      RotateSame(Model(), c);
      RotateReady(c);
      ghost var s1 := Model();
      TopStays(old(Model()), s1);
      ScanRight(s1, c, top, true, top, false);
      ghost var r := Scan(s1, c, top, true, top, false);
      RightTask(s1, c, r);
      var previous, dropped := ChooseTask(c);
      ghost var s2 := s1.(top := r.top);
      AssignValid(s1, c, r);
      SettleCores(c, dropped, previous);
      assert Model() == Select(old(Model()), c);
    }

    /** Everything behind the choice. */
    method SettleCores(c: Core, dropped: bool, previous: Option<Task>)
      requires Valid() && c < |current| && (previous.Some? ==> previous.value in tcbs)
      modifies this`tcbs, this`pending
      ensures Valid() && Model() == Settle(old(Model()), c, dropped, previous)
    {
      hide Mapped, Listed, YieldIdle, Displace;
      SameItself(Model());
      YieldIdleSame(Model(), c, 0);
      SamePlaced(Model(), if dropped then YieldIdle(Model(), c, 0) else Model());
      if dropped {
        YieldIdleCores(c);
      }
      if previous.Some? {
        TaskPriority(Model(), previous.value);
        if previous.value in ready[tcbs[previous.value].priority] {
          DisplaceTask(c, previous.value);
        }
      }
    }

    /** The running task goes to the end of its ready list. */
    method RotateReady(c: Core)
      requires Valid() && c < |current|
      modifies this`ready
      ensures Valid() && Model() == Rotate(old(Model()), c)
    {
      RotateSame(Model(), c);
      var t := current[c];
      var p := tcbs[t].priority;
      if t in ready[p] {
        ready := ready[p := Without(ready[p], t)];
        ready := ready[p := ready[p] + [t]];
      }
      assert Model() == Rotate(old(Model()), c);
    }

    /** The loop over the priorities. */
    method ChooseTask(c: Core) returns (previous: Option<Task>, dropped: bool)
      requires Valid() && c < |current|
      requires Scan(Model(), c, top, true, top, false).task.Some?
      modifies this`tcbs, this`top, this`current
      ensures var s := old(Model());
              var r := Scan(s, c, s.top, true, s.top, false);
              && s.current[c] in s.tcbs
              && Model() == Assign(s.(top := r.top), c, r.task.value)
              && dropped == r.dropped
              && previous == if s.tcbs[r.task.value].run == NOT_RUNNING then Some(s.current[c]) else None
    {
      hide Mapped, Listed, First, Eligible;
      ghost var s := Model();
      MappedCurrent(s);
      ghost var r := Scan(s, c, top, true, top, false);
      var priority: nat := top;
      var scheduled, decrement := false, true;
      previous, dropped := None, false;
      while !scheduled
        invariant priority < |ready| && unchanged(`ready, `pending, `terminating) && c < |current|
        invariant !scheduled ==> previous == None && Model() == s.(top := top)
        invariant !scheduled ==> Scan(s, c, priority, decrement, top, dropped) == r
        invariant scheduled ==> Model() == Assign(s.(top := r.top), c, r.task.value) && dropped == r.dropped
        invariant scheduled ==> previous == if s.tcbs[r.task.value].run == NOT_RUNNING then Some(s.current[c]) else None
        decreases if scheduled then 0 else 1, priority
      {
        if !multiple {
          if priority < top {
            priority := 0;
          }
        }
        if ready[priority] != [] {
          decrement := false;
          scheduled, previous := ScanList(c, priority, s);
        } else if decrement {
          top := top - 1;
          if !multiple {
            dropped := true;
          }
        }
        if priority > 0 {
          priority := priority - 1;
        } else {
          break;
        }
      }
    }

    /** The loop over one ready list. */
    method ScanList(c: Core, priority: nat, ghost s: State) returns (scheduled: bool, previous: Option<Task>)
      requires priority < |ready| && c < |current| && Model() == s.(top := top) && Mapped(s) && Listed(s)
      modifies this`tcbs, this`current
      ensures var list := s.ready[priority];
              var k := First(s, list, c, !s.multiple && priority < top);
              && c < |s.current| && s.current[c] in s.tcbs
              && (scheduled <==> k < |list|)
              && (!scheduled ==> previous == None && Model() == s.(top := top))
              && (scheduled ==> list[k] in s.tcbs && Model() == Assign(s.(top := top), c, list[k]) &&
                                previous == if s.tcbs[list[k]].run == NOT_RUNNING then Some(s.current[c]) else None)
    {
      MappedCurrent(s);
      hide Mapped, Listed, Assign, Eligible;
      var list := ready[priority];
      var onlyIdle := !multiple && priority < top;
      scheduled, previous := false, None;
      var i: nat := 0;
      while i < |list|
        invariant i <= |list| && c < |current| && !scheduled && previous == None && Model() == s.(top := top)
        invariant First(s, list, c, onlyIdle) == i + First(s, list[i..], c, onlyIdle)
        decreases |list| - i
      {
        ListedHere(s, priority, i);
        assert list[i..][0] == list[i] && list[i..][1..] == list[i + 1..];
        EligibleTop(s, list[i], c, onlyIdle, top);
        scheduled, previous := TakeTask(c, list[i], onlyIdle);
        if scheduled {
          break;
        }
        i := i + 1;
      }
    }

    /** What it does with one task of the list. */
    method TakeTask(c: Core, t: Task, onlyIdle: bool) returns (scheduled: bool, previous: Option<Task>)
      requires t in tcbs && c < |current| && current[c] in tcbs
      modifies this`tcbs, this`current
      ensures scheduled <==> Eligible(old(Model()), t, c, onlyIdle)
      ensures Model() == if scheduled then Assign(old(Model()), c, t) else old(Model())
      ensures previous == if scheduled && old(tcbs[t].run) == NOT_RUNNING then Some(old(current[c])) else None
    {
      scheduled, previous := false, None;
      if onlyIdle && !tcbs[t].idle {
        return;
      }
      if tcbs[t].run == NOT_RUNNING {
        if c in tcbs[t].mask {
          SetRunState(current[c], NOT_RUNNING);
          previous := Some(current[c]);
          SetRunState(t, c);
          current := current[c := t];
          scheduled := true;
        }
      } else if t == current[c] {
        if c in tcbs[t].mask {
          SetRunState(t, c);
          scheduled := true;
        }
      }
    }

    /** All cores that run idle tasks yield. */
    method YieldIdleCores(c: Core)
      requires Valid() && c < |current|
      modifies this`tcbs, this`pending
      ensures Valid() && Model() == YieldIdle(old(Model()), c, 0)
    {
      hide Mapped, Listed;
      var x := 0;
      while x < |current|
        invariant Valid() && x <= |current| && current == old(current)
        invariant YieldIdle(Model(), c, x) == YieldIdle(old(Model()), c, 0)
        decreases |current| - x
      {
        MappedCurrent(Model());
        if tcbs[current[x]].idle {
          YieldCore(c, x);
        }
        x := x + 1;
      }
    }

    /** The evicted task may displace another. */
    method DisplaceTask(c: Core, evicted: Task)
      requires Valid() && c < |current| && evicted in tcbs
      modifies this`tcbs, this`pending
      ensures Valid() && Model() == Displace(old(Model()), c, evicted)
    {
      MappedCurrent(Model());
      hide Mapped, Listed, CoreFor;
      var cores := tcbs[evicted].mask;
      var lowest: int := tcbs[evicted].priority;
      if tcbs[evicted].idle {
        lowest := lowest - 1;
      }
      if c in cores {
        cores := cores - tcbs[current[c]].mask;
      }
      var lowestCore := FindCore(cores, lowest);
      if lowestCore.Some? {
        YieldCore(c, lowestCore.value);
      }
    }

    /** Its search for a core. */
    method FindCore(candidates: set<Core>, from: int) returns (lowestCore: Option<Core>)
      requires Valid()
      ensures lowestCore == CoreFor(Model(), candidates, |current|, from, None)
    {
      MappedCurrent(Model());
      hide Mapped, Listed;
      var cores, lowest := candidates, from;
      lowestCore := None;
      var x: nat := |current|;
      while x > 0
        invariant x <= |current|
        invariant forall y | y < x :: y in cores <==> y in candidates
        invariant CoreFor(Model(), candidates, x, lowest, lowestCore) == CoreFor(Model(), candidates, |current|, from, None)
        decreases x
      {
        x := x - 1;
        if x in cores {
          var priority: int := tcbs[current[x]].priority;
          if tcbs[current[x]].idle {
            priority := priority - 1;
          }
          cores := cores - {x};
          if priority < lowest && TaskIsRunning(current[x]) && !pending[x] {
            lowest, lowestCore := priority, Some(x);
          }
        }
      }
    }

    /** vTaskSwitchContext */
    method SwitchContext(c: Core, suspended: bool)
      requires Inv(Model()) && c < |current|
      modifies this`tcbs, this`ready, this`top, this`current, this`pending
      ensures Inv(Model()) && Model() == Step(old(Model()), Switch(c, suspended))
    {
      hide Shape, MapSafe, Select;
      StepInv(Model(), Switch(c, suspended));
      PendingSet(Model(), c, suspended);
      if suspended {
        pending := pending[c := true];
      } else {
        pending := pending[c := false];
        SelectReady(Model(), c);
        SelectHighestPriorityTask(c);
      }
    }

    /** vTaskCoreAffinitySet */
    method CoreAffinitySet(c: Core, t: Task, mask: set<Core>)
      requires Inv(Model()) && Enabled(Model(), SetAffinity(c, t, mask))
      modifies this`tcbs, this`pending
      ensures Inv(Model()) && Model() == Step(old(Model()), SetAffinity(c, t, mask))
    {
      hide Shape, MapSafe;
      StepInv(Model(), SetAffinity(c, t, mask));
      InvMapped(Model());
      RunsThere(Model(), t);
      MaskMapped(Model(), t, mask);
      MaskListed(Model(), t, mask);
      hide Mapped, Listed;
      tcbs := tcbs[t := tcbs[t].(mask := mask)];
      if TaskIsRunning(t) {
        var core := tcbs[t].run;
        if core !in mask {
          YieldCore(c, core);
        }
      } else {
        YieldForTask(c, t);
      }
    }

    /** vTaskDelete, with prvDeleteTCB for a task that does not run */
    method DeleteTask(c: Core, t: Task)
      requires Inv(Model()) && Enabled(Model(), Delete(c, t))
      modifies this`tcbs, this`ready, this`terminating, this`pending
      ensures Inv(Model()) && Model() == Step(old(Model()), Delete(c, t))
    {
      StepInv(Model(), Delete(c, t));
      UnlistShape(Model(), t);
      RunsThere(Model(), t);
      var p := tcbs[t].priority;
      ghost var unlisted := Unlist(Model(), t);
      if t in ready[p] {
        ready := ready[p := Without(ready[p], t)];
      }
      assert Model() == unlisted;
      hide Shape, Outstanding, Unlist;
      if tcbs[t].run != NOT_RUNNING {
        terminating := terminating + [t];
        if TaskIsRunning(t) {
          DeletedValid(old(Model()), unlisted, Model());
          hide Mapped, Listed;
          YieldCore(c, tcbs[t].run);
        }
      } else {
        tcbs := tcbs - {t};
      }
    }

    /** prvCheckTasksWaitingTermination, run by an idle task: what it frees runs on
        no core, and it stops at the first deleted task that still does. */
    method CheckTasksWaitingTermination()
      requires Inv(Model())
      modifies this`tcbs, this`terminating
      ensures Inv(Model())
      ensures forall t | t in old(tcbs) && t !in tcbs :: t !in current
      ensures forall t | t in old(tcbs) && t !in tcbs :: t in old(terminating)
      ensures |terminating| <= |old(terminating)|
      ensures terminating == old(terminating)[|old(terminating)| - |terminating|..]
      ensures terminating != [] ==> tcbs[terminating[0]].run != NOT_RUNNING
    {
      hide Shape, MapSafe, Step;
      while terminating != []
        invariant Inv(Model())
        invariant forall t | t in old(tcbs) && t !in tcbs :: t !in current
        invariant forall t | t in old(tcbs) && t !in tcbs :: t in old(terminating)
        invariant |terminating| <= |old(terminating)| && terminating == old(terminating)[|old(terminating)| - |terminating|..]
        decreases |terminating|
      {
        var t := terminating[0];
        CleanUpStep(Model());
        assert t in old(terminating);
        if tcbs[t].run == NOT_RUNNING {
          terminating := terminating[1..];
          tcbs := tcbs - {t};
        } else {
          break;
        }
      }
    }

    /** The time slicing of xTaskIncrementTick */
    method SliceTime(c: Core)
      requires Inv(Model()) && c < |current|
      modifies this`pending
      ensures Inv(Model()) && Model() == Step(old(Model()), TickSlice(c))
    {
      TimeSliceInv(Model());
      ghost var s := Model();
      hide Inv, SamePlaces;
      SliceStep(s, c);
      var x := 0;
      while x < |current|
        invariant x <= |current| && Mapped(s) && |pending| == |s.pending| && Model() == s.(pending := pending)
        invariant forall y | 0 <= y < |pending| :: pending[y] == (s.pending[y] || (y < x && Shares(s, y)))
      {
        if tcbs[current[x]].priority < |ready| && |ready[tcbs[current[x]].priority]| > 1 {
          pending := pending[x := true];
        }
        x := x + 1;
      }
      assert pending == TimeSlice(s).pending;
    }

    /** prvAddTaskToReadyList and the request for room that follows it */
    method AddTaskToReadyList(c: Core, t: Task)
      requires Inv(Model()) && Enabled(Model(), MakeReady(c, t))
      modifies this`tcbs, this`ready, this`top, this`pending
      ensures Inv(Model()) && Model() == Step(old(Model()), MakeReady(c, t))
    {
      StepInv(Model(), MakeReady(c, t));
      AddShape(Model(), t);
      ListsMapSafe(Model(), AddToReady(Model(), t));
      var p := tcbs[t].priority;
      ghost var added := AddToReady(Model(), t);
      if p > top {
        top := p;
      }
      ready := ready[p := ready[p] + [t]];
      assert Model() == added;
      hide Mapped, Listed, Outstanding, IdleReady, Deleted, EnoughIdle;
      YieldForTask(c, t);
    }
  }

  lemma SelectReady(s: State, c: Core)
    requires Mapped(s) && Shape(s) && c < |s.current| && OthersOutstanding(s, c)
    ensures Listed(s) && TopBounds(s) && |Rotate(s, c).ready| == |s.ready|
    ensures Rotate(s, c).current == s.current
    ensures First(Rotate(s, c), Rotate(s, c).ready[0], c, true) < |Rotate(s, c).ready[0]|
    ensures Inv(Select(s, c))
  {
    RotateShape(s, c);
    IdleFree(Rotate(s, c), c);
    SelectRight(s, c);
  }

  lemma SliceStep(s: State, c: Core)
    requires Inv(s) && c < |s.current|
    ensures Mapped(s) && Enabled(s, TickSlice(c)) && Step(s, TickSlice(c)) == TimeSlice(s)
  {
  }

  lemma MaskListed(s: State, t: Task, mask: set<Core>)
    requires Inv(s) && t in s.tcbs
    ensures Listed(s.(tcbs := s.tcbs[t := s.tcbs[t].(mask := mask)])) && 0 <= s.top < |s.ready|
  {
  }

  lemma InvMapped(s: State)
    requires Inv(s)
    ensures Mapped(s)
  {
  }

  lemma DeletedValid(s: State, u: State, s': State)
    requires Inv(s) && Shape(u) && u == s.(ready := u.ready) && s' == u.(terminating := s'.terminating)
    ensures Mapped(s') && Listed(s') && 0 <= s'.top < |s'.ready|
  {
  }

  /** The head of the termination list can be freed, or stays. */
  lemma CleanUpStep(s: State)
    requires Inv(s) && s.terminating != []
    ensures s.terminating[0] in s.tcbs
    ensures s.tcbs[s.terminating[0]].run == NOT_RUNNING ==>
              && Inv(Free(s.(terminating := s.terminating[1..]), s.terminating[0]))
              && s.terminating[0] !in s.current
  {
    CleanUpInv(s);
    RunsThere(s, s.terminating[0]);
  }

  lemma SameListed(s: State, s': State)
    requires Listed(s) && (SameLists(s, s') || SamePlaces(s, s'))
    ensures Listed(s')
  {
  }

  lemma VisitValid(v: Search, caller: Core, t: Task, x: Core)
    requires Mapped(v.s) && Listed(v.s) && t in v.s.tcbs && x < |v.s.current|
    ensures Listed(YieldVisit(v, caller, t, x).s)
  {
  }

  lemma EligibleTop(s: State, t: Task, c: Core, onlyIdle: bool, top: int)
    requires c < |s.current|
    ensures Eligible(s.(top := top), t, c, onlyIdle) == Eligible(s, t, c, onlyIdle)
  {
  }

  lemma RightTask(s: State, c: Core, r: Choice)
    requires c < |s.current| && |s.ready| > 0 && Right(s, c, r)
    ensures r.task.Some? && 0 <= r.top < |s.ready|
  {
  }

  lemma AssignValid(s: State, c: Core, r: Choice)
    requires Mapped(s) && Listed(s) && c < |s.current| && r.task.Some? && 0 <= r.top < |s.ready|
    requires Eligible(s, r.task.value, c, false)
    ensures Mapped(s.(top := r.top)) && Eligible(s.(top := r.top), r.task.value, c, false)
    ensures var s3 := Assign(s.(top := r.top), c, r.task.value);
            Mapped(s3) && Listed(s3) && |s3.current| == |s.current| && s3.tcbs.Keys == s.tcbs.Keys && s3.top == r.top
            && s3.ready == s.ready && s.current[c] in s.tcbs
  {
    AssignMapped(s.(top := r.top), c, r.task.value);
    AssignLists(s.(top := r.top), c, r.task.value);
    SameListed(s, Assign(s.(top := r.top), c, r.task.value).(top := s.top));
  }

  lemma TaskPriority(s: State, t: Task)
    requires Listed(s) && t in s.tcbs
    ensures s.tcbs[t].priority < |s.ready|
  {
  }

  lemma TopStays(s: State, s1: State)
    requires TopBounds(s) && s1 == s.(ready := s1.ready) && |s1.ready| == |s.ready|
    requires forall p | 0 <= p < |s.ready| :: s1.ready[p] == [] <==> s.ready[p] == []
    ensures TopBounds(s1)
  {
  }
}
