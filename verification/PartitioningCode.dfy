/** The allocation of smp_test as main.c and task_manager.c write it: stacks, task
    and core records that are updated in place, and loops; proved to compute the
    functions of module `Partitioning`. */
module PartitioningCode {
  import opened Partitioning

  /** How the loop over UQ ends: the stack is empty; "ALL PROCESSORS FULLY UTILIZED";
      or it has popped a core, or taken a spare task, that is not there. */
  datatype End = AllPlaced | Full | MissingCore | MissingTask

  class Allocation {
    /** task_list and curr_idx */
    var tasks: seq<Task>
    var next: nat
    /** core_list, core_manager and pre_assigned_core */
    var cores: seq<Core>
    var normal: seq<nat>
    var pre: seq<nat>
    /** UQ */
    var uq: seq<nat>
    const bound: real
    ghost var placed: seq<seq<nat>>

    ghost function Model(): State
      reads this
    {
      State(tasks, next, cores, normal, pre, uq, bound, placed)
    }

    /** get_min_core, on the cores that were not given away */
    method GetMinCore() returns (c: nat)
      requires WellFormed(Model())
      ensures c == MinCore(Model()) && c < |cores|
    {
      var min := |normal| - 1;
      var i: nat := min;
      while i > 0
        invariant i <= min < |normal|
        invariant forall j | i <= j < |normal| :: cores[normal[min]].util <= cores[normal[j]].util
        invariant MinFrom(cores, normal, i, min) == MinFrom(cores, normal, |normal| - 1, |normal| - 1)
        decreases i
      {
        i := i - 1;
        if cores[normal[i]].util < cores[normal[min]].util {
          min := i;
        }
      }
      c := normal[min];
    }

    /** Push_task, on UQ */
    method PushTask(t: nat)
      modifies this`uq
      ensures Model() == Push(old(Model()), t)
    {
      if |uq| < |tasks| {
        uq := uq + [t];
      }
    }

    /** Assign_task */
    method AssignTask(t: nat, c: nat)
      requires t < |tasks| && c < |cores| == |placed|
      modifies this`cores, this`placed
      ensures Model() == Assign(old(Model()), t, c)
    {
      cores := cores[c := cores[c].(util := cores[c].util + tasks[t].util)];
      placed := placed[c := placed[c] + [t]];
    }

    /** new_task: false when there is no spare task left */
    method NewTask() returns (found: bool, t: nat)
      modifies this`next
      ensures found <==> old(next) < |tasks|
      ensures found ==> t == old(next) && Model() == old(Model()).(next := t + 1)
      ensures !found ==> Model() == old(Model())
    {
      if next >= |tasks| {
        found, t := false, 0;
      } else {
        found, t, next := true, next, next + 1;
      }
    }

    /** Task_split, with the spare task it is given for the tail */
    method TaskSplit(t: nat, tail: nat, c: nat)
      requires t < tail < |tasks| && c < |cores| && next == tail + 1
      modifies this`tasks, this`uq
      ensures Model() == Split(old(Model()).(next := tail), t, c)
    {
      var body, room := tasks[t], bound - cores[c].util;
      var runtime := (room * body.period as real).Floor;
      var rest := Task(body.name, body.priority, body.period, body.runtime - runtime, body.util - room,
                       false, body.subnum + 1, false);
      ghost var s := Model().(next := tail);
      tasks := tasks[t := body.(util := room, runtime := runtime, split := true)][tail := rest];
      assert rest == Tail(body, room);
      assert body.(util := room, runtime := runtime, split := true) == Body(body, room);
      assert tasks == s.tasks[t := Body(body, room)][s.next := Tail(body, room)];
      assert Model() == s.(tasks := s.tasks[t := Body(body, room)][s.next := Tail(body, room)], next := s.next + 1);
      PushTask(tail);
    }

    /** Assign, or split and assign; a core that was given away goes back on its stack. */
    method PlaceTask(t: nat, c: nat) returns (found: bool)
      requires WellFormed(Model()) && t < next && c < |cores|
      modifies this`tasks, this`next, this`cores, this`uq, this`pre, this`placed
      ensures found <==> PlaceOn(old(Model()), t, c).Next?
      ensures found ==> Model() == PlaceOn(old(Model()), t, c).s
      ensures !found ==> PlaceOn(old(Model()), t, c).NoTask?
    {
      if cores[c].util + tasks[t].util <= bound {
        AssignTask(t, c);
      } else {
        var tail;
        found, tail := NewTask();
        if !found {
          return;
        }
        TaskSplit(t, tail, c);
        AssignTask(t, c);
      }
      if cores[c].preAssigned {
        pre := pre + [c];
      }
      found := true;
    }

    /** The loop over UQ. */
    method NormalAssign() returns (end: End)
      requires WellFormed(Model())
      modifies this`tasks, this`next, this`cores, this`uq, this`pre, this`placed
      ensures match Run(old(Model()))
              case Next(s) => end == AllPlaced && Model() == s
              case FullyUtilized(s) => end == Full && Model() == s
              case NoCore => end == MissingCore
              case NoTask => end == MissingTask
    {
      hide WellFormed, PlaceOn, MinCore, Partitioning.Full;
      while uq != []
        invariant WellFormed(Model())
        invariant Run(Model()) == Run(old(Model()))
        decreases |cores| - Partitioning.Full(cores, bound), |uq|
      {
        ghost var s := Model();
        PlaceProgress(s);
        PopFacts(s);
        var c := GetMinCore();
        var t := uq[|uq| - 1];
        uq := uq[..|uq| - 1];
        if cores[c].util >= bound {
          if pre == [] {
            return MissingCore;
          }
          c := pre[|pre| - 1];
          pre := pre[..|pre| - 1];
          if cores[c].util >= bound {
            return Full;
          }
        }
        var found := PlaceTask(t, c);
        if !found {
          return MissingTask;
        }
      }
      end := AllPlaced;
    }

    /** simple_test */
    method TestSimple(i: nat, number: nat) returns (passes: bool)
      requires number <= |tasks|
      ensures passes == SimpleTest(Model(), i, number)
    {
      var sum := 0.0;
      var j := i + 1;
      while j < number
        invariant sum + SimpleSum(tasks, j, number) == SimpleSum(tasks, i + 1, number)
        decreases number - j
      {
        sum := sum + tasks[j].util;
        j := j + 1;
      }
      passes := !(sum > (|normal| - 1) as real * bound);
    }

    /** A heavy task gets the core on top of the stack for itself. */
    method GiveCore(i: nat)
      requires normal != [] && i < |tasks| && normal[|normal| - 1] < |cores| == |placed|
      modifies this`cores, this`normal, this`pre, this`placed
      ensures Model() == AfterPre(old(Model()), i) && |placed| == |cores| == old(|cores|)
      ensures normal == old(normal)[..|old(normal)| - 1]
    {
      var c := normal[|normal| - 1];
      normal := normal[..|normal| - 1];
      AssignTask(i, c);
      cores := cores[c := cores[c].(preAssigned := true)];
      pre := pre + [c];
    }

    /** The loop that gives cores to heavy tasks; false if it runs out of cores. */
    method PreAssignTasks(number: nat) returns (ok: bool)
      requires number <= |tasks| && |placed| == |cores|
      requires forall j | 0 <= j < |normal| :: normal[j] < |cores|
      modifies this`cores, this`normal, this`pre, this`uq, this`placed
      ensures ok <==> PreAssign(old(Model()), 0, number).Next?
      ensures ok ==> Model() == PreAssign(old(Model()), 0, number).s
    {
      hide SimpleTest, SimpleSum, Push, Assign;
      var i := 0;
      while i < number
        invariant i <= number && tasks == old(tasks) && |placed| == |cores|
        invariant forall j | 0 <= j < |normal| :: normal[j] < |cores|
        invariant PreAssign(Model(), i, number) == PreAssign(old(Model()), 0, number)
        decreases number - i
      {
        var simple := false;
        if tasks[i].heavy {
          simple := TestSimple(i, number);
        }
        if simple {
          if normal == [] {
            return false;
          }
          GiveCore(i);
        } else {
          ghost var s := Model();
          PushTask(i);
          PushSame(s, i);
        }
        i := i + 1;
      }
      ok := true;
    }
  }

  lemma PushSame(s: State, t: nat)
    ensures Push(s, t) == s.(uq := Push(s, t).uq)
  {
  }

  /** What a round pops is there. */
  lemma PopFacts(s: State)
    requires WellFormed(s) && s.uq != []
    ensures var s1 := s.(uq := s.uq[..|s.uq| - 1]); WellFormed(s1) && Last(s) < s.next && MinCore(s1) == MinCore(s)
    ensures s.pre != [] ==>
              s.pre[|s.pre| - 1] < |s.cores|
              && WellFormed(s.(uq := s.uq[..|s.uq| - 1], pre := s.pre[..|s.pre| - 1]))
  {
  }
}
