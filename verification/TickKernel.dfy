/** The part of tasks.c that counts ticks and keeps delayed tasks, as the source
    has it: global variables updated in place, loops over the lists.

    Each method is tied to the functions of modules `DelayedLists` and `Suspension`;
    `now` and `due` are the unbounded clock and the table of deadlines those stand for. */
module TickKernel {
  import opened ListSpec
  import opened DelayedLists
  import opened Suspension

  class Kernel {
    var tick: nat
    var next: nat
    var overflows: nat
    var delayed: seq<Entry<Task>>
    var overflow: seq<Entry<Task>>
    /** xSuspendedTaskList, whose order nothing depends on */
    var indefinite: set<Task>
    var pendingReady: seq<Task>
    var ready: seq<Task>
    var suspended: nat
    var pended: nat
    ghost var now: nat
    ghost var due: map<Task, nat>

    ghost function Model(): State
      reads this
    {
      State(tick, delayed, overflow, next)
    }

    ghost function Whole(): Suspension.Kernel
      reads this
    {
      Suspension.Kernel(Model(), suspended, pended, pendingReady)
    }

    /** Whoever is pending waits with a time-out or without, and is pending once. */
    ghost predicate Consistent()
      reads this
    {
      && Inv(Model(), now, due) && overflows == now / WRAP % WRAP && pended < WRAP
      && NoneTwice(pendingReady) && indefinite !! due.Keys
      && (forall i | 0 <= i < |pendingReady| :: pendingReady[i] in due || pendingReady[i] in indefinite)
    }

    /** While the scheduler runs nothing is held back. */
    ghost predicate Valid()
      reads this
    {
      Consistent() && (suspended == 0 ==> pended == 0 && pendingReady == [])
    }

    constructor ()
      ensures Valid() && now == 0 && due == map[] && suspended == 0 && pended == 0
    {
      tick, next, overflows := 0, MAX_DELAY, 0;
      delayed, overflow, indefinite, pendingReady, ready := [], [], {}, [], [];
      suspended, pended := 0, 0;
      now, due := 0, map[];
    }

    /** prvResetNextTaskUnblockTime */
    method ResetNextUnblockTime()
      modifies this`next
      ensures next == HeadValue(delayed)
    {
      if delayed == [] {
        next := MAX_DELAY;
      } else {
        next := delayed[0].value;
      }
    }

    /** taskSWITCH_DELAYED_LISTS; the list that becomes the overflow list must be empty. */
    method SwitchDelayedLists()
      requires delayed == []
      modifies this`delayed, this`overflow, this`overflows, this`next
      ensures Model() == Switch(old(Model())) && overflows == (old(overflows) + 1) % WRAP
    {
      var temp := delayed;
      delayed := overflow;
      overflow := temp;
      overflows := (overflows + 1) % WRAP;
      ResetNextUnblockTime();
    }

    /** prvAddCurrentTaskToDelayedList */
    method AddCurrentTaskToDelayedList(t: Task, ticks: nat, canBlockIndefinitely: bool)
      requires Valid() && t !in due && t !in indefinite && 0 < ticks < WRAP
      modifies this`delayed, this`overflow, this`next, this`indefinite, this`due
      ensures Valid()
      ensures ticks == MAX_DELAY && canBlockIndefinitely ==>
                Model() == old(Model()) && due == old(due) && indefinite == old(indefinite) + {t}
      ensures !(ticks == MAX_DELAY && canBlockIndefinitely) ==>
                Model() == Block(old(Model()), t, ticks) && due == old(due)[t := now + ticks] && indefinite == old(indefinite)
    {
      hide Inv, Insert;
      if ticks == MAX_DELAY && canBlockIndefinitely {
        indefinite := indefinite + {t};
      } else {
        BlockInv(Model(), now, due, t, ticks);
        var wake := (tick + ticks) % WRAP;
        if wake < tick {
          overflow := Insert(overflow, Entry(t, wake));
        } else {
          delayed := Insert(delayed, Entry(t, wake));
          if wake < next {
            next := wake;
          }
        }
        due := due[t := now + ticks];
      }
    }

    /** The waking loop of xTaskIncrementTick. */
    method ReadyExpired()
      modifies this`delayed, this`next, this`ready
      ensures var k := InsertPos(old(delayed), tick);
              && delayed == old(delayed)[k..] && ready == old(ready) + Owners(old(delayed)[..k])
              && next == HeadValue(delayed)
    {
      hide InsertPos;
      ghost var d, k := delayed, 0;
      assert Owners(d[..0]) == [];
      while true
        invariant k <= |d| && delayed == d[k..] && ready == old(ready) + Owners(d[..k])
        invariant forall i | 0 <= i < k :: d[i].value <= tick
        decreases |delayed|
      {
        if delayed == [] {
          next := MAX_DELAY;
          break;
        }
        if tick < delayed[0].value {
          next := delayed[0].value;
          break;
        }
        ready := ready + [delayed[0].owner];
        delayed := delayed[1..];
        assert Owners(d[..k + 1]) == Owners(d[..k]) + [d[k].owner];
        k := k + 1;
      }
      InsertPosUnique(d, tick, k);
    }

    /** The waking part of xTaskIncrementTick. */
    method ExpireTick()
      modifies this`delayed, this`next, this`ready
      ensures Model() == Expire(old(Model())).0 && ready == old(ready) + Expire(old(Model())).1
    {
      hide InsertPos, HeadValue;
      if tick >= next {
        ReadyExpired();
      }
    }

    /** The counting part of xTaskIncrementTick. */
    method AdvanceTick()
      requires Consistent()
      modifies this`tick, this`delayed, this`overflow, this`overflows, this`next
      ensures Model() == Advance(old(Model())) && overflows == (now + 1) / WRAP % WRAP
    {
      InvTick(Model(), now, due);
      OverflowsCount(now);
      ghost var s0 := Model();
      hide Inv, HeadValue;
      tick := (tick + 1) % WRAP;
      if tick == 0 {
        SwitchFindsEmpty(s0, now, due);
        SwitchDelayedLists();
      }
    }

    /** The counting and waking of xTaskIncrementTick.  When the scheduler is
        suspended the tick is only remembered. */
    method IncrementTick()
      requires Consistent() && (suspended == 0 ==> pendingReady == [])
      modifies this`tick, this`delayed, this`overflow, this`overflows, this`next, this`ready, this`pended, this`now, this`due
      ensures Consistent()
      ensures Whole() == Suspension.Step(old(Whole()), TickInterrupt).0
      ensures ready == old(ready) + Suspension.Step(old(Whole()), TickInterrupt).1
      ensures now == ClockAfter(old(Whole()), TickInterrupt, old(now))
      ensures due == DueAfter(old(Whole()), TickInterrupt, old(now), old(due))
    {
      hide Inv, Advance, Expire, NoneTwice;
      if suspended == 0 {
        TickInv(Model(), now, due);
        AdvanceTick();
        ExpireTick();
        now, due := now + 1, NotDueAt(due, now + 1);
      } else {
        pended := (pended + 1) % WRAP;
      }
    }

    /** The list part of xTaskRemoveFromEventList: a task that waits on an event list,
        with a time-out or without, is woken by an event. */
    method RemoveFromEventList(t: Task)
      requires Valid() && (t in due || t in indefinite) && t !in pendingReady
      modifies this`delayed, this`overflow, this`next, this`ready, this`pendingReady, this`due, this`indefinite
      ensures Valid()
      ensures Whole() == Suspension.Step(old(Whole()), Wakeup(t)).0
      ensures ready == old(ready) + Suspension.Step(old(Whole()), Wakeup(t)).1
      ensures due == DueAfter(old(Whole()), Wakeup(t), now, old(due))
      ensures indefinite == if suspended == 0 then old(indefinite) - {t} else old(indefinite)
    {
      if suspended == 0 {
        WakeInv(Model(), now, due, t, ResetAfter);
        delayed, overflow, indefinite := Without(delayed, t), Without(overflow, t), indefinite - {t};
        ready := ready + [t];
        ResetNextUnblockTime();
        due := due - {t};
      } else {
        pendingReady := pendingReady + [t];
      }
    }

    /** vTaskStepTick */
    method StepTickCount(ticksToJump: nat)
      requires Valid() && Suspension.Allowed(Whole(), Jump(ticksToJump), due)
      modifies this`tick, this`pended, this`now
      ensures Valid() && Whole() == Suspension.Step(old(Whole()), Jump(ticksToJump)).0
      ensures now == ClockAfter(old(Whole()), Jump(ticksToJump), old(now))
    {
      JumpSound(Whole(), now, due, ticksToJump);
      InvTick(Model(), now, due);
      NextBelowWrap(Model(), now, due);
      JumpDigits(Whole(), now, ticksToJump);
      hide Inv, NoneTwice, Suspension.Step, ClockAfter;
      var jump := ticksToJump;
      if (tick + jump) % WRAP == next {
        pended := pended + 1;
        jump := jump - 1;
      }
      tick := tick + jump;
      now := now + jump;
    }

    /** vTaskSuspendAll */
    method SuspendAll()
      requires Valid()
      modifies this`suspended
      ensures Valid() && Whole() == Suspension.Step(old(Whole()), Suspend).0
    {
      suspended := suspended + 1;
    }

    /** The list part of xTaskResumeAll: pending tasks first, then the ticks that
        were held back, one by one. */
    method ResumeAll()
      requires Valid() && suspended > 0
      modifies this
      ensures Valid() && Whole() == Suspension.Step(old(Whole()), Resume).0
      ensures ready == old(ready) + Suspension.Step(old(Whole()), Resume).1
      ensures now == ClockAfter(old(Whole()), Resume, old(now)) && due == DueAfter(old(Whole()), Resume, old(now), old(due))
    {
      hide Inv, Replay, ReplayDue, Resumed, NoneTwice;
      suspended := suspended - 1;
      if suspended == 0 {
        DrainPendingReady();
        ReplayPendedTicks();
      }
    }

    /** xTaskResumeAll's first loop and the recomputation behind it. */
    method DrainPendingReady()
      requires Consistent()
      modifies this`delayed, this`overflow, this`next, this`ready, this`pendingReady, this`due, this`indefinite
      ensures Consistent() && pendingReady == []
      ensures Model() == Resumed(old(Model()), old(pendingReady)) && ready == old(ready) + old(pendingReady)
      ensures due == old(due) - Members(old(pendingReady))
      ensures indefinite == old(indefinite) - Members(old(pendingReady))
    {
      hide Inv, HeadValue, WakeEach, Members;
      ghost var all, k := pendingReady, 0;
      assert all[..0] == [];
      assert WakeEach(Model(), []) == Model() && Members([]) == {} by { NonePending(Model()); }
      var any := false;
      while pendingReady != []
        invariant k <= |all| && pendingReady == all[k..] && Consistent() && any == (k > 0)
        invariant Model() == WakeEach(old(Model()), all[..k])
        invariant due == old(due) - Members(all[..k]) && indefinite == old(indefinite) - Members(all[..k])
        invariant ready == old(ready) + all[..k]
        decreases |pendingReady|
      {
        ReadyPending();
        any := true;
        assert all[..k + 1] == all[..k] + [all[k]];
        MembersMore(all[..k], all[k]);
        WakeOneMore(old(Model()), all[..k], all[k]);
        k := k + 1;
      }
      assert all[..k] == all;
      if any {
        NextIsFree(Model(), now, due);
        ResetNextUnblockTime();
      }
      ResumedIs(old(Model()), all);
    }

    /** One round of it. */
    method ReadyPending()
      requires Consistent() && pendingReady != []
      modifies this`delayed, this`overflow, this`next, this`ready, this`pendingReady, this`due, this`indefinite
      ensures Consistent() && pendingReady == old(pendingReady)[1..]
      ensures var t := old(pendingReady)[0];
              && Model() == Wake(old(Model()), t, NoReset) && ready == old(ready) + [t]
              && due == old(due) - {t} && indefinite == old(indefinite) - {t}
    {
      hide Inv, Without, HeadValue;
      var t := pendingReady[0];
      WakeInv(Model(), now, due, t, NoReset);
      pendingReady := pendingReady[1..];
      delayed, overflow, indefinite := Without(delayed, t), Without(overflow, t), indefinite - {t};
      ready := ready + [t];
      due := due - {t};
    }

    /** xTaskResumeAll's second loop. */
    method ReplayPendedTicks()
      requires Consistent() && suspended == 0 && pendingReady == []
      modifies this`tick, this`delayed, this`overflow, this`overflows, this`next, this`ready, this`pended, this`now, this`due
      ensures Valid() && pended == 0 && now == old(now) + old(pended)
      ensures Model() == Replay(old(Model()), old(pended)).0
      ensures ready == old(ready) + Replay(old(Model()), old(pended)).1
      ensures due == ReplayDue(old(now), old(due), old(pended))
    {
      hide Inv, Tick;
      ghost var n := pended;
      var counts := pended;
      while counts > 0
        invariant counts <= n && Consistent() && suspended == 0 && pendingReady == [] && pended == n
        invariant now == old(now) + (n - counts) && Model() == Replay(old(Model()), n - counts).0
        invariant ready == old(ready) + Replay(old(Model()), n - counts).1
        invariant due == ReplayDue(old(now), old(due), n - counts)
      {
        IncrementTick();
        counts := counts - 1;
      }
      pended := 0;
    }
  }

  // ---------------------------------------------------------------- what the loops compute

  lemma NonePending(s: State)
    ensures WakeEach(s, []) == s && Members([]) == {}
  {
  }

  lemma WakeOneMore(s: State, some: seq<Task>, t: Task)
    ensures WakeEach(s, some + [t]) == Wake(WakeEach(s, some), t, NoReset)
  {
    assert (some + [t])[..|some|] == some;
  }

  lemma ResumedIs(s: State, ts: seq<Task>)
    ensures Resumed(s, ts) == var w := WakeEach(s, ts); if ts == [] then w else w.(next := HeadValue(w.delayed))
  {
  }

  lemma MembersMore(some: seq<Task>, t: Task)
    ensures Members(some + [t]) == Members(some) + {t}
  {
  }

  /** A jump that does not wrap leaves the overflow count as it is. */
  lemma JumpDigits(k: Suspension.Kernel, now: nat, n: nat)
    requires k.lists.tick == now % WRAP && k.lists.tick + n <= k.lists.next < WRAP && k.pended < WRAP
    requires k.lists.tick + n == k.lists.next ==> n > 0 && k.pended + 1 < WRAP
    ensures var m := if k.lists.tick + n == k.lists.next then n - 1 else n;
            && (k.lists.tick + n) % WRAP == k.lists.tick + n
            && (now + m) / WRAP == now / WRAP && ClockAfter(k, Jump(n), now) == now + m
            && Suspension.Step(k, Jump(n)).0 ==
                 k.(lists := k.lists.(tick := k.lists.tick + m), pended := if m < n then k.pended + 1 else k.pended)
  {
    assert now == now / WRAP * WRAP + k.lists.tick;
  }

  lemma OverflowsCount(now: nat)
    ensures (now + 1) / WRAP % WRAP == if (now % WRAP + 1) % WRAP == 0 then (now / WRAP % WRAP + 1) % WRAP else now / WRAP % WRAP
    ensures (now + 1) % WRAP == (now % WRAP + 1) % WRAP
  {
  }
}
