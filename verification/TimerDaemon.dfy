/** The timer service task as timers.c writes it: two lists and the timers' status
    are updated in place, with a loop that reloads a late timer, a loop that empties
    the current list before the lists change places and a loop that empties the
    command queue.  Each method is proved to compute the function of module
    `Timers` that says what it does in true time. */
module TimerDaemon {
  import opened ListSpec
  import opened DelayedLists
  import opened Timers
  import opened Common

  /** A message of xTimerQueue, with the tick count the daemon reads after it has
      taken the message from the queue. */
  datatype Message = Message(id: Id, command: Command, now: nat)

  class TimerTask {
    var timers: map<Id, Timer>
    var active: set<Id>
    var current: seq<Entry<Id>>
    var overflow: seq<Entry<Id>>
    var lastTime: nat
    /** The timers whose callback has been called, in order. */
    var calls: seq<Id>

    ghost function Model(): Timers.State
      reads this
    {
      Timers.State.State(timers, active, current, overflow, lastTime)
    }

    /** prvInsertTimerInActiveList */
    method InsertTimerInActiveList(id: Id, expiry: nat, now: nat, command: nat) returns (processNow: bool)
      requires id in timers
      modifies this`current, this`overflow
      ensures processNow == Elapsed(expiry, now, command, timers[id].period)
      ensures Model() == if processNow then old(Model()) else Place(old(Model()), id, expiry, now)
    {
      processNow := false;
      if expiry <= now {
        if (now - command) % WRAP >= timers[id].period {
          processNow := true;
        } else {
          overflow := Insert(overflow, Entry(id, expiry));
        }
      } else {
        if now < command && expiry >= command {
          processNow := true;
        } else {
          current := Insert(current, Entry(id, expiry));
        }
      }
    }

    /** prvReloadTimer: the loop ends, after as many callbacks as periods have
        passed since the expiry. */
    method ReloadTimer(id: Id, expiredTime: nat, now: nat)
      requires id in timers && 0 < timers[id].period < WRAP && expiredTime < WRAP && now < WRAP
      modifies this`current, this`overflow, this`calls
      ensures Model() == Reload(old(Model()), id, expiredTime, now)
      ensures calls == old(calls) + Calls(id, Missed(expiredTime, now, timers[id].period))
    {
      hide Low, Missed, NextExpiry, Elapsed, Insert;
      var expired: nat := expiredTime;
      var p := timers[id].period;
      ghost var missed := 0;
      ReloadStep(expired, now, p);
      var again := InsertTimerInActiveList(id, (expired + p) % WRAP, now, expired);
      while again
        invariant expired < WRAP && Low(expired + p) == (expired + p) % WRAP
        invariant again == (Low(now - expired) >= p)
        invariant Missed(expired, now, p) + missed == Missed(expiredTime, now, p)
        invariant NextExpiry(expired, now, p) == NextExpiry(expiredTime, now, p)
        invariant calls == old(calls) + Calls(id, missed)
        invariant Model() == if again then old(Model()) else Place(old(Model()), id, Low(expired + p), now)
        decreases Low(now - expired)
      {
        ReloadRound(expired, now, p);
        expired := (expired + p) % WRAP;
        calls := calls + [id];
        assert Calls(id, missed + 1) == Calls(id, missed) + [id];
        missed := missed + 1;
        ReloadStep(expired, now, p);
        again := InsertTimerInActiveList(id, (expired + p) % WRAP, now, expired);
      }
      ReloadLast(expired, now, p);
    }

    /** prvProcessExpiredTimer, for the timer at the head of the current list */
    method ProcessExpiredTimer(nextExpireTime: nat, now: nat)
      requires WellFormed(Model()) && current != [] && nextExpireTime == current[0].value && now < WRAP
      modifies this`current, this`overflow, this`active, this`calls
      ensures Model() == ProcessExpired(old(Model()), now).0
      ensures calls == old(calls) + ProcessExpired(old(Model()), now).1
    {
      var id := current[0].owner;
      HeadTimer(Model());
      hide Reload, Missed;
      current := current[1..];
      if timers[id].auto {
        ReloadTimer(id, nextExpireTime, now);
      } else {
        active := active - {id};
      }
      calls := calls + [id];
      CallsMore(id, Missed(nextExpireTime, now, timers[id].period));
    }

    /** prvSwitchTimerLists */
    method SwitchTimerLists()
      requires WellFormed(Model())
      modifies this`current, this`overflow, this`active, this`calls
      ensures Model() == SwapLists(FinishTurn(old(Model())).0)
      ensures calls == old(calls) + FinishTurn(old(Model())).1
    {
      hide WellFormed, ProcessExpired;
      ghost var log := [];
      while current != []
        invariant WellFormed(Model())
        invariant FinishTurn(Model()).0 == FinishTurn(old(Model())).0
        invariant calls == old(calls) + log
        invariant log + FinishTurn(Model()).1 == FinishTurn(old(Model())).1
        decreases |current|
      {
        ghost var before := Model();
        ProcessWellFormed(before, MAX_DELAY);
        ProcessExpiredTimer(current[0].value, MAX_DELAY);
        log := log + ProcessExpired(before, MAX_DELAY).1;
      }
      current, overflow := overflow, current;
    }

    /** prvSampleTimeNow, given the tick count it reads */
    method SampleTimeNow(now: nat) returns (switched: bool)
      requires WellFormed(Model())
      modifies this`current, this`overflow, this`active, this`calls, this`lastTime
      ensures Model() == Sample(old(Model()), now).0
      ensures switched == Sample(old(Model()), now).1
      ensures calls == old(calls) + Sample(old(Model()), now).2
    {
      if now < lastTime {
        SwitchTimerLists();
        switched := true;
      } else {
        switched := false;
      }
      lastTime := now;
    }

    /** prvGetNextExpireTime */
    method GetNextExpireTime() returns (next: nat, listWasEmpty: bool)
      ensures listWasEmpty <==> current == []
      ensures next == if current == [] then 0 else current[0].value
    {
      listWasEmpty := current == [];
      if !listWasEmpty {
        next := current[0].value;
      } else {
        next := 0;
      }
    }

    /** prvProcessTimerOrBlockTask behind prvGetNextExpireTime; `blocks` if the daemon
        goes on to wait for a message, `ticks` long or, if `forever`, without limit. */
    method ProcessTimerOrBlockTask(now: nat) returns (blocks: bool, ticks: nat, forever: bool)
      requires WellFormed(Model()) && now < WRAP
      modifies this`current, this`overflow, this`active, this`calls, this`lastTime
      ensures Model() == ProcessOrBlock(old(Model()), now).0
      ensures blocks == ProcessOrBlock(old(Model()), now).1
      ensures calls == old(calls) + ProcessOrBlock(old(Model()), now).2
      ensures blocks ==> (if forever then None else Some(ticks)) == Wait(Model(), now)
    {
      var next, listWasEmpty := GetNextExpireTime();
      HeadBelowWrap(Model());
      hide WellFormed, Missed, FinishTurn;
      blocks, ticks, forever := false, 0, false;
      var switched := SampleTimeNow(now);
      if !switched {
        if !listWasEmpty && next <= now {
          ProcessExpiredTimer(next, now);
        } else {
          if listWasEmpty {
            listWasEmpty := overflow == [];
          }
          blocks, ticks, forever := true, (next - now) % WRAP, listWasEmpty;
        }
      }
    }

    /** One timer command of prvProcessReceivedCommands. */
    method ProcessCommand(id: Id, command: Command, now: nat)
      requires WellFormed(Model()) && id in timers && now < WRAP && Proper(command)
      modifies this`current, this`overflow, this`active, this`calls, this`lastTime, this`timers
      ensures Model() == Receive(old(Model()), id, command, now).0
      ensures calls == old(calls) + Receive(old(Model()), id, command, now).1
    {
      current, overflow := Without(current, id), Without(overflow, id);
      ghost var taken := Model();
      assert taken == Taken(old(Model()), id);
      hide WellFormed, Without, Sample, Reload, Place, Insert, Low, Missed, Elapsed;
      SampleTimers(taken, now);
      var switched := SampleTimeNow(now);
      Execute(id, command, now);
    }

    /** The switch statement of prvProcessReceivedCommands. */
    method Execute(id: Id, command: Command, now: nat)
      requires WellFormed(Model()) && id in timers && now < WRAP && Proper(command)
      modifies this`current, this`overflow, this`active, this`calls, this`timers
      ensures Model() == Obey(old(Model()), id, command, now).0
      ensures calls == old(calls) + Obey(old(Model()), id, command, now).1
    {
      PeriodsOf(Model(), id);
      hide WellFormed, Reload, Place, Missed, Elapsed;
      match command
      case Start(at) => StartTimer(id, at, now);
      case Stop =>
        active := active - {id};
      case Delete =>
        active := active - {id};
      case ChangePeriod(p) => ChangeTimerPeriod(id, p, now);
    }

    /** Its case for a new period, which counts from now. */
    method ChangeTimerPeriod(id: Id, p: nat, now: nat)
      requires id in timers && 0 < p < WRAP && WellFormed(Model()) && now < WRAP
      modifies this`current, this`overflow, this`active, this`timers
      ensures Model() == Obey(old(Model()), id, ChangePeriod(p), now).0
      ensures Obey(old(Model()), id, ChangePeriod(p), now).1 == []
    {
      hide WellFormed, Low, Place, Elapsed;
      active := active + {id};
      timers := timers[id := timers[id].(period := p)];
      PeriodAhead(now, p);
      var late := InsertTimerInActiveList(id, (now + timers[id].period) % WRAP, now, now);
    }

    /** Its case for starting and resetting a timer. */
    method StartTimer(id: Id, at: nat, now: nat)
      requires id in timers && 0 < timers[id].period < WRAP && WellFormed(Model()) && at < WRAP && now < WRAP
      modifies this`current, this`overflow, this`active, this`calls
      ensures Model() == Obey(old(Model()), id, Start(at), now).0
      ensures calls == old(calls) + Obey(old(Model()), id, Start(at), now).1
    {
      hide WellFormed, Low, Reload, Place, Missed, Elapsed;
      active := active + {id};
      ReducedSum(at, timers[id].period);
      var expiry := (at + timers[id].period) % WRAP;
      var late := InsertTimerInActiveList(id, expiry, now, at);
      if late {
        if timers[id].auto {
          ReloadTimer(id, expiry, now);
        } else {
          active := active - {id};
        }
        calls := calls + [id];
      }
    }

    /** prvProcessReceivedCommands: the queue is emptied in order. */
    method ProcessReceivedCommands(queue: seq<Message>)
      requires WellFormed(Model())
      requires forall i | 0 <= i < |queue| ::
                 queue[i].id in timers && queue[i].now < WRAP && Proper(queue[i].command)
      modifies this
      ensures WellFormed(Model())
      ensures Model() == ReceiveAll(old(Model()), queue).0
      ensures calls == old(calls) + ReceiveAll(old(Model()), queue).1
    {
      hide WellFormed, Receive;
      var left := queue;
      ghost var log := [];
      while left != []
        invariant WellFormed(Model()) && Addressed(Model(), left)
        invariant ReceiveAll(Model(), left).0 == ReceiveAll(old(Model()), queue).0
        invariant calls == old(calls) + log
        invariant log + ReceiveAll(Model(), left).1 == ReceiveAll(old(Model()), queue).1
        decreases |left|
      {
        var m := left[0];
        ghost var before := Model();
        ReceiveWellFormed(before, m.id, m.command, m.now);
        left := left[1..];
        ProcessCommand(m.id, m.command, m.now);
        log := log + Receive(before, m.id, m.command, m.now).1;
      }
    }
  }

  // ---------------------------------------------------------------- the reload loop

  lemma ReloadStep(x: nat, now: nat, p: nat)
    requires x < WRAP && now < WRAP && 0 < p < WRAP
    ensures Low(x + p) == (x + p) % WRAP
    ensures Elapsed((x + p) % WRAP, now, x, p) <==> Low(now - x) >= p
  {
  }

  /** One more period of a late timer. */
  lemma ReloadRound(x: nat, now: nat, p: nat)
    requires x < WRAP && now < WRAP && 0 < p < WRAP && Low(now - x) >= p
    ensures var x' := (x + p) % WRAP;
            && Low(now - x') == Low(now - x) - p
            && Missed(x, now, p) == Missed(x', now, p) + 1
            && NextExpiry(x', now, p) == NextExpiry(x, now, p)
  {
    var x' := (x + p) % WRAP;
    var a := Low(now - x);
    LateDigits(x, now, p);
    var k := (a - p) / p;
    DivBounds(a - p, p);
    assert (k + 1) * p == k * p + p;
    assert (k + 2) * p == k * p + p + p;
    DivUnique(a, p, k + 1);
    assert x' + k * p + p == x + (k + 1) * p + p - (x + p) / WRAP * WRAP;
    ModShift(x' + k * p + p, (x + p) / WRAP);
  }

  lemma LateDigits(x: nat, now: nat, p: nat)
    requires x < WRAP && now < WRAP && 0 < p < WRAP && Low(now - x) >= p
    ensures Low(now - (x + p) % WRAP) == Low(now - x) - p
  {
  }

  lemma ReloadLast(x: nat, now: nat, p: nat)
    requires p > 0 && Low(now - x) < p
    ensures Missed(x, now, p) == 0 && NextExpiry(x, now, p) == Low(x + p)
  {
  }

  lemma CallsMore(id: Id, n: nat)
    ensures Calls(id, n) + [id] == Calls(id, n + 1)
  {
  }

  lemma HeadBelowWrap(s: Timers.State)
    requires WellFormed(s)
    ensures s.current != [] ==> s.current[0].value < WRAP
  {
  }

  // ---------------------------------------------------------------- the command loop

  /** What the senders of commands guarantee: 32-bit values, and no zero period. */
  predicate Proper(c: Command) {
    match c
    case Start(at) => at < WRAP
    case Stop => true
    case Delete => true
    case ChangePeriod(p) => 0 < p < WRAP
  }

  ghost predicate Addressed(s: Timers.State, queue: seq<Message>) {
    forall i | 0 <= i < |queue| ::
      queue[i].id in s.timers && queue[i].now < WRAP && Proper(queue[i].command)
  }

  ghost function ReceiveAll(s: Timers.State, queue: seq<Message>): (Timers.State, seq<Id>)
    requires WellFormed(s) && Addressed(s, queue)
    decreases |queue|
  {
    if queue == [] then (s, []) else
      var m := queue[0];
      ReceiveWellFormed(s, m.id, m.command, m.now);
      var (s1, log1) := Receive(s, m.id, m.command, m.now);
      var (s2, log2) := ReceiveAll(s1, queue[1..]);
      (s2, log1 + log2)
  }

  lemma ReducedSum(at: nat, period: nat)
    ensures Low(at + period) == (at + period) % WRAP
  {
  }

  /** A changed period is always ahead of the time of the change. */
  lemma PeriodAhead(now: nat, p: nat)
    requires now < WRAP && 0 < p < WRAP
    ensures Low(now + p) == (now + p) % WRAP
    ensures !Elapsed((now + p) % WRAP, now, now, p)
  {
  }

  lemma ReceiveWellFormed(s: Timers.State, id: Id, c: Command, now: nat)
    requires WellFormed(s) && id in s.timers && Proper(c)
    ensures WellFormed(Receive(s, id, c, now).0)
    ensures Receive(s, id, c, now).0.timers.Keys == s.timers.Keys
  {
    hide WellFormed, Taken, Sample, Obey;
    SampleTimers(Taken(s, id), now);
    ObeyWellFormed(Sample(Taken(s, id), now).0, id, c, now);
  }

  lemma ObeyWellFormed(s: Timers.State, id: Id, c: Command, now: nat)
    requires WellFormed(s) && id in s.timers && Proper(c)
    ensures WellFormed(Obey(s, id, c, now).0)
    ensures Obey(s, id, c, now).0.timers.Keys == s.timers.Keys
  {
    PeriodsOf(s, id);
    hide WellFormed, Place, Reload, Low, Missed, Elapsed;
    match c
    case Start(at) => StartWellFormed(s, id, at, now);
    case Stop => ActiveChanged(s, s.active - {id});
    case Delete => ActiveChanged(s, s.active - {id});
    case ChangePeriod(p) => ChangeWellFormed(s, id, p, now);
  }

  lemma ChangeWellFormed(s: Timers.State, id: Id, p: nat, now: nat)
    requires WellFormed(s) && id in s.timers && 0 < p < WRAP
    ensures WellFormed(Obey(s, id, ChangePeriod(p), now).0)
    ensures Obey(s, id, ChangePeriod(p), now).0.timers.Keys == s.timers.Keys
  {
  }

  lemma StartWellFormed(s: Timers.State, id: Id, at: nat, now: nat)
    requires WellFormed(s) && id in s.timers && s.timers[id].period > 0
    ensures WellFormed(Obey(s, id, Start(at), now).0)
    ensures Obey(s, id, Start(at), now).0.timers == s.timers
  {
    hide WellFormed, Place, Low, Missed, NextExpiry, Elapsed;
    var s2 := s.(active := s.active + {id});
    ActiveChanged(s, s.active + {id});
    ActiveChanged(s, s.active - {id});
    assert s2.(active := s2.active - {id}) == s.(active := s.active - {id});
    var p := s.timers[id].period;
    var x, y := Low(at + p), NextExpiry(Low(at + p), now, p);
    PlaceWellFormed(s2, id, x, now);
    PlaceWellFormed(s2, id, y, now);
    PlaceTimers(s2, id, x, now);
    PlaceTimers(s2, id, y, now);
  }

  lemma PlaceTimers(s: Timers.State, id: Id, expiry: nat, now: nat)
    ensures Place(s, id, expiry, now).timers == s.timers
  {
  }
}
