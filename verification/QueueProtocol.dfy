/** The locking protocol between tasks and interrupts of queue.c.

    A task that is about to block on a queue suspends the scheduler and locks the
    queue; interrupts may still send and receive, but instead of waking a waiting
    task they count in cTxLock or cRxLock, and the unlocking task makes up for it.
    A run is any interleaving of the critical sections of tasks and interrupts,
    each one step.  What is proved is that no wake-up is ever lost.

    Only the number of messages matters here; what they are is the subject of
    module `QueueRing`. */
module QueueProtocol {
  import opened ListSpec
  import opened Common
  import opened QueueRing

  type Task = nat

  /** queueUNLOCKED and queueINT8_MAX */
  const UNLOCKED := -1
  const INT8_MAX := 127

  // ---------------------------------------------------------------- one side of the queue

  /** The tasks waiting on one event list, the tasks removed from it that have not
      run again since, and the lock count of the events this side waits for:
      cTxLock for receivers, cRxLock for senders. */
  datatype Side = Side(wait: seq<Entry<Task>>, woken: set<Task>, lock: int)

  /** xTaskRemoveFromEventList, if there is anyone to remove */
  function WakeHead(d: Side): Side {
    if d.wait == [] then d else d.(wait := d.wait[1..], woken := d.woken + {d.wait[0].owner})
  }

  /** What an interrupt does: wake a task, or count up to `cap` if the queue is locked. */
  function Notify(d: Side, cap: nat): Side {
    if d.lock == UNLOCKED then WakeHead(d) else if d.lock < cap then d.(lock := d.lock + 1) else d
  }

  function WakeMany(d: Side, k: int): Side
    decreases k
  {
    if k <= 0 || d.wait == [] then d else WakeMany(WakeHead(d), k - 1)
  }

  /** One half of prvUnlockQueue. */
  function Unlock(d: Side): Side {
    WakeMany(d, d.lock).(lock := UNLOCKED)
  }

  /** One half of prvLockQueue. */
  function Lock(d: Side): Side {
    if d.lock == UNLOCKED then d.(lock := 0) else d
  }

  /** vTaskPlaceOnEventList: by priority, behind its equals. */
  function Arrive(d: Side, t: Task, priority: nat): Side
    requires priority < MAX_PRIORITIES
  {
    d.(wait := Insert(d.wait, Entry(t, MAX_PRIORITIES - priority)))
  }

  /** A waiting task's time-out expires. */
  function Leave(d: Side, t: Task): Side {
    d.(wait := Without(d.wait, t))
  }

  /** A woken task runs again. */
  function Rerun(d: Side, t: Task): Side {
    d.(woken := d.woken - {t})
  }

  function Owners(s: seq<Entry<Task>>): set<Task> {
    set i | 0 <= i < |s| :: s[i].owner
  }

  function Waiting(d: Side): set<Task> {
    Owners(d.wait)
  }

  /** The tasks a side is about. */
  function Members(d: Side): set<Task> {
    Waiting(d) + d.woken
  }

  ghost predicate SideInv(d: Side, tasks: set<Task>) {
    && Sorted(d.wait) && Distinct(d.wait)
    && Waiting(d) <= tasks && d.woken <= tasks && Waiting(d) !! d.woken
    && UNLOCKED <= d.lock <= |tasks|
  }

  /** Every event that has not been used up has a woken task on its way to it, or a
      wake-up that the lock count still owes. */
  ghost predicate Covered(d: Side, available: int, cap: nat) {
    available <= |d.woken| + (if d.lock > 0 then d.lock else 0) || d.lock >= cap
  }

  lemma WakeHeadSide(d: Side, tasks: set<Task>)
    requires SideInv(d, tasks)
    ensures SideInv(WakeHead(d), tasks)
    ensures WakeHead(d).lock == d.lock
    ensures Members(WakeHead(d)) == Members(d)
    ensures d.woken <= WakeHead(d).woken
    ensures |WakeHead(d).woken| == |d.woken| + if d.wait == [] then 0 else 1
  {
  }

  lemma HeadOwner(s: seq<Entry<Task>>)
    requires s != []
    ensures Owners(s) == {s[0].owner} + Owners(s[1..])
    ensures Distinct(s) ==> Distinct(s[1..]) && s[0].owner !in Owners(s[1..])
    ensures Sorted(s) ==> Sorted(s[1..])
  {
  }

  /** The woken task has the highest priority of those waiting and, of those, has
      waited longest. */
  lemma WokenIsFirst(d: Side, tasks: set<Task>, i: nat)
    requires SideInv(d, tasks) && i < |d.wait|
    ensures WakeHead(d).woken - d.woken == {d.wait[0].owner}
    ensures d.wait[0].value <= d.wait[i].value
  {
  }

  /** Waking as many as the lock count says wakes everyone, or one task per count. */
  lemma {:induction false} WakeManySide(d: Side, k: int, tasks: set<Task>)
    requires SideInv(d, tasks)
    ensures SideInv(WakeMany(d, k), tasks)
    ensures WakeMany(d, k).lock == d.lock
    ensures Members(WakeMany(d, k)) == Members(d)
    ensures WakeMany(d, k).wait != [] ==> |WakeMany(d, k).woken| == |d.woken| + if k > 0 then k else 0
    ensures k >= |d.wait| ==> WakeMany(d, k).wait == []
    decreases k
  {
    hide SideInv, Waiting, Owners;
    if k > 0 && d.wait != [] {
      WakeHeadSide(d, tasks);
      assert |WakeHead(d).wait| == |d.wait| - 1;
      hide WakeHead;
      WakeManySide(WakeHead(d), k - 1, tasks);
    }
  }

  /** There are never more waiting tasks than tasks. */
  lemma WaitingBound(d: Side, tasks: set<Task>)
    requires SideInv(d, tasks)
    ensures |d.wait| <= |tasks|
  {
    DistinctCount(d.wait);
    SubsetCount(Waiting(d), tasks);
  }

  lemma {:induction false} DistinctCount(s: seq<Entry<Task>>)
    requires Distinct(s)
    ensures |Owners(s)| == |s|
  {
    if s != [] {
      HeadOwner(s);
      DistinctCount(s[1..]);
    }
  }

  /** Unlocking leaves nobody waiting, or has woken a task for every counted event;
      the cap on the count does not matter. */
  lemma UnlockSide(d: Side, tasks: set<Task>, available: int)
    requires SideInv(d, tasks)
    ensures SideInv(Unlock(d), tasks) && Unlock(d).lock == UNLOCKED
    ensures Members(Unlock(d)) == Members(d)
    ensures Covered(d, available, |tasks|) ==> Unlock(d).wait == [] || Covered(Unlock(d), available, |tasks|)
    ensures Unlock(d).wait != [] ==> d.wait != []
  {
    hide WakeMany;
    WakeManySide(d, d.lock, tasks);
    WaitingBound(d, tasks);
    WakesNobody(d, d.lock);
    assert Waiting(Unlock(d)) == Waiting(WakeMany(d, d.lock));
  }

  lemma WakesNobody(d: Side, k: int)
    ensures d.wait == [] ==> WakeMany(d, k) == d
  {
  }

  lemma ArriveSide(d: Side, tasks: set<Task>, t: Task, priority: nat)
    requires SideInv(d, tasks) && t in tasks && t !in Waiting(d) && t !in d.woken && priority < MAX_PRIORITIES
    ensures SideInv(Arrive(d, t, priority), tasks)
    ensures Waiting(Arrive(d, t, priority)) == Waiting(d) + {t}
    ensures Members(Arrive(d, t, priority)) == Members(d) + {t}
    ensures Arrive(d, t, priority).lock == d.lock && Arrive(d, t, priority).woken == d.woken
  {
    var e := Entry(t, MAX_PRIORITIES - priority);
    InsertSorts(d.wait, e);
    InsertOwner(d.wait, e, InsertPos(d.wait, e.value));
    hide Sorted, Distinct, Owners, InsertPos;
  }

  lemma InsertOwner(s: seq<Entry<Task>>, e: Entry<Task>, p: nat)
    requires p <= |s|
    ensures Owners(s[..p] + [e] + s[p..]) == Owners(s) + {e.owner}
    ensures Distinct(s) && e.owner !in Owners(s) ==> Distinct(s[..p] + [e] + s[p..])
  {
    assert s == s[..p] + s[p..];
    OwnersConcat(s[..p], s[p..]);
    OwnersConcat(s[..p], [e]);
    OwnersConcat(s[..p] + [e], s[p..]);
    InsertDistinct(s, e, p);
    hide Owners;
    OneOwner(e);
  }

  lemma OneOwner(e: Entry<Task>)
    ensures Owners([e]) == {e.owner}
  {
    assert [e][0] == e;
  }

  lemma OwnersConcat(a: seq<Entry<Task>>, b: seq<Entry<Task>>)
    ensures Owners(a + b) == Owners(a) + Owners(b)
  {
    assert forall i | 0 <= i < |a| :: (a + b)[i] == a[i];
    assert forall i | 0 <= i < |b| :: b[i] == (a + b)[|a| + i];
  }

  lemma InsertDistinct(s: seq<Entry<Task>>, e: Entry<Task>, p: nat)
    requires p <= |s|
    ensures Distinct(s) && e.owner !in Owners(s) ==> Distinct(s[..p] + [e] + s[p..])
  {
  }

  lemma {:induction false} WithoutShorter(s: seq<Entry<Task>>, t: Task)
    requires Sorted(s) && Distinct(s)
    ensures Sorted(Without(s, t)) && Distinct(Without(s, t))
    ensures Owners(Without(s, t)) == Owners(s) - {t}
    ensures Without(s, t) != [] ==> s != [] && s[0].value <= Without(s, t)[0].value
    decreases |s|
  {
    if s != [] {
      HeadOwner(s);
      WithoutShorter(s[1..], t);
      assert |s| > 1 ==> s[0].value <= s[1].value;
      Cons(s[0], Without(s[1..], t));
      hide Sorted, Distinct, Owners;
    }
  }

  lemma Cons(x: Entry<Task>, s: seq<Entry<Task>>)
    ensures Owners([x] + s) == {x.owner} + Owners(s)
    ensures Sorted(s) && (s != [] ==> x.value <= s[0].value) ==> Sorted([x] + s)
    ensures Distinct(s) && x.owner !in Owners(s) ==> Distinct([x] + s)
  {
    OwnersConcat([x], s);
    OneOwner(x);
    assert forall i | 0 <= i < |s| :: s[i].owner in Owners(s);
  }

  lemma LeaveSide(d: Side, tasks: set<Task>, t: Task)
    requires SideInv(d, tasks)
    ensures SideInv(Leave(d, t), tasks)
    ensures Waiting(Leave(d, t)) == Waiting(d) - {t} && Members(Leave(d, t)) <= Members(d)
    ensures Leave(d, t).wait != [] ==> d.wait != []
    ensures Leave(d, t).woken == d.woken && Leave(d, t).lock == d.lock
    ensures forall a, cap :: Covered(Leave(d, t), a, cap) == Covered(d, a, cap)
  {
    WithoutShorter(d.wait, t);
    hide Without, Sorted, Distinct, Owners;
  }

  // ---------------------------------------------------------------- the whole queue

  datatype Role = Receiver | Sender

  /** Where a task is in the loop of a blocking call.
      `Out`: outside, blocked, or about to try;  `Failed`: found the queue empty or
      full;  `Suspended`: behind vTaskSuspendAll;  `Locked`: behind prvLockQueue;
      `Placing`: time left and still empty or full;  `Unlocking`, `HalfUnlocked`,
      `Resuming`: before and between the halves of prvUnlockQueue, and behind it;
      `Paused`: has suspended the scheduler for another reason. */
  datatype Phase =
      Out | Failed(role: Role) | Suspended(role: Role) | Locked(role: Role) | Placing(role: Role)
    | Unlocking | HalfUnlocked | Resuming | Paused

  /** uxMessagesWaiting and uxLength, the two sides, every task's phase, and the
      task that has suspended the scheduler. */
  datatype State = State(msgs: int, length: int, rcv: Side, snd: Side,
                         phase: map<Task, Phase>, suspender: Option<Task>)

  datatype Op = Send | Overwrite | Receive | Peek

  /** `Attempt` is the critical section at the head of a call's loop (a semaphore
      give is a send and a take a receive; what is overwritten has data, see
      `QueueRing`); `patient` callers go on to block.
      `Check` is xTaskCheckForTimeOut, which may find the time `expired`, with the
      test whether the queue is still empty or full. */
  datatype Event =
      Attempt(t: Task, op: Op, patient: bool)
    | Suspend(t: Task) | LockQueue(t: Task) | Check(t: Task, expired: bool) | Place(t: Task, priority: nat)
    | UnlockTx(t: Task) | UnlockRx(t: Task) | Resume(t: Task) | Pause(t: Task)
    | TimeOut(t: Task)
    | IsrSend(overwrite: bool) | IsrReceive

  predicate Idle(s: State, t: Task) {
    t !in Waiting(s.rcv) && t !in Waiting(s.snd)
  }

  /** When an event can happen.  Other tasks' critical sections and the tick's
      time-outs wait while the scheduler is suspended; interrupts do not. */
  predicate Enabled(s: State, e: Event) {
    match e
    case Attempt(t, op, patient) =>
      && t in s.phase && Idle(s, t) && (op == Overwrite ==> s.length == 1)
      && (if s.phase[t] == Paused then !patient else s.phase[t] == Out && s.suspender == None)
      // a woken task tries its own call again
      && (t in s.rcv.woken ==> op == Receive || op == Peek) && (t in s.snd.woken ==> op == Send)
    case Suspend(t) => t in s.phase && s.phase[t].Failed? && s.suspender == None
    case LockQueue(t) => t in s.phase && s.phase[t].Suspended?
    case Check(t, _) => t in s.phase && s.phase[t].Locked?
    case Place(t, priority) => t in s.phase && s.phase[t].Placing? && priority < MAX_PRIORITIES
    case UnlockTx(t) => t in s.phase && s.phase[t] == Unlocking
    case UnlockRx(t) => t in s.phase && s.phase[t] == HalfUnlocked
    case Resume(t) => t in s.phase && (s.phase[t] == Resuming || s.phase[t] == Paused)
    case Pause(t) => t in s.phase && s.phase[t] == Out && s.suspender == None && Idle(s, t)
                     && t !in s.rcv.woken && t !in s.snd.woken
    case TimeOut(t) => t in s.phase && s.suspender == None && !Idle(s, t)
    case IsrSend(overwrite) => overwrite ==> s.length == 1
    case IsrReceive => true
  }

  function Go(s: State, t: Task, p: Phase): State {
    s.(phase := s.phase[t := p])
  }

  /** The critical section of a call, for task `t`. */
  function Try(s: State, t: Task, op: Op, patient: bool): State {
    var s1 := s.(rcv := Rerun(s.rcv, t), snd := Rerun(s.snd, t));
    match op
    case Send =>
      if s.msgs < s.length then s1.(msgs := s.msgs + 1, rcv := WakeHead(s1.rcv))
      else if patient then Go(s1, t, Failed(Sender)) else s1
    case Overwrite =>
      s1.(msgs := if s.msgs > 0 then s.msgs else 1, rcv := WakeHead(s1.rcv))
    case Receive =>
      if s.msgs > 0 then s1.(msgs := s.msgs - 1, snd := WakeHead(s1.snd))
      else if patient then Go(s1, t, Failed(Receiver)) else s1
    case Peek =>
      if s.msgs > 0 then s1.(rcv := WakeHead(s1.rcv))
      else if patient then Go(s1, t, Failed(Receiver)) else s1
  }

  /** One step, with lock counts capped at `cap`; the kernel's cap is the number of tasks. */
  function Step(s: State, e: Event, cap: nat): State
    requires Enabled(s, e)
  {
    match e
    case Attempt(t, op, patient) => Try(s, t, op, patient)
    case Suspend(t) => Go(s, t, Suspended(s.phase[t].role)).(suspender := Some(t))
    case LockQueue(t) => Go(s, t, Locked(s.phase[t].role)).(rcv := Lock(s.rcv), snd := Lock(s.snd))
    case Check(t, expired) =>
      var role := s.phase[t].role;
      var stuck := if role == Receiver then s.msgs == 0 else s.msgs == s.length;
      if !expired && stuck then Go(s, t, Placing(role)) else Go(s, t, Unlocking)
    case Place(t, priority) =>
      if s.phase[t].role == Receiver then Go(s, t, Unlocking).(rcv := Arrive(s.rcv, t, priority))
      else Go(s, t, Unlocking).(snd := Arrive(s.snd, t, priority))
    case UnlockTx(t) => Go(s, t, HalfUnlocked).(rcv := Unlock(s.rcv))
    case UnlockRx(t) => Go(s, t, Resuming).(snd := Unlock(s.snd))
    case Resume(t) => Go(s, t, Out).(suspender := None)
    case Pause(t) => Go(s, t, Paused).(suspender := Some(t))
    case TimeOut(t) => s.(rcv := Leave(s.rcv, t), snd := Leave(s.snd, t))
    case IsrSend(overwrite) =>
      if s.msgs < s.length then s.(msgs := s.msgs + 1, rcv := Notify(s.rcv, cap))
      else if overwrite then s.(rcv := Notify(s.rcv, cap))
      else s
    case IsrReceive =>
      if s.msgs > 0 then s.(msgs := s.msgs - 1, snd := Notify(s.snd, cap)) else s
  }

  // ---------------------------------------------------------------- the invariant

  predicate HoldsScheduler(p: Phase) {
    !p.Out? && !p.Failed?
  }

  /** cTxLock and cRxLock are not queueUNLOCKED. */
  predicate TxLocked(p: Phase) {
    p.Locked? || p.Placing? || p.Unlocking?
  }

  predicate RxLocked(p: Phase) {
    TxLocked(p) || p.HalfUnlocked?
  }

  /** In these phases a task is on no list and not waiting to be run again. */
  predicate Absent(p: Phase) {
    p.Failed? || p.Suspended? || p.Locked? || p.Placing? || p.Paused?
  }

  function Involved(s: State): set<Task> {
    Members(s.rcv) + Members(s.snd)
  }

  ghost predicate Phases(s: State) {
    && (s.suspender.Some? ==> s.suspender.value in s.phase && HoldsScheduler(s.phase[s.suspender.value]))
    && (forall t | t in s.phase && HoldsScheduler(s.phase[t]) :: s.suspender == Some(t))
    && (s.rcv.lock != UNLOCKED <==> s.suspender.Some? && TxLocked(s.phase[s.suspender.value]))
    && (s.snd.lock != UNLOCKED <==> s.suspender.Some? && RxLocked(s.phase[s.suspender.value]))
    && (forall t | t in s.phase && Absent(s.phase[t]) :: t !in Involved(s))
  }

  /** Someone waits on this side, or has just decided to. */
  ghost predicate Wanted(d: Side, s: State, role: Role) {
    d.wait != [] || AboutToPlace(s, role)
  }

  ghost predicate AboutToPlace(s: State, role: Role) {
    s.suspender.Some? && s.suspender.value in s.phase && s.phase[s.suspender.value] == Placing(role)
  }

  ghost predicate Inv(s: State) {
    && 0 <= s.msgs <= s.length
    && SideInv(s.rcv, s.phase.Keys) && SideInv(s.snd, s.phase.Keys)
    && Phases(s)
    && (Wanted(s.rcv, s, Receiver) ==> Covered(s.rcv, s.msgs, |s.phase.Keys|))
    && (Wanted(s.snd, s, Sender) ==> Covered(s.snd, s.length - s.msgs, |s.phase.Keys|))
  }

  lemma RerunSide(d: Side, tasks: set<Task>, t: Task)
    requires SideInv(d, tasks)
    ensures SideInv(Rerun(d, t), tasks)
    ensures |Rerun(d, t).woken| == |d.woken| - if t in d.woken then 1 else 0
  {
  }

  /** Phases speaks of the sides only through their locks and of who is involved. */
  lemma SamePhases(s: State, s': State)
    requires Phases(s) && s'.phase == s.phase && s'.suspender == s.suspender
    requires (s'.rcv.lock == UNLOCKED <==> s.rcv.lock == UNLOCKED) && (s'.snd.lock == UNLOCKED <==> s.snd.lock == UNLOCKED)
    requires Involved(s') <= Involved(s)
    ensures Phases(s')
  {
  }

  /** Where no task is in the middle of blocking, the queue is not locked. */
  lemma NotLocked(s: State, t: Task)
    requires Phases(s) && t in s.phase && (s.suspender == None || s.phase[t] == Paused)
    ensures s.rcv.lock == UNLOCKED && s.snd.lock == UNLOCKED
    ensures s.phase[t] == Paused ==> s.suspender == Some(t)
    ensures Wanted(s.rcv, s, Receiver) == (s.rcv.wait != []) && Wanted(s.snd, s, Sender) == (s.snd.wait != [])
  {
  }

  function Ran(d: Side, t: Task, event: bool): Side {
    if event then WakeHead(Rerun(d, t)) else Rerun(d, t)
  }

  /** Everything about a side after its caller has run again and it has been told
      of an event, or not. */
  lemma RanSide(d: Side, tasks: set<Task>, t: Task, event: bool)
    requires SideInv(d, tasks) && t !in Waiting(d)
    ensures var d' := Ran(d, t, event);
            && SideInv(d', tasks) && d'.lock == d.lock
            && Members(d') <= Members(d) && t !in Members(d')
            && (d'.wait != [] ==> d.wait != [])
            && (d'.wait != [] ==> |d'.woken| == |d.woken| - (if t in d.woken then 1 else 0) + if event then 1 else 0)
  {
    RerunSide(d, tasks, t);
    WakeHeadSide(Rerun(d, t), tasks);
    hide SideInv, Owners;
  }

  predicate TellsReceivers(s: State, op: Op) {
    (op == Send && s.msgs < s.length) || op == Overwrite || (op == Peek && s.msgs > 0)
  }

  predicate TellsSenders(s: State, op: Op) {
    op == Receive && s.msgs > 0
  }

  /** An attempt, one side at a time. */
  lemma TryParts(s: State, t: Task, op: Op, patient: bool)
    requires op == Overwrite ==> s.length == 1
    requires 0 <= s.msgs <= s.length
    ensures var s' := Try(s, t, op, patient);
            && s'.rcv == Ran(s.rcv, t, TellsReceivers(s, op)) && s'.snd == Ran(s.snd, t, TellsSenders(s, op))
            && s'.suspender == s.suspender && s'.length == s.length && 0 <= s'.msgs <= s.length
            && (s'.phase == s.phase || s'.phase == s.phase[t := Failed(Sender)] || s'.phase == s.phase[t := Failed(Receiver)])
            && (s'.phase != s.phase ==> patient)
            && s'.msgs <= s.msgs + (if TellsReceivers(s, op) && op != Peek then 1 else 0)
            && s'.msgs >= s.msgs - (if TellsSenders(s, op) then 1 else 0)
            && (op == Receive && s.msgs > 0 ==> s'.msgs == s.msgs - 1)
            && (op == Send && s.msgs < s.length ==> s'.msgs == s.msgs + 1)
  {
  }

  lemma TryInv(s: State, t: Task, op: Op, patient: bool)
    requires Inv(s) && Enabled(s, Attempt(t, op, patient))
    ensures Inv(Try(s, t, op, patient))
  {
    hide SideInv, Waiting, Phases, Wanted, Ran, Try;
    NotLocked(s, t);
    TryParts(s, t, op, patient);
    RanSide(s.rcv, s.phase.Keys, t, TellsReceivers(s, op));
    RanSide(s.snd, s.phase.Keys, t, TellsSenders(s, op));
    var s' := Try(s, t, op, patient);
    assert s'.phase.Keys == s.phase.Keys;
    TryPhases(s, t, s');
    NotLockedAfter(s', t);
    hide TellsSenders, Involved;
    TryCovered(s, t, op, s');
  }

  lemma TryPhases(s: State, t: Task, s': State)
    requires Phases(s) && t in s.phase && (s.phase[t] == Paused || (s.phase[t] == Out && s.suspender == None))
    requires Involved(s') <= Involved(s) - {t}
    requires s'.rcv.lock == s.rcv.lock && s'.snd.lock == s.snd.lock && s'.suspender == s.suspender
    requires s'.phase == s.phase
             || (s.phase[t] == Out && exists role :: s'.phase == s.phase[t := Failed(role)])
    ensures Phases(s')
  {
  }

  lemma TryCovered(s: State, t: Task, op: Op, s': State)
    requires 0 <= s.msgs <= s.length && s'.length == s.length && 0 <= s'.msgs <= s.length
    requires op == Overwrite ==> s.length == 1
    requires s.rcv.lock == s'.rcv.lock == UNLOCKED && s.snd.lock == s'.snd.lock == UNLOCKED
    requires t in s.rcv.woken ==> op == Receive || op == Peek
    requires t in s.snd.woken ==> op == Send
    requires s'.rcv.wait != [] ==> s.rcv.wait != [] && Covered(s.rcv, s.msgs, |s.phase.Keys|)
    requires s'.snd.wait != [] ==> s.snd.wait != [] && Covered(s.snd, s.length - s.msgs, |s.phase.Keys|)
    requires s'.rcv.wait != [] ==>
               |s'.rcv.woken| == |s.rcv.woken| - (if t in s.rcv.woken then 1 else 0) + if TellsReceivers(s, op) then 1 else 0
    requires s'.snd.wait != [] ==>
               |s'.snd.woken| == |s.snd.woken| - (if t in s.snd.woken then 1 else 0) + if TellsSenders(s, op) then 1 else 0
    requires op == Receive && s.msgs > 0 ==> s'.msgs == s.msgs - 1
    requires op == Send && s.msgs < s.length ==> s'.msgs == s.msgs + 1
    requires s'.msgs <= s.msgs + (if TellsReceivers(s, op) && op != Peek then 1 else 0)
    requires s'.msgs >= s.msgs - (if TellsSenders(s, op) then 1 else 0)
    requires s'.phase.Keys == s.phase.Keys
    ensures s'.rcv.wait != [] ==> Covered(s'.rcv, s'.msgs, |s.phase.Keys|)
    ensures s'.snd.wait != [] ==> Covered(s'.snd, s.length - s'.msgs, |s.phase.Keys|)
  {
  }

  lemma NotLockedAfter(s: State, t: Task)
    requires t in s.phase && (s.suspender == None || (s.suspender == Some(t) && s.phase[t] == Paused))
    ensures Wanted(s.rcv, s, Receiver) == (s.rcv.wait != []) && Wanted(s.snd, s, Sender) == (s.snd.wait != [])
  {
  }

  // ---------------------------------------------------------------- interrupts and time-outs

  lemma NotifySide(d: Side, tasks: set<Task>)
    requires SideInv(d, tasks)
    ensures var d' := Notify(d, |tasks|);
            && SideInv(d', tasks) && (d'.lock == UNLOCKED <==> d.lock == UNLOCKED)
            && Members(d') <= Members(d)
            && (d'.wait != [] ==> d.wait != [])
  {
  }

  /** A wake-up, or a count, covers one more event. */
  lemma NotifyCovers(d: Side, tasks: set<Task>, available: int)
    requires SideInv(d, tasks)
    ensures var d' := Notify(d, |tasks|);
            (d.lock == UNLOCKED && d'.wait == []) || (Covered(d, available, |tasks|) ==> Covered(d', available + 1, |tasks|))
  {
  }

  lemma IsrSendInv(s: State, overwrite: bool)
    requires Inv(s) && Enabled(s, IsrSend(overwrite))
    ensures Inv(Step(s, IsrSend(overwrite), |s.phase.Keys|))
  {
    hide SideInv, Phases, Notify, Members, AboutToPlace;
    NotifySide(s.rcv, s.phase.Keys);
    NotifyCovers(s.rcv, s.phase.Keys, s.msgs);
    PlacingLocks(s);
    var s' := Step(s, IsrSend(overwrite), |s.phase.Keys|);
    SamePlacing(s, s');
    CoveredLess(s.rcv, s.snd, s.phase.Keys, s.msgs, s.length - s.msgs);
    hide Covered;
    SamePhases(s, s');
  }

  lemma IsrReceiveInv(s: State)
    requires Inv(s)
    ensures Inv(Step(s, IsrReceive, |s.phase.Keys|))
  {
    hide SideInv, Phases, Notify, Members, AboutToPlace;
    NotifySide(s.snd, s.phase.Keys);
    NotifyCovers(s.snd, s.phase.Keys, s.length - s.msgs);
    PlacingLocks(s);
    var s' := Step(s, IsrReceive, |s.phase.Keys|);
    SamePlacing(s, s');
    CoveredLess(s.snd, s.rcv, s.phase.Keys, s.length - s.msgs, s.msgs);
    hide Covered;
    SamePhases(s, s');
  }

  lemma SamePlacing(s: State, s': State)
    requires s'.phase == s.phase && s'.suspender == s.suspender
    ensures forall role :: AboutToPlace(s', role) == AboutToPlace(s, role)
  {
  }

  lemma CoveredLess(told: Side, other: Side, tasks: set<Task>, a: int, b: int)
    ensures Covered(other, b, |tasks|) ==> Covered(other, b - 1, |tasks|)
    ensures Covered(Notify(told, |tasks|), a + 1, |tasks|) ==> Covered(Notify(told, |tasks|), a, |tasks|)
  {
  }

  /** Whoever is about to be placed on a list has the queue locked. */
  lemma PlacingLocks(s: State)
    requires Phases(s)
    ensures AboutToPlace(s, Receiver) || AboutToPlace(s, Sender) ==> s.rcv.lock != UNLOCKED && s.snd.lock != UNLOCKED
  {
  }

  lemma TimeOutInv(s: State, t: Task)
    requires Inv(s) && Enabled(s, TimeOut(t))
    ensures Inv(Step(s, TimeOut(t), |s.phase.Keys|))
  {
    hide SideInv, Phases, Waiting, Leave;
    var s' := s.(rcv := Leave(s.rcv, t), snd := Leave(s.snd, t));
    LeaveSide(s.rcv, s.phase.Keys, t);
    LeaveSide(s.snd, s.phase.Keys, t);
    assert Involved(s') <= Involved(s);
    hide Involved;
    SamePhases(s, s');
    hide Covered;
  }

  // ---------------------------------------------------------------- blocking and unlocking

  lemma SuspendInv(s: State, e: Event)
    requires Inv(s) && Enabled(s, e) && (e.Suspend? || e.Pause? || e.Resume?)
    ensures Inv(Step(s, e, |s.phase.Keys|))
  {
    hide SideInv, Owners;
    var s' := Step(s, e, |s.phase.Keys|);
    assert s'.phase.Keys == s.phase.Keys;
    assert Involved(s') == Involved(s);
    hide Involved;
  }

  lemma LockInv(s: State, t: Task)
    requires Inv(s) && Enabled(s, LockQueue(t))
    ensures Inv(Step(s, LockQueue(t), |s.phase.Keys|))
  {
    hide SideInv, Owners, Members;
    LockSide(s.rcv, s.phase.Keys, t);
    LockSide(s.snd, s.phase.Keys, t);
    var s' := Step(s, LockQueue(t), |s.phase.Keys|);
    assert s'.phase.Keys == s.phase.Keys;
    assert Involved(s') == Involved(s);
    hide Involved;
  }

  lemma LockSide(d: Side, tasks: set<Task>, t: Task)
    requires SideInv(d, tasks) && t in tasks
    ensures SideInv(Lock(d), tasks) && Members(Lock(d)) == Members(d)
  {
  }

  lemma CheckInv(s: State, t: Task, expired: bool)
    requires Inv(s) && Enabled(s, Check(t, expired))
    ensures Inv(Step(s, Check(t, expired), |s.phase.Keys|))
  {
    hide SideInv, Owners;
    var s' := Step(s, Check(t, expired), |s.phase.Keys|);
    assert s'.phase.Keys == s.phase.Keys;
    assert Involved(s') == Involved(s);
    hide Involved;
  }

  /** The task that holds the scheduler goes from one phase to another. */
  lemma Moves(s: State, t: Task, s': State)
    requires Phases(s) && t in s.phase && HoldsScheduler(s.phase[t])
    requires t in s'.phase && s'.phase == s.phase[t := s'.phase[t]] && s'.suspender == s.suspender
    requires HoldsScheduler(s'.phase[t]) && !Absent(s'.phase[t]) && Involved(s') <= Involved(s) + {t}
    requires s'.rcv.lock != UNLOCKED <==> TxLocked(s'.phase[t])
    requires s'.snd.lock != UNLOCKED <==> RxLocked(s'.phase[t])
    ensures Phases(s') && s'.phase.Keys == s.phase.Keys
    ensures Wanted(s'.rcv, s', Receiver) == (s'.rcv.wait != []) && Wanted(s'.snd, s', Sender) == (s'.snd.wait != [])
  {
  }

  lemma PlaceInv(s: State, t: Task, priority: nat)
    requires Inv(s) && Enabled(s, Place(t, priority))
    ensures Inv(Step(s, Place(t, priority), |s.phase.Keys|))
  {
    hide SideInv, Waiting, Arrive, Phases;
    var s' := Step(s, Place(t, priority), |s.phase.Keys|);
    AboutToWait(s, t);
    if s.phase[t].role == Receiver {
      ArriveSide(s.rcv, s.phase.Keys, t, priority);
    } else {
      ArriveSide(s.snd, s.phase.Keys, t, priority);
    }
    assert Involved(s') <= Involved(s) + {t};
    assert t !in Waiting(s.rcv) && t !in Waiting(s.snd) && t !in s.rcv.woken && t !in s.snd.woken;
    hide Involved;
    Moves(s, t, s');
  }

  lemma AboutToWait(s: State, t: Task)
    requires Phases(s) && t in s.phase && s.phase[t].Placing?
    ensures t !in Involved(s) && s.suspender == Some(t)
    ensures s.rcv.lock != UNLOCKED && s.snd.lock != UNLOCKED
  {
  }

  lemma UnlockTxInv(s: State, t: Task)
    requires Inv(s) && Enabled(s, UnlockTx(t))
    ensures Inv(Step(s, UnlockTx(t), |s.phase.Keys|))
  {
    hide SideInv, Waiting, Unlock, Phases;
    var s' := Step(s, UnlockTx(t), |s.phase.Keys|);
    HalfLocked(s, t);
    UnlockSide(s.rcv, s.phase.Keys, s.msgs);
    assert Involved(s') <= Involved(s);
    hide Involved;
    Moves(s, t, s');
  }

  lemma UnlockRxInv(s: State, t: Task)
    requires Inv(s) && Enabled(s, UnlockRx(t))
    ensures Inv(Step(s, UnlockRx(t), |s.phase.Keys|))
  {
    hide SideInv, Waiting, Unlock, Phases;
    var s' := Step(s, UnlockRx(t), |s.phase.Keys|);
    HalfLocked(s, t);
    UnlockSide(s.snd, s.phase.Keys, s.length - s.msgs);
    assert Involved(s') <= Involved(s);
    hide Involved;
    Moves(s, t, s');
  }

  lemma HalfLocked(s: State, t: Task)
    requires Phases(s) && t in s.phase
    ensures s.phase[t] == Unlocking ==> s.rcv.lock != UNLOCKED && s.snd.lock != UNLOCKED
    ensures s.phase[t] == HalfUnlocked ==> s.rcv.lock == UNLOCKED && s.snd.lock != UNLOCKED
  {
  }

  // ---------------------------------------------------------------- runs

  /** Every step keeps the invariant. */
  lemma StepInv(s: State, e: Event)
    requires Inv(s) && Enabled(s, e)
    ensures Inv(Step(s, e, |s.phase.Keys|))
    ensures Step(s, e, |s.phase.Keys|).phase.Keys == s.phase.Keys && Step(s, e, |s.phase.Keys|).length == s.length
  {
    StepKeeps(s, e, |s.phase.Keys|);
    hide Inv, Enabled;
    match e
    case Attempt(t, op, patient) => TryInv(s, t, op, patient);
    case Suspend(_) => SuspendInv(s, e);
    case LockQueue(t) => LockInv(s, t);
    case Check(t, expired) => CheckInv(s, t, expired);
    case Place(t, priority) => PlaceInv(s, t, priority);
    case UnlockTx(t) => UnlockTxInv(s, t);
    case UnlockRx(t) => UnlockRxInv(s, t);
    case Resume(_) => SuspendInv(s, e);
    case Pause(_) => SuspendInv(s, e);
    case TimeOut(t) => TimeOutInv(s, t);
    case IsrSend(overwrite) => IsrSendInv(s, overwrite);
    case IsrReceive => IsrReceiveInv(s);
  }

  lemma StepKeeps(s: State, e: Event, cap: nat)
    requires Enabled(s, e)
    ensures Step(s, e, cap).phase.Keys == s.phase.Keys && Step(s, e, cap).length == s.length
  {
  }

  /** An empty queue of `length` items, before any of the tasks has used it. */
  function Start(length: nat, tasks: set<Task>): State {
    State(0, length, Side([], {}, UNLOCKED), Side([], {}, UNLOCKED), map t | t in tasks :: Out, None)
  }

  lemma StartInv(length: nat, tasks: set<Task>)
    ensures Inv(Start(length, tasks))
  {
  }

  ghost predicate AllowedRun(s: State, es: seq<Event>, cap: nat)
    decreases |es|
  {
    es == [] || (Enabled(s, es[0]) && AllowedRun(Step(s, es[0], cap), es[1..], cap))
  }

  function Run(s: State, es: seq<Event>, cap: nat): State
    requires AllowedRun(s, es, cap)
    decreases |es|
  {
    if es == [] then s else Run(Step(s, es[0], cap), es[1..], cap)
  }

  lemma {:induction false} RunInv(s: State, es: seq<Event>)
    requires Inv(s) && AllowedRun(s, es, |s.phase.Keys|)
    ensures Inv(Run(s, es, |s.phase.Keys|))
    ensures Run(s, es, |s.phase.Keys|).phase.Keys == s.phase.Keys && Run(s, es, |s.phase.Keys|).length == s.length
    decreases |es|
  {
    hide Inv, Step, Enabled;
    if es != [] {
      StepInv(s, es[0]);
      RunInv(Step(s, es[0], |s.phase.Keys|), es[1..]);
    }
  }

  /** No wake-up is lost: over every interleaving, while the queue is not locked a
      receiver is left waiting only if every message has a woken receiver, not yet
      run again, that will see it; and the same for senders and free slots. */
  lemma NoLostWakeUp(length: nat, tasks: set<Task>, es: seq<Event>)
    requires AllowedRun(Start(length, tasks), es, |tasks|)
    ensures var s := Run(Start(length, tasks), es, |tasks|);
            && (s.rcv.lock == UNLOCKED && s.rcv.wait != [] ==> s.msgs <= |s.rcv.woken|)
            && (s.snd.lock == UNLOCKED && s.snd.wait != [] ==> s.length - s.msgs <= |s.snd.woken|)
            && 0 <= s.msgs <= length == s.length
  {
    hide Enabled, Step, AllowedRun, Run;
    StartInv(length, tasks);
    assert Start(length, tasks).phase.Keys == tasks;
    RunInv(Start(length, tasks), es);
  }

  /** In particular nobody sleeps beside a message, or a free slot, once every
      woken task has run. */
  lemma SettledQueue(length: nat, tasks: set<Task>, es: seq<Event>)
    requires AllowedRun(Start(length, tasks), es, |tasks|)
    ensures var s := Run(Start(length, tasks), es, |tasks|);
            s.suspender == None && s.rcv.woken == {} && s.snd.woken == {} ==>
              && (s.msgs > 0 ==> s.rcv.wait == []) && (s.msgs < s.length ==> s.snd.wait == [])
              && (length > 0 ==> s.rcv.wait == [] || s.snd.wait == [])
  {
    hide Enabled, Step, AllowedRun, Run;
    StartInv(length, tasks);
    assert Start(length, tasks).phase.Keys == tasks;
    RunInv(Start(length, tasks), es);
  }

  // ---------------------------------------------------------------- no wake-up without an event

  /** Exactly whom waking `k` tasks wakes: the first `k`, or all there are. */
  lemma {:induction false} WakeManyExactly(d: Side, k: int)
    ensures var n := if k <= 0 then 0 else if k <= |d.wait| then k else |d.wait|;
            WakeMany(d, k) == Side(d.wait[n..], d.woken + Owners(d.wait[..n]), d.lock)
    decreases k
  {
    if k > 0 && d.wait != [] {
      var n := if k <= |d.wait| then k else |d.wait|;
      WakeManyExactly(WakeHead(d), k - 1);
      assert d.wait[1..][..n - 1] == d.wait[..n][1..];
      assert d.wait[1..][n - 1..] == d.wait[n..];
      HeadOwner(d.wait[..n]);
      hide Owners;
    } else {
      assert Owners([]) == {};
    }
  }

  /** Unlocking wakes one task for each event counted, the first ones, and nobody else. */
  lemma UnlockExactly(d: Side)
    ensures var k := if d.lock <= 0 then 0 else if d.lock <= |d.wait| then d.lock else |d.wait|;
            Unlock(d) == Side(d.wait[k..], d.woken + Owners(d.wait[..k]), UNLOCKED)
  {
    WakeManyExactly(d, d.lock);
  }

  function SideOf(s: State, role: Role): Side {
    if role == Receiver then s.rcv else s.snd
  }

  /** The wake-ups that a lock count still owes. */
  function Owed(d: Side): nat {
    if d.lock > 0 then d.lock else 0
  }

  /** The step is an event for a role: a message arrives, or is left for another
      receiver to see; a message is taken. */
  predicate Tells(s: State, e: Event, role: Role) {
    match e
    case Attempt(_, op, _) => if role == Receiver then TellsReceivers(s, op) else TellsSenders(s, op)
    case IsrSend(overwrite) => role == Receiver && (s.msgs < s.length || overwrite)
    case IsrReceive => role == Sender && s.msgs > 0
    case _ => false
  }

  /** The tasks that a step takes off a waiting list, time-outs aside. */
  function Called(s: State, e: Event, role: Role, cap: nat): set<Task>
    requires Enabled(s, e)
  {
    if e.TimeOut? then {} else Waiting(SideOf(s, role)) - Waiting(SideOf(Step(s, e, cap), role))
  }

  /** At most `events` tasks leave the list of a side, counting those its lock owes before and after. */
  ghost predicate Calls(d: Side, d': Side, events: nat) {
    |Waiting(d) - Waiting(d')| + Owed(d') <= Owed(d) + events
  }

  lemma SameCalls(d: Side, d': Side)
    requires d'.wait == d.wait && Owed(d') == Owed(d)
    ensures Calls(d, d', 0)
  {
  }

  lemma RanCalls(d: Side, t: Task, event: bool)
    requires Distinct(d.wait)
    ensures Calls(d, Ran(d, t, event), if event then 1 else 0)
  {
    var d' := Ran(d, t, event);
    if event && d.wait != [] {
      HeadOwner(d.wait);
      hide Owners;
      assert Waiting(d) - Waiting(d') == {d.wait[0].owner};
    } else {
      assert Waiting(d) - Waiting(d') == {};
    }
  }

  lemma NotifyCalls(d: Side, cap: nat)
    requires Distinct(d.wait) && d.lock >= UNLOCKED
    ensures Calls(d, Notify(d, cap), 1)
  {
    if d.lock == UNLOCKED && d.wait != [] {
      HeadOwner(d.wait);
      hide Owners;
      assert Waiting(d) - Waiting(WakeHead(d)) == {d.wait[0].owner};
    } else {
      assert Waiting(d) - Waiting(Notify(d, cap)) == {};
    }
  }

  lemma UnlockCalls(d: Side)
    requires Distinct(d.wait)
    ensures Calls(d, Unlock(d), 0)
  {
    UnlockExactly(d);
    var k := if d.lock <= 0 then 0 else if d.lock <= |d.wait| then d.lock else |d.wait|;
    assert d.wait == d.wait[..k] + d.wait[k..];
    OwnersConcat(d.wait[..k], d.wait[k..]);
    DistinctCount(d.wait[..k]);
    hide Owners, Unlock;
    SubsetCount(Waiting(d) - Waiting(Unlock(d)), Owners(d.wait[..k]));
  }

  lemma ArriveCalls(d: Side, t: Task, priority: nat)
    requires priority < MAX_PRIORITIES
    ensures Calls(d, Arrive(d, t, priority), 0)
  {
    var e := Entry(t, MAX_PRIORITIES - priority);
    InsertOwner(d.wait, e, InsertPos(d.wait, e.value));
    hide Owners, InsertPos;
    assert Waiting(d) - Waiting(Arrive(d, t, priority)) == {};
  }

  /** What a step means for one side. */
  datatype Change = Same | Locks | Runs(t: Task, told: bool) | Notified | Unlocked | Arrives(t: Task, priority: nat) | Leaves(t: Task)

  function ChangeOf(s: State, e: Event, role: Role): Change
    requires Enabled(s, e)
  {
    match e
    case Attempt(t, op, _) => Runs(t, Tells(s, e, role))
    case LockQueue(_) => Locks
    case Place(t, priority) => if role == s.phase[t].role then Arrives(t, priority) else Same
    case UnlockTx(_) => if role == Receiver then Unlocked else Same
    case UnlockRx(_) => if role == Sender then Unlocked else Same
    case TimeOut(t) => Leaves(t)
    case IsrSend(_) => if Tells(s, e, role) then Notified else Same
    case IsrReceive => if Tells(s, e, role) then Notified else Same
    case _ => Same
  }

  function Changed(d: Side, c: Change, cap: nat): Side
    requires c.Arrives? ==> c.priority < MAX_PRIORITIES
  {
    match c
    case Same => d
    case Locks => Lock(d)
    case Runs(t, told) => Ran(d, t, told)
    case Notified => Notify(d, cap)
    case Unlocked => Unlock(d)
    case Arrives(t, priority) => Arrive(d, t, priority)
    case Leaves(t) => Leave(d, t)
  }

  lemma StepChanges(s: State, e: Event, role: Role, cap: nat)
    requires Enabled(s, e)
    ensures var c := ChangeOf(s, e, role);
            && (c.Arrives? ==> c.priority < MAX_PRIORITIES && e.Place? && c.t == e.t)
            && SideOf(Step(s, e, cap), role) == Changed(SideOf(s, role), c, cap)
            && (Tells(s, e, role) <==> c.Notified? || (c.Runs? && c.told)) && (c.Leaves? <==> e.TimeOut?)
            && (c.Leaves? ==> c.t == e.t)
  {
    hide Unlock, Arrive, Leave, WakeHead, Notify, Lock;
  }

  /** A step takes off a list no more tasks than there were events: its own, if it is
      one, and those that were counted. */
  lemma StepCalls(s: State, e: Event, role: Role, cap: nat)
    requires Enabled(s, e) && !e.TimeOut? && SideInv(SideOf(s, role), s.phase.Keys)
    ensures Calls(SideOf(s, role), SideOf(Step(s, e, cap), role), if Tells(s, e, role) then 1 else 0)
  {
    StepChanges(s, e, role, cap);
    var d, c := SideOf(s, role), ChangeOf(s, e, role);
    hide Calls, Sorted, Distinct, Unlock, Arrive, Leave, Notify, Ran, Owners, Step, Tells, Enabled, ChangeOf;
    match c
    case Runs(t, told) => RanCalls(d, t, told);
    case Notified => NotifyCalls(d, cap);
    case Unlocked => UnlockCalls(d);
    case Arrives(t, priority) => ArriveCalls(d, t, priority);
    case Same => SameCalls(d, d);
    case Locks => SameCalls(d, Lock(d));
  }

  /** How many tasks a run takes off a list, and how many events for it there are. */
  function CallsIn(s: State, es: seq<Event>, role: Role, cap: nat): nat
    requires AllowedRun(s, es, cap)
    decreases |es|
  {
    if es == [] then 0
    else |Called(s, es[0], role, cap)| + CallsIn(Step(s, es[0], cap), es[1..], role, cap)
  }

  function EventsIn(s: State, es: seq<Event>, role: Role, cap: nat): nat
    requires AllowedRun(s, es, cap)
    decreases |es|
  {
    if es == [] then 0
    else (if Tells(s, es[0], role) then 1 else 0) + EventsIn(Step(s, es[0], cap), es[1..], role, cap)
  }

  lemma InvSide(s: State, role: Role)
    requires Inv(s)
    ensures SideInv(SideOf(s, role), s.phase.Keys)
  {
  }

  /** Nobody is woken without an event: over every interleaving, the tasks woken and
      the wake-ups still owed are no more than the events that happened and those
      owed before. */
  lemma {:induction false} WakeUpsNeedEvents(s: State, es: seq<Event>, role: Role)
    requires Inv(s) && AllowedRun(s, es, |s.phase.Keys|)
    ensures var cap := |s.phase.Keys|;
            CallsIn(s, es, role, cap) + Owed(SideOf(Run(s, es, cap), role))
              <= Owed(SideOf(s, role)) + EventsIn(s, es, role, cap)
    decreases |es|
  {
    hide Inv, Step, Enabled, Tells, SideInv;
    if es != [] {
      var cap, e := |s.phase.Keys|, es[0];
      StepInv(s, e);
      InvSide(s, role);
      if e.TimeOut? {
        TimeOutOwes(s, e, role, cap);
      } else {
        StepCalls(s, e, role, cap);
      }
      WakeUpsNeedEvents(Step(s, e, cap), es[1..], role);
    }
  }

  lemma TimeOutOwes(s: State, e: Event, role: Role, cap: nat)
    requires Enabled(s, e) && e.TimeOut?
    ensures Owed(SideOf(Step(s, e, cap), role)) == Owed(SideOf(s, role)) && !Tells(s, e, role)
  {
  }

  /** So a waiting task stays on its list, through any unlocking, until there is an
      event or its time is up. */
  lemma {:induction false} StaysWaiting(s: State, es: seq<Event>, role: Role, t: Task)
    requires Inv(s) && AllowedRun(s, es, |s.phase.Keys|) && t in Waiting(SideOf(s, role)) && Owed(SideOf(s, role)) == 0
    requires EventsIn(s, es, role, |s.phase.Keys|) == 0 && TimeOut(t) !in es
    ensures var d := SideOf(Run(s, es, |s.phase.Keys|), role); t in Waiting(d) && Owed(d) == 0
    decreases |es|
  {
    hide Inv, Step, Enabled, Tells, SideInv, Waiting;
    if es != [] {
      var cap, e := |s.phase.Keys|, es[0];
      StepInv(s, e);
      InvSide(s, role);
      StepStays(s, e, role, t);
      StaysWaiting(Step(s, e, cap), es[1..], role, t);
    }
  }

  lemma StepStays(s: State, e: Event, role: Role, t: Task)
    requires Enabled(s, e) && SideInv(SideOf(s, role), s.phase.Keys) && !Tells(s, e, role) && e != TimeOut(t)
    requires Owed(SideOf(s, role)) == 0
    ensures var d' := SideOf(Step(s, e, |s.phase.Keys|), role);
            Owed(d') == 0 && (t in Waiting(SideOf(s, role)) ==> t in Waiting(d'))
  {
    var d, d' := SideOf(s, role), SideOf(Step(s, e, |s.phase.Keys|), role);
    if e.TimeOut? {
      LeaveSide(d, s.phase.Keys, e.t);
    } else {
      StepCalls(s, e, role, |s.phase.Keys|);
      hide Step, Enabled, Tells, SideInv, Waiting;
      assert t in Waiting(d) && t !in Waiting(d') ==> t in Waiting(d) - Waiting(d');
    }
  }

  /** In particular through its own: a task that has locked the queue and placed itself
      on a list is still there behind prvUnlockQueue if nothing happened since the lock. */
  lemma PlacedStays(s: State, before: seq<Event>, t: Task, priority: nat, after: seq<Event>, role: Role)
    requires Inv(s) && Owed(SideOf(s, role)) == 0
    requires var cap := |s.phase.Keys|;
             && AllowedRun(s, before, cap) && Enabled(Run(s, before, cap), Place(t, priority))
             && Run(s, before, cap).phase[t].role == role
             && var s1 := Step(Run(s, before, cap), Place(t, priority), cap);
             && AllowedRun(s1, after, cap) && TimeOut(t) !in after
             && EventsIn(s, before, role, cap) == 0 && EventsIn(s1, after, role, cap) == 0
    ensures var cap := |s.phase.Keys|;
            t in Waiting(SideOf(Run(Step(Run(s, before, cap), Place(t, priority), cap), after, cap), role))
  {
    var cap := |s.phase.Keys|;
    var s0 := Run(s, before, cap);
    RunInv(s, before);
    WakeUpsNeedEvents(s, before, role);
    StepInv(s0, Place(t, priority));
    PlacedWaits(s0, t, priority, role);
    hide Step, Enabled, Inv, Waiting, Run, AllowedRun;
    StaysWaiting(Step(s0, Place(t, priority), cap), after, role, t);
  }

  lemma PlacedWaits(s: State, t: Task, priority: nat, role: Role)
    requires Enabled(s, Place(t, priority)) && s.phase[t].role == role
    ensures var d := SideOf(Step(s, Place(t, priority), |s.phase.Keys|), role);
            t in Waiting(d) && Owed(d) == Owed(SideOf(s, role))
  {
    var d := SideOf(s, role);
    var e := Entry(t, MAX_PRIORITIES - priority);
    InsertOwner(d.wait, e, InsertPos(d.wait, e.value));
    hide Owners, InsertPos;
  }

  /** The task is not on its way to a waiting list. */
  predicate NotBlocking(p: Phase) {
    !p.Failed? && !p.Suspended? && !p.Locked? && !p.Placing?
  }

  /** A call that is given up, its time being up or the queue no longer empty or full,
      never puts its task on a list; only another attempt can. */
  lemma GivenUpIsNotPlaced(s: State, t: Task, expired: bool, es: seq<Event>)
    requires Inv(s) && Enabled(s, Check(t, expired))
    requires expired || (if s.phase[t].role == Receiver then s.msgs > 0 else s.msgs < s.length)
    requires AllowedRun(Step(s, Check(t, expired), |s.phase.Keys|), es, |s.phase.Keys|)
    requires forall i | 0 <= i < |es| :: !(es[i].Attempt? && es[i].t == t)
    ensures Idle(Run(Step(s, Check(t, expired), |s.phase.Keys|), es, |s.phase.Keys|), t)
  {
    var s1 := Step(s, Check(t, expired), |s.phase.Keys|);
    StepInv(s, Check(t, expired));
    assert Idle(s1, t) && NotBlocking(s1.phase[t]);
    hide Step, Enabled, Inv, Idle;
    StaysIdle(s1, t, es);
  }

  lemma {:induction false} StaysIdle(s: State, t: Task, es: seq<Event>)
    requires Inv(s) && t in s.phase && Idle(s, t) && NotBlocking(s.phase[t])
    requires AllowedRun(s, es, |s.phase.Keys|) && forall i | 0 <= i < |es| :: !(es[i].Attempt? && es[i].t == t)
    ensures Idle(Run(s, es, |s.phase.Keys|), t)
    decreases |es|
  {
    hide Step, Enabled, Inv, Idle, NotBlocking;
    if es != [] {
      StepInv(s, es[0]);
      StepIdle(s, t, es[0]);
      assert forall i | 0 <= i < |es[1..]| :: es[1..][i] == es[i + 1];
      StaysIdle(Step(s, es[0], |s.phase.Keys|), t, es[1..]);
    }
  }

  lemma StepIdle(s: State, t: Task, e: Event)
    requires Inv(s) && Enabled(s, e) && t in s.phase && Idle(s, t) && NotBlocking(s.phase[t]) && !(e.Attempt? && e.t == t)
    ensures var s' := Step(s, e, |s.phase.Keys|); t in s'.phase && Idle(s', t) && NotBlocking(s'.phase[t])
  {
    StepJoins(s, e, Receiver);
    StepJoins(s, e, Sender);
    StepPhase(s, t, e);
    hide Inv, Waiting, Step, Enabled, NotBlocking;
  }

  lemma StepPhase(s: State, t: Task, e: Event)
    requires Enabled(s, e) && t in s.phase && NotBlocking(s.phase[t]) && !(e.Attempt? && e.t == t)
    ensures var s' := Step(s, e, |s.phase.Keys|); t in s'.phase && NotBlocking(s'.phase[t])
    ensures e.Place? ==> e.t != t
  {
    hide Notify, Unlock, Arrive, Leave, WakeHead, Lock, Waiting;
  }

  /** Only a task that is being placed comes to be on a list. */
  lemma StepJoins(s: State, e: Event, role: Role)
    requires Inv(s) && Enabled(s, e)
    ensures Waiting(SideOf(Step(s, e, |s.phase.Keys|), role)) <= Waiting(SideOf(s, role)) + if e.Place? then {e.t} else {}
  {
    InvSide(s, role);
    StepChanges(s, e, role, |s.phase.Keys|);
    var d, c := SideOf(s, role), ChangeOf(s, e, role);
    hide Waiting, SideInv, Inv, Unlock, Arrive, Leave, WakeHead, Step, Tells, Enabled, ChangeOf;
    match c
    case Same =>
    case Locks => SameWaiting(d, Lock(d));
    case Runs(t, told) =>
      SameWaiting(d, Rerun(d, t));
      WakeHeadJoins(Rerun(d, t));
    case Notified =>
      WakeHeadJoins(d);
      SameWaiting(d, d.(lock := d.lock + 1));
    case Unlocked => UnlockJoins(d);
    case Arrives(t, priority) => ArriveJoins(d, t, priority);
    case Leaves(t) => LeaveSide(d, s.phase.Keys, t);
  }

  lemma SameWaiting(d: Side, d': Side)
    requires d'.wait == d.wait
    ensures Waiting(d') == Waiting(d)
  {
  }

  lemma WakeHeadJoins(d: Side)
    ensures Waiting(WakeHead(d)) <= Waiting(d)
  {
  }

  lemma UnlockJoins(d: Side)
    ensures Waiting(Unlock(d)) <= Waiting(d)
  {
    UnlockExactly(d);
  }

  lemma ArriveJoins(d: Side, t: Task, priority: nat)
    requires priority < MAX_PRIORITIES
    ensures Waiting(Arrive(d, t, priority)) <= Waiting(d) + {t}
  {
    var e := Entry(t, MAX_PRIORITIES - priority);
    InsertOwner(d.wait, e, InsertPos(d.wait, e.value));
    hide Owners, InsertPos;
  }

  /** A step brings in or takes out a message. */
  predicate Brings(s: State, e: Event) {
    match e
    case Attempt(_, op, _) => (op == Send && s.msgs < s.length) || (op == Overwrite && s.msgs == 0)
    case IsrSend(_) => s.msgs < s.length
    case _ => false
  }

  predicate Takes(s: State, e: Event) {
    match e
    case Attempt(_, op, _) => op == Receive && s.msgs > 0
    case IsrReceive => s.msgs > 0
    case _ => false
  }

  function Balance(s: State, es: seq<Event>, cap: nat): int
    requires AllowedRun(s, es, cap)
    decreases |es|
  {
    if es == [] then 0
    else (if Brings(s, es[0]) then 1 else 0) - (if Takes(s, es[0]) then 1 else 0) + Balance(Step(s, es[0], cap), es[1..], cap)
  }

  /** Over every run the messages waiting are those brought in less those taken. */
  lemma {:induction false} MessagesAddUp(s: State, es: seq<Event>)
    requires Inv(s) && AllowedRun(s, es, |s.phase.Keys|)
    ensures Run(s, es, |s.phase.Keys|).msgs == s.msgs + Balance(s, es, |s.phase.Keys|)
    decreases |es|
  {
    hide Inv, Step, Enabled, Brings, Takes;
    if es != [] {
      StepInv(s, es[0]);
      StepBalance(s, es[0], |s.phase.Keys|);
      MessagesAddUp(Step(s, es[0], |s.phase.Keys|), es[1..]);
    }
  }

  lemma StepBalance(s: State, e: Event, cap: nat)
    requires Inv(s) && Enabled(s, e)
    ensures Step(s, e, cap).msgs == s.msgs + (if Brings(s, e) then 1 else 0) - (if Takes(s, e) then 1 else 0)
  {
    hide SideInv, Phases, Covered, Unlock, Arrive, Leave, Notify, WakeHead, Lock, Idle;
  }

  /** The count of messages follows that of the ring that keeps them. */
  lemma CountIsTheRings(s: State, e: Event, cap: nat, itemSize: nat)
    requires Inv(s) && Enabled(s, e) && itemSize > 0
    ensures e.Attempt? && e.op == Send && s.msgs < s.length ==> Step(s, e, cap).msgs == CountAfter(s.msgs, itemSize, ToTheBack)
    ensures e.Attempt? && e.op == Overwrite ==> Step(s, e, cap).msgs == CountAfter(s.msgs, itemSize, Overwriting)
    ensures e.IsrSend? && s.msgs < s.length ==>
              Step(s, e, cap).msgs == CountAfter(s.msgs, itemSize, if e.overwrite then Overwriting else ToTheBack)
    ensures e.IsrSend? && s.msgs == s.length && s.msgs > 0 && e.overwrite ==> Step(s, e, cap).msgs == CountAfter(s.msgs, itemSize, Overwriting)
  {
    StepBalance(s, e, cap);
    hide Step, SideInv, Phases, Covered;
  }

  /** The lock counters never overflow their int8_t, nor meet the assertion that
      guards them, in a system of at most 127 tasks. */
  lemma CountersFit(length: nat, tasks: set<Task>, es: seq<Event>)
    requires AllowedRun(Start(length, tasks), es, |tasks|) && |tasks| <= INT8_MAX
    ensures var s := Run(Start(length, tasks), es, |tasks|);
            && UNLOCKED <= s.rcv.lock <= INT8_MAX && (s.rcv.lock < |tasks| ==> s.rcv.lock != INT8_MAX)
            && UNLOCKED <= s.snd.lock <= INT8_MAX && (s.snd.lock < |tasks| ==> s.snd.lock != INT8_MAX)
  {
    hide Enabled, Step, AllowedRun, Run;
    StartInv(length, tasks);
    assert Start(length, tasks).phase.Keys == tasks;
    RunInv(Start(length, tasks), es);
  }

  // ---------------------------------------------------------------- the cap on the counts

  function TrimSide(d: Side, cap: nat): Side {
    if d.lock > cap then d.(lock := cap) else d
  }

  /** The state of a queue that counts without a cap, seen with the counts capped. */
  function Trim(s: State, cap: nat): State {
    s.(rcv := TrimSide(s.rcv, cap), snd := TrimSide(s.snd, cap))
  }

  lemma {:induction false} WakeManyEnough(d: Side, k: int, m: int, lock: int)
    requires |d.wait| <= k && |d.wait| <= m
    ensures WakeMany(d, k).(lock := lock) == WakeMany(d.(lock := lock), m)
    decreases |d.wait|
  {
    if d.wait != [] {
      WakeManyEnough(WakeHead(d), k - 1, m - 1, lock);
      assert WakeHead(d).(lock := lock) == WakeHead(d.(lock := lock));
    } else {
      WakesNobody(d, k);
      WakesNobody(d.(lock := lock), m);
    }
  }

  lemma UnlockTrimmed(d: Side, cap: nat)
    requires |d.wait| <= cap
    ensures Unlock(TrimSide(d, cap)) == TrimSide(Unlock(d), cap)
  {
    if d.lock > cap {
      WakeManyEnough(d, d.lock, cap, cap);
      hide WakeMany;
      assert WakeMany(d, d.lock).(lock := UNLOCKED) == WakeMany(d, d.lock).(lock := cap).(lock := UNLOCKED);
    }
  }

  lemma NotifyTrimmed(d: Side, cap: nat, big: nat)
    requires cap <= big
    ensures TrimSide(Notify(d, big), cap) == Notify(TrimSide(d, cap), cap)
  {
  }

  /** Capping the lock counts at the number of tasks changes nothing: a queue with
      any larger cap does the same, step by step. */
  lemma CapLosesNothing(s: State, e: Event, big: nat)
    requires Inv(Trim(s, |s.phase.Keys|)) && |s.phase.Keys| <= big && Enabled(s, e)
    ensures var cap := |s.phase.Keys|;
            Enabled(Trim(s, cap), e) && Trim(Step(s, e, big), cap) == Step(Trim(s, cap), e, cap)
  {
    var cap := |s.phase.Keys|;
    var r := Trim(s, cap);
    WaitingBound(r.rcv, s.phase.Keys);
    WaitingBound(r.snd, s.phase.Keys);
    hide Inv, Waiting;
    match e
    case IsrSend(_) => NotifyTrimmed(s.rcv, cap, big);
    case IsrReceive => NotifyTrimmed(s.snd, cap, big);
    case UnlockTx(_) =>
      UnlockTrimmed(s.rcv, cap);
    case UnlockRx(_) =>
      UnlockTrimmed(s.snd, cap);
    case Attempt(t, op, patient) => TryTrimmed(s, t, op, patient, cap);
    case Suspend(_) =>
    case LockQueue(_) =>
    case Check(_, _) =>
    case Place(_, _) =>
    case Resume(_) =>
    case Pause(_) =>
    case TimeOut(_) =>
  }

  lemma TryTrimmed(s: State, t: Task, op: Op, patient: bool, cap: nat)
    ensures Trim(Try(s, t, op, patient), cap) == Try(Trim(s, cap), t, op, patient)
  {
  }

  /** So whole runs agree, however large the other cap. */
  lemma {:induction false} CapLosesNothingInRuns(s: State, es: seq<Event>, big: nat)
    requires var cap := |s.phase.Keys|; cap <= big && Inv(Trim(s, cap)) && AllowedRun(s, es, big)
    ensures var cap := |s.phase.Keys|;
            AllowedRun(Trim(s, cap), es, cap) && Trim(Run(s, es, big), cap) == Run(Trim(s, cap), es, cap)
    decreases |es|
  {
    var cap := |s.phase.Keys|;
    if es != [] {
      CapLosesNothing(s, es[0], big);
      assert Trim(s, cap).phase.Keys == s.phase.Keys;
      hide Step, Enabled, Inv, Trim;
      StepInv(Trim(s, cap), es[0]);
      StepKeeps(s, es[0], big);
      CapLosesNothingInRuns(Step(s, es[0], big), es[1..], big);
    }
  }

  // ---------------------------------------------------------------- the code

  /** The fields of Queue_t the protocol is about.  The critical sections of the
      calls update them in place; `wokenReceivers` and `wokenSenders` record who has
      been removed from an event list and not run again. */
  class Queue {
    var messagesWaiting: nat
    const length: nat
    var waitingToReceive: seq<Entry<Task>>
    var waitingToSend: seq<Entry<Task>>
    var txLock: int
    var rxLock: int
    /** uxTaskGetNumberOfTasks() */
    const numberOfTasks: nat
    ghost var wokenReceivers: set<Task>
    ghost var wokenSenders: set<Task>

    ghost predicate Valid()
      reads this
    {
      && 1 <= length && messagesWaiting <= length && numberOfTasks <= INT8_MAX
      && UNLOCKED <= txLock <= numberOfTasks && UNLOCKED <= rxLock <= numberOfTasks
    }

    ghost function Receivers(): Side
      reads this
    {
      Side(waitingToReceive, wokenReceivers, txLock)
    }

    ghost function Senders(): Side
      reads this
    {
      Side(waitingToSend, wokenSenders, rxLock)
    }

    constructor (length: nat, numberOfTasks: nat)
      requires 1 <= length && numberOfTasks <= INT8_MAX
      ensures Valid() && messagesWaiting == 0 && this.length == length && this.numberOfTasks == numberOfTasks
      ensures Receivers() == Senders() == Side([], {}, UNLOCKED)
    {
      messagesWaiting, this.length, this.numberOfTasks := 0, length, numberOfTasks;
      waitingToReceive, waitingToSend, txLock, rxLock := [], [], UNLOCKED, UNLOCKED;
      wokenReceivers, wokenSenders := {}, {};
    }

    /** prvLockQueue */
    method LockQueue()
      requires Valid()
      modifies this`txLock, this`rxLock
      ensures Valid()
      ensures Receivers() == Lock(old(Receivers())) && Senders() == Lock(old(Senders()))
    {
      if rxLock == UNLOCKED {
        rxLock := 0;
      }
      if txLock == UNLOCKED {
        txLock := 0;
      }
    }

    /** xTaskRemoveFromEventList on each list */
    method WakeReceiver()
      requires waitingToReceive != []
      modifies this`waitingToReceive, this`wokenReceivers
      ensures Receivers() == WakeHead(old(Receivers()))
    {
      wokenReceivers := wokenReceivers + {waitingToReceive[0].owner};
      waitingToReceive := waitingToReceive[1..];
    }

    method WakeSender()
      requires waitingToSend != []
      modifies this`waitingToSend, this`wokenSenders
      ensures Senders() == WakeHead(old(Senders()))
    {
      wokenSenders := wokenSenders + {waitingToSend[0].owner};
      waitingToSend := waitingToSend[1..];
    }

    /** The first critical section of prvUnlockQueue. */
    method UnlockTx()
      requires Valid()
      modifies this`waitingToReceive, this`wokenReceivers, this`txLock
      ensures Valid() && Receivers() == Unlock(old(Receivers()))
    {
      var lock := txLock;
      while lock > 0
        invariant lock <= txLock == old(txLock)
        invariant WakeMany(Receivers(), lock) == WakeMany(old(Receivers()), old(txLock))
        decreases lock
      {
        if waitingToReceive != [] {
          WakeReceiver();
        } else {
          break;
        }
        lock := lock - 1;
      }
      txLock := UNLOCKED;
    }

    /** The second. */
    method UnlockRx()
      requires Valid()
      modifies this`waitingToSend, this`wokenSenders, this`rxLock
      ensures Valid() && Senders() == Unlock(old(Senders()))
    {
      var lock := rxLock;
      while lock > 0
        invariant lock <= rxLock == old(rxLock)
        invariant WakeMany(Senders(), lock) == WakeMany(old(Senders()), old(rxLock))
        decreases lock
      {
        if waitingToSend != [] {
          WakeSender();
          lock := lock - 1;
        } else {
          break;
        }
      }
      rxLock := UNLOCKED;
    }

    /** xQueueGenericSendFromISR and, with `overwrite` false, xQueueGiveFromISR */
    method SendFromISR(overwrite: bool) returns (sent: bool)
      requires Valid() && (overwrite ==> length == 1)
      modifies this`messagesWaiting, this`waitingToReceive, this`wokenReceivers, this`txLock
      ensures Valid()
      ensures sent <==> old(messagesWaiting) < length || overwrite
      ensures messagesWaiting == old(messagesWaiting) + if old(messagesWaiting) < length then 1 else 0
      ensures Receivers() == if sent then Notify(old(Receivers()), numberOfTasks) else old(Receivers())
    {
      if messagesWaiting < length || overwrite {
        var was := messagesWaiting;
        if overwrite && was > 0 {
          was := was - 1;
        }
        messagesWaiting := was + 1;
        if txLock == UNLOCKED {
          if waitingToReceive != [] {
            WakeReceiver();
          }
        } else if txLock < numberOfTasks {
          assert txLock != INT8_MAX;
          txLock := txLock + 1;
        }
        sent := true;
      } else {
        sent := false;
      }
    }

    /** xQueueReceiveFromISR */
    method ReceiveFromISR() returns (received: bool)
      requires Valid()
      modifies this`messagesWaiting, this`waitingToSend, this`wokenSenders, this`rxLock
      ensures Valid()
      ensures received <==> old(messagesWaiting) > 0
      ensures messagesWaiting == old(messagesWaiting) - if received then 1 else 0
      ensures Senders() == if received then Notify(old(Senders()), numberOfTasks) else old(Senders())
    {
      if messagesWaiting > 0 {
        messagesWaiting := messagesWaiting - 1;
        if rxLock == UNLOCKED {
          if waitingToSend != [] {
            WakeSender();
          }
        } else if rxLock < numberOfTasks {
          assert rxLock != INT8_MAX;
          rxLock := rxLock + 1;
        }
        received := true;
      } else {
        received := false;
      }
    }

    /** The critical section at the head of the loops of xQueueGenericSend,
        xQueueReceive, xQueueSemaphoreTake and xQueuePeek: as `Try`, for whatever
        the tasks' phases and whoever has suspended the scheduler. */
    method Attempt(t: Task, op: Op) returns (done: bool)
      requires Valid() && (op == Overwrite ==> length == 1)
      modifies this
      ensures Valid() && unchanged(`txLock, `rxLock)
      ensures forall phase, suspender, patient ::
                var s := State(old(messagesWaiting), length, old(Receivers()), old(Senders()), phase, suspender);
                var s' := Try(s, t, op, patient);
                && s'.msgs == messagesWaiting && s'.rcv == Receivers() && s'.snd == Senders()
                && s'.phase == if done || !patient then phase else phase[t := Failed(if op == Send then Sender else Receiver)]
    {
      wokenReceivers, wokenSenders := wokenReceivers - {t}, wokenSenders - {t};
      done := false;
      match op
      case Send =>
        if messagesWaiting < length {
          messagesWaiting := messagesWaiting + 1;
          if waitingToReceive != [] {
            WakeReceiver();
          }
          done := true;
        }
      case Overwrite =>
        messagesWaiting := if messagesWaiting > 0 then messagesWaiting else 1;
        if waitingToReceive != [] {
          WakeReceiver();
        }
        done := true;
      case Receive =>
        if messagesWaiting > 0 {
          messagesWaiting := messagesWaiting - 1;
          if waitingToSend != [] {
            WakeSender();
          }
          done := true;
        }
      case Peek =>
        if messagesWaiting > 0 {
          if waitingToReceive != [] {
            WakeReceiver();
          }
          done := true;
        }
    }
  }
}
