/** Event groups: tasks wait for bits, others set them, and tasks meet at a
    rendezvous, from event_groups.c.

    A waiting task's event list item carries the bits it waits for, with the kind of
    wait in the top byte.  Setting bits wakes every task whose condition the new bits
    meet and only then clears what those tasks asked to have cleared. */
module EventGroups {

  type Task = nat

  /** An EventBits_t, as the set of the numbers of its one bits; `|` is union,
      `& ~` difference, and so on. */
  type Bits = set<nat>

  /** eventEVENT_BITS_CONTROL_BYTES (0xff000000), and of its bits those the code uses:
      0x01000000, 0x02000000, 0x04000000 and taskEVENT_LIST_ITEM_VALUE_IN_USE, 0x80000000 */
  const CONTROL: Bits := {24, 25, 26, 27, 28, 29, 30, 31}
  const CLEAR_ON_EXIT: nat := 24
  const UNBLOCKED: nat := 25
  const WAIT_FOR_ALL: nat := 26
  const IN_USE: nat := 31

  // ---------------------------------------------------------------- the event list item

  function BitsOf(value: Bits): Bits {
    value - CONTROL
  }

  predicate ForAll(value: Bits) {
    WAIT_FOR_ALL in value
  }

  predicate Clears(value: Bits) {
    CLEAR_ON_EXIT in value
  }

  /** prvTestWaitCondition */
  predicate Test(current: Bits, bits: Bits, all: bool) {
    if all then bits <= current else current * bits != {}
  }

  /** The condition that an event list item stands for. */
  predicate Met(value: Bits, current: Bits) {
    Test(current, BitsOf(value), ForAll(value))
  }

  /** What a blocking call stores in it. */
  function ItemValue(bits: Bits, clear: bool, all: bool): Bits {
    bits + (if clear then {CLEAR_ON_EXIT} else {}) + (if all then {WAIT_FOR_ALL} else {}) + {IN_USE}
  }

  /** The value says what the caller said, and not that bits were set. */
  lemma ItemValueSays(bits: Bits, clear: bool, all: bool)
    requires bits !! CONTROL
    ensures var v := ItemValue(bits, clear, all);
            BitsOf(v) == bits && Clears(v) == clear && ForAll(v) == all && UNBLOCKED !in v
  {
  }

  // ---------------------------------------------------------------- the group

  datatype Waiter = Waiter(task: Task, value: Bits)

  /** uxEventBits, xTasksWaitingForBits, and the event list items of the tasks that
      have left the list and not yet looked at theirs. */
  datatype State = State(bits: Bits, waiting: seq<Waiter>, ready: map<Task, Bits>)

  /** The loop of xEventGroupSetBits at bits `now`: who stays on the list. */
  function Staying(ws: seq<Waiter>, now: Bits): seq<Waiter> {
    if ws == [] then []
    else (if Met(ws[0].value, now) then [] else [ws[0]]) + Staying(ws[1..], now)
  }

  /** What is cleared in the end. */
  function ToClear(ws: seq<Waiter>, now: Bits): Bits {
    if ws == [] then {}
    else (if Met(ws[0].value, now) && Clears(ws[0].value) then BitsOf(ws[0].value) else {}) + ToClear(ws[1..], now)
  }

  /** What a woken task finds in its event list item. */
  function WokenValue(now: Bits): Bits {
    now + {UNBLOCKED, IN_USE}
  }

  /** Who leaves it, with that value. */
  function Woken(ws: seq<Waiter>, now: Bits): map<Task, Bits> {
    if ws == [] then map[]
    else (if Met(ws[0].value, now) then map[ws[0].task := WokenValue(now)] else map[]) + Woken(ws[1..], now)
  }

  function SetBits(s: State, bits: Bits): State {
    var now := s.bits + bits;
    State(now - ToClear(s.waiting, now), Staying(s.waiting, now), s.ready + Woken(s.waiting, now))
  }

  /** xEventGroupClearBits */
  function ClearBits(s: State, bits: Bits): State {
    s.(bits := s.bits - bits)
  }

  function Enqueue(s: State, t: Task, value: Bits): State {
    s.(waiting := s.waiting + [Waiter(t, value)])
  }

  /** xEventGroupWaitBits up to the point where it blocks, if it does; `blocks` says
      whether a time to wait was given. */
  function WaitBits(s: State, t: Task, bits: Bits, clear: bool, all: bool, blocks: bool): State {
    if Test(s.bits, bits, all) then if clear then ClearBits(s, bits) else s
    else if blocks then Enqueue(s, t, ItemValue(bits, clear, all))
    else s
  }

  /** xEventGroupSync up to the point where it blocks, if it does. */
  function Sync(s: State, t: Task, set_: Bits, wait: Bits, blocks: bool): State {
    var s1 := SetBits(s, set_);
    if wait <= s.bits + set_ then ClearBits(s1, wait)
    else if blocks then Enqueue(s1, t, ItemValue(wait, true, true))
    else s1
  }

  /** A blocked task's time-out expires: its event list item stays as it is. */
  function TimeOut(s: State, t: Task): State {
    s.(waiting := Without(s.waiting, t), ready := s.ready + Items(s.waiting, t))
  }

  function Without(ws: seq<Waiter>, t: Task): seq<Waiter> {
    if ws == [] then [] else (if ws[0].task == t then [] else [ws[0]]) + Without(ws[1..], t)
  }

  function Items(ws: seq<Waiter>, t: Task): map<Task, Bits> {
    if ws == [] then map[] else if ws[0].task == t then map[t := ws[0].value] else Items(ws[1..], t)
  }

  /** The rest of a call that blocked: a task that was woken by bits returns them; one
      that timed out returns the current bits, and takes them if it comes in time
      after all. */
  function Return(s: State, t: Task): (State, Bits)
    requires t in s.ready
  {
    var v := s.ready[t];
    var s1 := s.(ready := s.ready - {t});
    if UNBLOCKED in v then (s1, BitsOf(v))
    else if Met(v, s.bits) && Clears(v) then (ClearBits(s1, BitsOf(v)), BitsOf(s.bits))
    else (s1, BitsOf(s.bits))
  }

  // ---------------------------------------------------------------- what a set does, exactly

  lemma {:induction false} StayingExactly(ws: seq<Waiter>, now: Bits)
    ensures forall w :: w in Staying(ws, now) <==> w in ws && !Met(w.value, now)
    ensures forall i | 0 <= i < |Staying(ws, now)| :: !Met(Staying(ws, now)[i].value, now)
  {
    hide Met;
    if ws != [] {
      StayingExactly(ws[1..], now);
    }
  }

  lemma {:induction false} ToClearExactly(ws: seq<Waiter>, now: Bits, x: nat)
    ensures x in ToClear(ws, now) <==>
              exists i :: 0 <= i < |ws| && Met(ws[i].value, now) && Clears(ws[i].value) && x in BitsOf(ws[i].value)
  {
    hide Met, Clears, BitsOf;
    if ws != [] {
      ToClearExactly(ws[1..], now, x);
      assert forall i | 0 <= i < |ws[1..]| :: ws[1..][i] == ws[i + 1];
      assert forall i | 0 < i < |ws| :: ws[i] == ws[1..][i - 1];
    }
  }

  lemma {:induction false} WokenExactly(ws: seq<Waiter>, now: Bits, t: Task)
    ensures t in Woken(ws, now) <==> exists i :: 0 <= i < |ws| && ws[i].task == t && Met(ws[i].value, now)
    ensures t in Woken(ws, now) ==> Woken(ws, now)[t] == WokenValue(now)
  {
    hide Met;
    if ws != [] {
      WokenExactly(ws[1..], now, t);
      assert forall i | 0 <= i < |ws[1..]| :: ws[1..][i] == ws[i + 1];
      assert forall i | 0 < i < |ws| :: ws[i] == ws[1..][i - 1];
    }
  }

  /** xEventGroupSetBits wakes exactly the tasks whose condition holds of the old and
      the new bits together, tells each of them those bits, and clears exactly the
      bits that the woken tasks asked to have cleared. */
  lemma SetBitsExactly(s: State, bits: Bits)
    ensures var now, s' := s.bits + bits, SetBits(s, bits);
            && (forall w :: w in s'.waiting <==> w in s.waiting && !Met(w.value, now))
            && (forall t :: t in s'.ready <==>
                  t in s.ready || exists i :: 0 <= i < |s.waiting| && s.waiting[i].task == t && Met(s.waiting[i].value, now))
            && (forall i | 0 <= i < |s.waiting| && Met(s.waiting[i].value, now) ::
                  s.waiting[i].task in s'.ready && s'.ready[s.waiting[i].task] == WokenValue(now))
            && (forall x :: x in s'.bits <==>
                  (x in now && !exists i :: 0 <= i < |s.waiting| && Met(s.waiting[i].value, now)
                                            && Clears(s.waiting[i].value) && x in BitsOf(s.waiting[i].value)))
  {
    var now, s' := s.bits + bits, SetBits(s, bits);
    StayingExactly(s.waiting, now);
    hide Met, Clears, BitsOf, Staying;
    forall x: nat
      ensures x in ToClear(s.waiting, now) <==>
                exists i :: 0 <= i < |s.waiting| && Met(s.waiting[i].value, now)
                            && Clears(s.waiting[i].value) && x in BitsOf(s.waiting[i].value)
    {
      ToClearExactly(s.waiting, now, x);
    }
    hide ToClear;
    forall t
      ensures t in Woken(s.waiting, now) <==> exists i :: 0 <= i < |s.waiting| && s.waiting[i].task == t && Met(s.waiting[i].value, now)
      ensures t in Woken(s.waiting, now) ==> Woken(s.waiting, now)[t] == WokenValue(now)
    {
      WokenExactly(s.waiting, now, t);
    }
    hide Woken;
  }

  // ---------------------------------------------------------------- nobody waits in vain

  datatype Event =
      Sets(bits: Bits) | ClearsBits(bits: Bits)
    | Waits(t: Task, bits: Bits, clear: bool, all: bool, blocks: bool)
    | Syncs(t: Task, bits: Bits, wait: Bits, blocks: bool)
    | TimesOut(t: Task) | Returns(t: Task)

  ghost predicate OnList(ws: seq<Waiter>, t: Task) {
    exists i :: 0 <= i < |ws| && ws[i].task == t
  }

  /** A task that is in a call makes no other; nobody touches the control bytes. */
  ghost predicate Enabled(s: State, e: Event) {
    match e
    case Sets(bits) => bits !! CONTROL
    case ClearsBits(bits) => bits !! CONTROL
    case Waits(t, bits, _, _, _) => !OnList(s.waiting, t) && t !in s.ready && bits !! CONTROL && bits != {}
    case Syncs(t, bits, wait, _) => !OnList(s.waiting, t) && t !in s.ready && bits !! CONTROL && wait !! CONTROL && wait != {}
    case TimesOut(t) => OnList(s.waiting, t)
    case Returns(t) => t in s.ready
  }

  function Step(s: State, e: Event): State
    requires Enabled(s, e)
  {
    match e
    case Sets(bits) => SetBits(s, bits)
    case ClearsBits(bits) => ClearBits(s, bits)
    case Waits(t, bits, clear, all, blocks) => WaitBits(s, t, bits, clear, all, blocks)
    case Syncs(t, bits, wait, blocks) => Sync(s, t, bits, wait, blocks)
    case TimesOut(t) => TimeOut(s, t)
    case Returns(t) => Return(s, t).0
  }

  /** No task is on the waiting list whose condition the current bits meet. */
  ghost predicate Quiet(s: State) {
    forall i | 0 <= i < |s.waiting| :: !Met(s.waiting[i].value, s.bits)
  }

  lemma FewerMeetLess(value: Bits, now: Bits, fewer: Bits)
    requires fewer <= now && !Met(value, now)
    ensures !Met(value, fewer)
  {
  }

  lemma SetBitsQuiet(s: State, bits: Bits)
    ensures Quiet(SetBits(s, bits))
  {
    var now, s' := s.bits + bits, SetBits(s, bits);
    StayingExactly(s.waiting, now);
    hide Met, Staying, ToClear, Woken;
    forall i | 0 <= i < |s'.waiting|
      ensures !Met(s'.waiting[i].value, s'.bits)
    {
      FewerMeetLess(s'.waiting[i].value, now, s'.bits);
    }
  }

  lemma ClearBitsQuiet(s: State, bits: Bits)
    requires Quiet(s)
    ensures Quiet(ClearBits(s, bits))
  {
  }

  lemma EnqueueQuiet(s: State, t: Task, bits: Bits, clear: bool, all: bool)
    requires Quiet(s) && bits !! CONTROL && !Test(s.bits, bits, all)
    ensures Quiet(Enqueue(s, t, ItemValue(bits, clear, all)))
  {
  }

  lemma {:induction false} WithoutMembers(ws: seq<Waiter>, t: Task)
    ensures forall i | 0 <= i < |Without(ws, t)| :: Without(ws, t)[i] in ws && Without(ws, t)[i].task != t
    ensures forall w :: w in Without(ws, t) <==> w in ws && w.task != t
  {
    if ws != [] {
      WithoutMembers(ws[1..], t);
    }
  }

  /** Every step leaves nobody waiting for what is there already. */
  lemma StepQuiet(s: State, e: Event)
    requires Quiet(s) && Enabled(s, e)
    ensures Quiet(Step(s, e))
  {
    match e
    case Sets(bits) => SetBitsQuiet(s, bits);
    case ClearsBits(bits) => ClearBitsQuiet(s, bits);
    case Waits(t, bits, clear, all, blocks) =>
      ClearBitsQuiet(s, bits);
      if !Test(s.bits, bits, all) {
        EnqueueQuiet(s, t, bits, clear, all);
      }
    case Syncs(t, bits, wait, blocks) =>
      var s1 := SetBits(s, bits);
      SetBitsQuiet(s, bits);
      ClearBitsQuiet(s1, wait);
      if !(wait <= s.bits + bits) {
        assert s1.bits <= s.bits + bits;
        EnqueueQuiet(s1, t, wait, true, true);
      }
    case TimesOut(t) =>
      WithoutMembers(s.waiting, t);
      hide Met, Without, Items;
      forall i | 0 <= i < |Without(s.waiting, t)|
        ensures !Met(Without(s.waiting, t)[i].value, s.bits)
      {
        var j :| 0 <= j < |s.waiting| && s.waiting[j] == Without(s.waiting, t)[i];
      }
    case Returns(t) =>
      var s1 := s.(ready := s.ready - {t});
      assert Quiet(s1);
      ClearBitsQuiet(s1, BitsOf(s.ready[t]));
  }

  ghost predicate AllowedRun(s: State, es: seq<Event>)
    decreases |es|
  {
    es == [] || (Enabled(s, es[0]) && AllowedRun(Step(s, es[0]), es[1..]))
  }

  function Run(s: State, es: seq<Event>): State
    requires AllowedRun(s, es)
    decreases |es|
  {
    if es == [] then s else Run(Step(s, es[0]), es[1..])
  }

  // ---------------------------------------------------------------- what a call returns

  /** What setting, clearing and testing do to the bits: a wait clears what it waited
      for exactly if it is over at once and asked to; one that blocks leaves the bits
      and goes to the end of the list with an item that says what it wants. */
  lemma WaitBitsExactly(s: State, t: Task, bits: Bits, clear: bool, all: bool, blocks: bool)
    requires bits !! CONTROL
    ensures var s', met := WaitBits(s, t, bits, clear, all, blocks), if all then bits <= s.bits else exists x :: x in bits && x in s.bits;
            && (forall x :: x in s'.bits <==> x in s.bits && !(met && clear && x in bits))
            && s'.ready == s.ready
            && (if !met && blocks then
                  && |s'.waiting| == |s.waiting| + 1 && s'.waiting[..|s.waiting|] == s.waiting
                  && var w := s'.waiting[|s.waiting|];
                  && w.task == t && BitsOf(w.value) == bits && Clears(w.value) == clear && ForAll(w.value) == all
                else s'.waiting == s.waiting)
  {
    ItemValueSays(bits, clear, all);
    hide ItemValue;
  }

  /** A rendezvous: the bits are set first; if all are there they are cleared, or else
      the task goes to the end of the list, if it may wait, to take them all in the end. */
  lemma SyncExactly(s: State, t: Task, bits: Bits, wait: Bits, blocks: bool)
    requires wait !! CONTROL
    ensures var s1, s', met := SetBits(s, bits), Sync(s, t, bits, wait, blocks), forall x :: x in wait ==> x in s.bits || x in bits;
            && (forall x :: x in s'.bits <==> x in s1.bits && !(met && x in wait))
            && s'.ready == s1.ready
            && (if !met && blocks then
                  && |s'.waiting| == |s1.waiting| + 1 && s'.waiting[..|s1.waiting|] == s1.waiting
                  && var w := s'.waiting[|s1.waiting|];
                  && w.task == t && BitsOf(w.value) == wait && Clears(w.value) && ForAll(w.value)
                else s'.waiting == s1.waiting)
  {
    ItemValueSays(wait, true, true);
    hide ItemValue, SetBits;
  }

  /** A time-out takes the task off the list, and it keeps its item. */
  lemma {:induction false} TimeOutExactly(s: State, t: Task, i: nat)
    requires i < |s.waiting| && s.waiting[i].task == t && forall j | 0 <= j < i :: s.waiting[j].task != t
    ensures var s' := TimeOut(s, t);
            && s'.bits == s.bits && t in s'.ready && s'.ready[t] == s.waiting[i].value
            && (forall u | u in s.ready && u != t :: u in s'.ready && s'.ready[u] == s.ready[u])
            && (forall w :: w in s'.waiting <==> w in s.waiting && w.task != t)
  {
    WithoutMembers(s.waiting, t);
    FirstItem(s.waiting, t, i);
    forall u | u != t
      ensures u !in Items(s.waiting, t)
    {
      ItemsOf(s.waiting, t, u);
    }
    hide Without, Items;
  }

  lemma {:induction false} FirstItem(ws: seq<Waiter>, t: Task, i: nat)
    requires i < |ws| && ws[i].task == t && forall j | 0 <= j < i :: ws[j].task != t
    ensures t in Items(ws, t) && Items(ws, t)[t] == ws[i].value
  {
    if i > 0 {
      assert forall j | 0 <= j < i - 1 :: ws[1..][j] == ws[j + 1];
      FirstItem(ws[1..], t, i - 1);
    }
  }

  lemma ClearBitsExactly(s: State, bits: Bits)
    ensures ClearBits(s, bits).waiting == s.waiting && ClearBits(s, bits).ready == s.ready
    ensures forall x :: x in ClearBits(s, bits).bits <==> x in s.bits && x !in bits
  {
  }

  /** The item of a task that has left the list is nobody's but its own. */
  lemma ItemStays(s: State, e: Event, t: Task)
    requires Enabled(s, e) && t in s.ready && !OnList(s.waiting, t) && e != Returns(t)
    ensures t in Step(s, e).ready && Step(s, e).ready[t] == s.ready[t] && !OnList(Step(s, e).waiting, t)
  {
    match e
    case Sets(bits) => SetLeaves(s, bits, t);
    case Syncs(u, bits, wait, blocks) =>
      SetLeaves(s, bits, t);
      hide SetBits, ItemValue;
      ListAppend(SetBits(s, bits).waiting, Waiter(u, ItemValue(wait, true, true)), t);
    case Waits(u, bits, clear, all, _) =>
      hide ItemValue;
      ListAppend(s.waiting, Waiter(u, ItemValue(bits, clear, all)), t);
    case TimesOut(u) =>
      WithoutMembers(s.waiting, u);
      ItemsOf(s.waiting, u, t);
      hide Without, Items;
    case ClearsBits(_) =>
    case Returns(_) =>
  }

  lemma SetLeaves(s: State, bits: Bits, t: Task)
    requires t in s.ready && !OnList(s.waiting, t)
    ensures t in SetBits(s, bits).ready && SetBits(s, bits).ready[t] == s.ready[t] && !OnList(SetBits(s, bits).waiting, t)
  {
    var now := s.bits + bits;
    WokenExactly(s.waiting, now, t);
    StayingExactly(s.waiting, now);
    hide Met, Woken, Staying, ToClear;
    assert forall w | w in Staying(s.waiting, now) :: w in s.waiting;
  }

  lemma {:induction false} ItemsOf(ws: seq<Waiter>, u: Task, t: Task)
    ensures t in Items(ws, u) ==> t == u && OnList(ws, u)
  {
    if ws != [] && ws[0].task != u {
      ItemsOf(ws[1..], u, t);
      assert OnList(ws[1..], u) ==> OnList(ws, u) by {
        if OnList(ws[1..], u) {
          var i :| 0 <= i < |ws[1..]| && ws[1..][i].task == u;
          assert ws[i + 1].task == u;
        }
      }
    }
  }

  lemma {:induction false} ItemStaysInRun(s: State, es: seq<Event>, t: Task)
    requires AllowedRun(s, es) && t in s.ready && !OnList(s.waiting, t) && Returns(t) !in es
    ensures t in Run(s, es).ready && Run(s, es).ready[t] == s.ready[t]
    decreases |es|
  {
    hide Enabled, Step, OnList;
    if es != [] {
      ItemStays(s, es[0], t);
      ItemStaysInRun(Step(s, es[0]), es[1..], t);
    }
  }

  /** A task woken by a set returns, however much later, the bits that were there when
      it was woken, before anything was cleared, and they meet its condition. */
  lemma WokenReturns(s: State, bits: Bits, es: seq<Event>, t: Task, i: nat)
    requires i < |s.waiting| && s.waiting[i].task == t && Met(s.waiting[i].value, s.bits + bits)
    requires s.bits !! CONTROL && bits !! CONTROL && !OnList(SetBits(s, bits).waiting, t)
    requires AllowedRun(SetBits(s, bits), es) && Returns(t) !in es
    ensures var s' := Run(SetBits(s, bits), es);
            && t in s'.ready
            && var (s2, result) := Return(s', t);
            && result == s.bits + bits && s2 == s'.(ready := s'.ready - {t})
            && Test(result, BitsOf(s.waiting[i].value), ForAll(s.waiting[i].value))
  {
    WokenExactly(s.waiting, s.bits + bits, t);
    hide Woken, Staying, ToClear, Run, AllowedRun, OnList;
    ItemStaysInRun(SetBits(s, bits), es, t);
  }

  /** A task whose time is up returns the bits there are when it gets to run, and then
      takes what it waited for if its condition is met after all and it asked to. */
  lemma TimedOutReturns(s: State, v: Bits, es: seq<Event>, t: Task)
    requires t in s.ready && s.ready[t] == v && UNBLOCKED !in v && !OnList(s.waiting, t)
    requires AllowedRun(s, es) && Returns(t) !in es
    ensures var s' := Run(s, es);
            && t in s'.ready
            && var (s2, result) := Return(s', t);
            && result == s'.bits - CONTROL && s2.waiting == s'.waiting && s2.ready == s'.ready - {t}
            && forall x :: x in s2.bits <==>
                 x in s'.bits && !(x in BitsOf(v) && Clears(v) && Test(s'.bits, BitsOf(v), ForAll(v)))
  {
    hide Run, AllowedRun, OnList;
    ItemStaysInRun(s, es, t);
  }

  /** So over every run from an empty group. */
  lemma {:induction false} RunQuiet(s: State, es: seq<Event>)
    requires Quiet(s) && AllowedRun(s, es)
    ensures Quiet(Run(s, es))
    decreases |es|
  {
    hide Quiet, Enabled, Step;
    if es != [] {
      StepQuiet(s, es[0]);
      RunQuiet(Step(s, es[0]), es[1..]);
    }
  }

  // ---------------------------------------------------------------- the rendezvous

  /** Tasks 0, 1, ... each with bits of its own. */
  ghost predicate Own(own: seq<Bits>) {
    && own != []
    && (forall i | 0 <= i < |own| :: own[i] != {} && own[i] !! CONTROL)
    && (forall i, j | 0 <= i < j < |own| :: own[i] !! own[j])
  }

  function All(own: seq<Bits>): Bits {
    if own == [] then {} else All(own[..|own| - 1]) + own[|own| - 1]
  }

  /** The bits of the tasks on a list. */
  function Present(ws: seq<Waiter>, own: seq<Bits>): Bits {
    if ws == [] then {}
    else (if ws[0].task < |own| then own[ws[0].task] else {}) + Present(ws[1..], own)
  }

  /** The group, and how often each task has begun and has finished a call of
      xEventGroupSync for the bits of all of them. */
  datatype Meeting = Meeting(s: State, entered: seq<nat>, left: seq<nat>)

  datatype Move = Enter(i: Task) | Leave(i: Task)

  ghost predicate CanMove(m: Meeting, own: seq<Bits>, v: Move) {
    && v.i < |own| == |m.entered| == |m.left|
    && match v
       case Enter(i) => m.left[i] == m.entered[i]
       case Leave(i) => m.left[i] < m.entered[i] && !OnList(m.s.waiting, i)
  }

  /** Each call sets the task's own bits and waits, without limit, for everybody's. */
  function Moved(m: Meeting, own: seq<Bits>, v: Move): Meeting
    requires CanMove(m, own, v)
  {
    match v
    case Enter(i) => m.(s := Sync(m.s, i, own[i], All(own), true), entered := m.entered[i := m.entered[i] + 1])
    case Leave(i) => m.(s := if i in m.s.ready then Return(m.s, i).0 else m.s, left := m.left[i := m.left[i] + 1])
  }

  ghost predicate Inside(m: Meeting, own: seq<Bits>, r: nat, i: Task)
    requires i < |own| == |m.entered| == |m.left|
  {
    if OnList(m.s.waiting, i) then m.entered[i] == r + 1 && m.left[i] == r && i !in m.s.ready
    else m.entered[i] == r && (m.left[i] == r || m.left[i] + 1 == r) && (i in m.s.ready ==> m.left[i] + 1 == r)
  }

  /** In round `r` the tasks on the list have arrived, and everybody else has still to
      come, or to leave the round before. */
  ghost predicate InRound(m: Meeting, own: seq<Bits>, r: nat) {
    && |own| == |m.entered| == |m.left|
    && (forall i | 0 <= i < |m.s.waiting| :: m.s.waiting[i].value == ItemValue(All(own), true, true))
    && m.s.bits == Present(m.s.waiting, own)
    && (forall i | 0 <= i < |own| :: Inside(m, own, r, i))
    && (exists i :: 0 <= i < |own| && !OnList(m.s.waiting, i))
    && (forall t | t in m.s.ready :: UNBLOCKED in m.s.ready[t])
  }

  lemma {:induction false} AllIncludes(own: seq<Bits>, b: Bits)
    ensures All(own) <= b <==> forall i | 0 <= i < |own| :: own[i] <= b
    ensures (forall i | 0 <= i < |own| :: own[i] !! b) ==> All(own) !! b
  {
    if own != [] {
      AllIncludes(own[..|own| - 1], b);
    }
  }

  lemma {:induction false} PresentIncludes(ws: seq<Waiter>, own: seq<Bits>, i: Task)
    requires Own(own) && i < |own|
    ensures if OnList(ws, i) then own[i] <= Present(ws, own) else own[i] !! Present(ws, own)
    ensures Present(ws, own) <= All(own)
  {
    AllIncludes(own, All(own));
    if ws != [] {
      PresentIncludes(ws[1..], own, i);
      assert forall k | 0 <= k < |ws[1..]| :: ws[1..][k] == ws[k + 1];
      assert forall k | 0 < k < |ws| :: ws[k] == ws[1..][k - 1];
      var j := ws[0].task;
      if j < |own| && j != i {
        assert own[i] !! own[j];
      }
      hide All, Own;
    }
  }

  lemma {:induction false} PresentAppend(ws: seq<Waiter>, own: seq<Bits>, w: Waiter)
    ensures Present(ws + [w], own) == Present(ws, own) + if w.task < |own| then own[w.task] else {}
  {
    if ws == [] {
      assert [w][1..] == [];
    } else {
      assert (ws + [w])[0] == ws[0] && (ws + [w])[1..] == ws[1..] + [w];
      PresentAppend(ws[1..], own, w);
    }
  }

  /** Everybody's bits are there just when everybody is. */
  lemma EverybodyHere(ws: seq<Waiter>, own: seq<Bits>, i: Task)
    requires Own(own) && i < |own|
    ensures All(own) <= Present(ws, own) + own[i] <==> forall j | 0 <= j < |own| :: j == i || OnList(ws, j)
    ensures Present(ws, own) + own[i] <= All(own)
  {
    var now := Present(ws, own) + own[i];
    AllIncludes(own, now);
    AllIncludes(own, All(own));
    hide All, Present, OnList;
    forall j | 0 <= j < |own|
      ensures own[j] <= now <==> j == i || OnList(ws, j)
    {
      PresentIncludes(ws, own, j);
      if j != i && !OnList(ws, j) {
        assert own[j] !! own[i];
        var x :| x in own[j];
        assert x !in now;
      }
    }
  }

  /** A set that completes the round wakes the whole list; one that does not wakes nobody. */
  lemma {:induction false} SameCondition(ws: seq<Waiter>, now: Bits, wait: Bits)
    requires wait !! CONTROL && forall i | 0 <= i < |ws| :: ws[i].value == ItemValue(wait, true, true)
    ensures wait <= now ==> Staying(ws, now) == [] && ToClear(ws, now) <= wait
    ensures wait <= now ==> forall t :: t in Woken(ws, now) <==> OnList(ws, t)
    ensures !(wait <= now) ==> Staying(ws, now) == ws && ToClear(ws, now) == {} && Woken(ws, now) == map[]
  {
    if ws != [] {
      ItemValueSays(wait, true, true);
      assert Met(ws[0].value, now) == (wait <= now);
      hide Met, ItemValue, Clears;
      assert forall k | 0 <= k < |ws[1..]| :: ws[1..][k] == ws[k + 1];
      assert forall k | 0 < k < |ws| :: ws[k] == ws[1..][k - 1];
      SameCondition(ws[1..], now, wait);
    }
  }

  /** The last to arrive: the round is over, the list empty, the bits cleared. */
  lemma LastArrives(m: Meeting, own: seq<Bits>, r: nat, i: Task)
    requires Own(own) && InRound(m, own, r) && CanMove(m, own, Enter(i))
    requires All(own) <= m.s.bits + own[i]
    ensures InRound(Moved(m, own, Enter(i)), own, r + 1)
  {
    var s, now, m' := m.s, m.s.bits + own[i], Moved(m, own, Enter(i));
    AllControl(own);
    SameCondition(s.waiting, now, All(own));
    EverybodyHere(s.waiting, own, i);
    assert Inside(m, own, r, i);
    assert m'.s.waiting == [] && m'.s.bits == {} && !OnList(s.waiting, i);
    forall t | t in m'.s.ready
      ensures UNBLOCKED in m'.s.ready[t]
    {
      WokenExactly(s.waiting, now, t);
    }
    hide All, Present, Staying, ToClear, Woken, ItemValue;
    AfterLast(m, m', own, r, i, r + 1);
    assert !OnList(m'.s.waiting, i);
  }

  lemma AfterLast(m: Meeting, m': Meeting, own: seq<Bits>, r: nat, i: Task, next: nat)
    requires next == r + 1 && i < |own| == |m.entered| == |m.left| == |m'.entered| == |m'.left|
    requires forall j | 0 <= j < |own| :: Inside(m, own, r, j)
    requires forall j | 0 <= j < |own| :: j == i || OnList(m.s.waiting, j)
    requires m.left[i] == m.entered[i] && !OnList(m.s.waiting, i)
    requires m'.s.waiting == [] && m'.left == m.left && m'.entered == m.entered[i := m.entered[i] + 1]
    ensures forall j | 0 <= j < |own| :: Inside(m', own, next, j)
  {
    assert Inside(m, own, r, i);
    forall j | 0 <= j < |own|
      ensures Inside(m', own, next, j)
    {
      assert Inside(m, own, r, j) && (j == i || OnList(m.s.waiting, j));
    }
  }

  lemma AllControl(own: seq<Bits>)
    requires Own(own)
    ensures All(own) !! CONTROL
  {
  }

  /** Anybody else waits. */
  lemma AnotherArrives(m: Meeting, own: seq<Bits>, r: nat, i: Task)
    requires Own(own) && InRound(m, own, r) && CanMove(m, own, Enter(i))
    requires !(All(own) <= m.s.bits + own[i])
    ensures InRound(Moved(m, own, Enter(i)), own, r)
  {
    var s, now, m' := m.s, m.s.bits + own[i], Moved(m, own, Enter(i));
    var w := Waiter(i, ItemValue(All(own), true, true));
    AllControl(own);
    SameCondition(s.waiting, now, All(own));
    EverybodyHere(s.waiting, own, i);
    PresentAppend(s.waiting, own, w);
    assert m'.s.waiting == s.waiting + [w] && m'.s.bits == now && m'.s.ready == s.ready;
    hide All, Present, Staying, ToClear, Woken, ItemValue, Sync;
    assert Inside(m, own, r, i);
    var missing :| 0 <= missing < |own| && missing != i && !OnList(s.waiting, missing);
    ListAppend(s.waiting, w, missing);
    forall j | 0 <= j < |own|
      ensures Inside(m', own, r, j)
    {
      ListAppend(s.waiting, w, j);
      assert Inside(m, own, r, j);
    }
  }

  lemma ListAppend(ws: seq<Waiter>, w: Waiter, t: Task)
    ensures OnList(ws + [w], t) <==> OnList(ws, t) || w.task == t
  {
    assert (ws + [w])[|ws|] == w;
    assert forall i | 0 <= i < |ws| :: (ws + [w])[i] == ws[i];
  }

  lemma SomebodyLeaves(m: Meeting, own: seq<Bits>, r: nat, i: Task)
    requires Own(own) && InRound(m, own, r) && CanMove(m, own, Leave(i))
    ensures InRound(Moved(m, own, Leave(i)), own, r)
  {
    var m' := Moved(m, own, Leave(i));
    hide All, Present, ItemValue;
    forall j | 0 <= j < |own|
      ensures Inside(m', own, r, j)
    {
      assert Inside(m, own, r, j) && Inside(m, own, r, i);
    }
  }

  /** The round after a move: the next one if the move completes this one. */
  ghost function NextRound(m: Meeting, own: seq<Bits>, v: Move, r: nat): nat {
    if v.Enter? && v.i < |own| && All(own) <= m.s.bits + own[v.i] then r + 1 else r
  }

  ghost predicate CanRun(m: Meeting, own: seq<Bits>, vs: seq<Move>)
    decreases |vs|
  {
    vs == [] || (CanMove(m, own, vs[0]) && CanRun(Moved(m, own, vs[0]), own, vs[1..]))
  }

  function RunMeeting(m: Meeting, own: seq<Bits>, vs: seq<Move>): Meeting
    requires CanRun(m, own, vs)
    decreases |vs|
  {
    if vs == [] then m else RunMeeting(Moved(m, own, vs[0]), own, vs[1..])
  }

  lemma {:induction false} RunRounds(m: Meeting, own: seq<Bits>, r: nat, vs: seq<Move>) returns (r': nat)
    requires Own(own) && InRound(m, own, r) && CanRun(m, own, vs)
    ensures InRound(RunMeeting(m, own, vs), own, r')
    decreases |vs|
  {
    hide InRound, Own, CanMove, Moved, All;
    r' := r;
    if vs != [] {
      MoveRounds(m, own, r, vs[0]);
      r' := RunRounds(Moved(m, own, vs[0]), own, NextRound(m, own, vs[0], r), vs[1..]);
    }
  }

  lemma MoveRounds(m: Meeting, own: seq<Bits>, r: nat, v: Move)
    requires Own(own) && InRound(m, own, r) && CanMove(m, own, v)
    ensures InRound(Moved(m, own, v), own, NextRound(m, own, v, r))
  {
    hide InRound, Own, All, Moved;
    match v
    case Enter(i) =>
      if All(own) <= m.s.bits + own[i] {
        LastArrives(m, own, r, i);
      } else {
        AnotherArrives(m, own, r, i);
      }
    case Leave(i) => SomebodyLeaves(m, own, r, i);
  }

  function Assembly(n: nat): Meeting {
    Meeting(State({}, [], map[]), seq(n, _ => 0), seq(n, _ => 0))
  }

  /** xEventGroupSync is a reusable barrier: over any interleaving and any number of
      rounds, nobody has left a round that somebody has not entered. */
  lemma NobodyLeavesEarly(own: seq<Bits>, vs: seq<Move>, i: Task, j: Task)
    requires Own(own) && CanRun(Assembly(|own|), own, vs) && i < |own| && j < |own|
    ensures var m := RunMeeting(Assembly(|own|), own, vs);
            |m.left| == |m.entered| == |own| && m.left[i] <= m.entered[j]
  {
    StartRound(own);
    hide Own, All, CanRun, RunMeeting, Assembly;
    var r := RunRounds(Assembly(|own|), own, 0, vs);
    var m := RunMeeting(Assembly(|own|), own, vs);
    assert Inside(m, own, r, i) && Inside(m, own, r, j);
  }

  /** And nobody is kept: when everybody has entered a round, everybody may leave it. */
  lemma NobodyIsKept(own: seq<Bits>, vs: seq<Move>, i: Task, k: nat)
    requires Own(own) && CanRun(Assembly(|own|), own, vs) && i < |own|
    ensures var m := RunMeeting(Assembly(|own|), own, vs);
            && |m.left| == |m.entered| == |own|
            && ((forall j | 0 <= j < |own| :: m.entered[j] >= k) && m.left[i] < k ==> CanMove(m, own, Leave(i)))
  {
    StartRound(own);
    hide Own, All, CanRun, RunMeeting, Assembly;
    var r := RunRounds(Assembly(|own|), own, 0, vs);
    var m := RunMeeting(Assembly(|own|), own, vs);
    var late :| 0 <= late < |own| && !OnList(m.s.waiting, late);
    assert Inside(m, own, r, i) && Inside(m, own, r, late);
  }

  lemma StartRound(own: seq<Bits>)
    requires Own(own)
    ensures InRound(Assembly(|own|), own, 0)
  {
    var m := Assembly(|own|);
    assert !OnList(m.s.waiting, 0);
    assert forall i | 0 <= i < |own| :: Inside(m, own, 0, i);
  }

  // ---------------------------------------------------------------- the code in place

  /** What the functions of the loop do with the item it looks at. */
  lemma ScanRound(ws: seq<Waiter>, now: Bits, ready: map<Task, Bits>)
    requires ws != []
    ensures var w, rest := ws[0], ws[1..];
            && Staying(ws, now) == (if Met(w.value, now) then [] else [w]) + Staying(rest, now)
            && ToClear(ws, now) == (if Met(w.value, now) && CLEAR_ON_EXIT in w.value then w.value - CONTROL else {}) + ToClear(rest, now)
            && ready + Woken(ws, now) ==
                 (if Met(w.value, now) then ready[w.task := now + {UNBLOCKED, IN_USE}] else ready) + Woken(rest, now)
  {
  }

  lemma ScanEnd(now: Bits, ready: map<Task, Bits>)
    ensures Staying([], now) == [] && ToClear([], now) == {} && ready + Woken([], now) == ready
  {
  }

  class EventGroup {
    var bits: Bits
    var waiting: seq<Waiter>
    /** Event list items of tasks that have left the list. */
    var ready: map<Task, Bits>

    ghost function Model(): State
      reads this
    {
      State(bits, waiting, ready)
    }

    constructor ()
      ensures Model() == State({}, [], map[])
    {
      bits, waiting, ready := {}, [], map[];
    }

    /** xEventGroupSetBits: items leave the list while it is walked, and the bits are
        cleared behind the loop. */
    method Set(bitsToSet: Bits) returns (result: Bits)
      modifies this
      ensures Model() == SetBits(old(Model()), bitsToSet) && result == bits
    {
      hide Met, Staying, ToClear, Woken, Clears, BitsOf, WokenValue;
      bits := bits + bitsToSet;
      ghost var ws, now := waiting, bits;
      var bitsToClear: Bits := {};
      var i := 0;
      assert waiting[0..] == ws;
      while i < |waiting|
        invariant i <= |waiting| && bits == now
        invariant waiting[..i] + Staying(waiting[i..], now) == Staying(ws, now)
        invariant bitsToClear + ToClear(waiting[i..], now) == ToClear(ws, now)
        invariant ready + Woken(waiting[i..], now) == old(ready) + Woken(ws, now)
        decreases |waiting| - i
      {
        var w := waiting[i];
        assert waiting[i..][0] == w && waiting[i..][1..] == waiting[i + 1..];
        ScanRound(waiting[i..], now, ready);
        var found := Matches(w.value);
        if found {
          if CLEAR_ON_EXIT in w.value {
            bitsToClear := bitsToClear + (w.value - CONTROL);
          }
          ghost var before, rest := waiting, waiting[i + 1..];
          ready := ready[w.task := bits + {UNBLOCKED, IN_USE}];
          waiting := waiting[..i] + waiting[i + 1..];
          assert waiting[..i] == before[..i] && waiting[i..] == rest;
        } else {
          assert waiting[..i + 1] == waiting[..i] + [w];
          i := i + 1;
        }
      }
      assert waiting[..i] == waiting && waiting[i..] == [];
      ScanEnd(now, ready);
      bits := bits - bitsToClear;
      result := bits;
    }

    /** The test in the loop, which splits the item's value. */
    method Matches(value: Bits) returns (found: bool)
      ensures found == Met(value, bits)
    {
      var control, waitedFor := value * CONTROL, value - CONTROL;
      assert WAIT_FOR_ALL in value <==> WAIT_FOR_ALL in control * {WAIT_FOR_ALL};
      assert waitedFor <= bits <==> waitedFor * bits == waitedFor;
      found := false;
      if control * {WAIT_FOR_ALL} == {} {
        if waitedFor * bits != {} {
          found := true;
        }
      } else if waitedFor * bits == waitedFor {
        found := true;
      }
    }

    /** xEventGroupClearBits returns the bits from before. */
    method Clear(bitsToClear: Bits) returns (result: Bits)
      modifies this`bits
      ensures Model() == ClearBits(old(Model()), bitsToClear) && result == old(bits)
    {
      result := bits;
      bits := bits - bitsToClear;
    }

    /** xEventGroupWaitBits up to the point where it blocks */
    method Wait(t: Task, bitsToWaitFor: Bits, clear: bool, all: bool, ticks: nat) returns (blocked: bool, result: Bits)
      modifies this
      ensures Model() == WaitBits(old(Model()), t, bitsToWaitFor, clear, all, ticks > 0)
      ensures blocked <==> !Test(old(bits), bitsToWaitFor, all) && ticks > 0
      ensures !blocked ==> result == old(bits)
    {
      var current := bits;
      blocked, result := false, {};
      if Test(current, bitsToWaitFor, all) {
        result := current;
        if clear {
          bits := bits - bitsToWaitFor;
        }
      } else if ticks == 0 {
        result := current;
      } else {
        var control: Bits := {};
        if clear {
          control := control + {CLEAR_ON_EXIT};
        }
        if all {
          control := control + {WAIT_FOR_ALL};
        }
        assert bitsToWaitFor + control + {IN_USE} == ItemValue(bitsToWaitFor, clear, all);
        waiting := waiting + [Waiter(t, bitsToWaitFor + control + {IN_USE})];
        blocked := true;
      }
    }

    /** xEventGroupSync up to the point where it blocks */
    method Synchronize(t: Task, bitsToSet: Bits, bitsToWaitFor: Bits, ticks: nat) returns (blocked: bool, result: Bits)
      modifies this
      ensures Model() == Sync(old(Model()), t, bitsToSet, bitsToWaitFor, ticks > 0)
      ensures blocked <==> !(bitsToWaitFor <= old(bits) + bitsToSet) && ticks > 0
      ensures !blocked ==>
                result == if bitsToWaitFor <= old(bits) + bitsToSet then old(bits) + bitsToSet
                          else SetBits(old(Model()), bitsToSet).bits
    {
      hide Staying, ToClear, Woken;
      var original := bits;
      blocked, result := false, {};
      var _ := Set(bitsToSet);
      if (original + bitsToSet) * bitsToWaitFor == bitsToWaitFor {
        assert bitsToWaitFor <= original + bitsToSet;
        result := original + bitsToSet;
        bits := bits - bitsToWaitFor;
      } else {
        assert bitsToWaitFor <= original + bitsToSet ==> (original + bitsToSet) * bitsToWaitFor == bitsToWaitFor;
        if ticks != 0 {
          var value := bitsToWaitFor + {CLEAR_ON_EXIT} + {WAIT_FOR_ALL} + {IN_USE};
          waiting := waiting + [Waiter(t, value)];
          blocked := true;
        } else {
          result := bits;
        }
      }
    }

    /** The end of a call that blocked, in either function */
    method Resume(t: Task) returns (result: Bits)
      requires t in ready
      modifies this
      ensures (Model(), result) == Return(old(Model()), t)
    {
      hide Met;
      var value := ready[t];
      ready := ready - {t};
      if UNBLOCKED in value {
        result := value - CONTROL;
      } else {
        result := bits;
        var met := Matches(value);
        if met {
          if CLEAR_ON_EXIT in value {
            bits := bits - (value - CONTROL);
          }
        }
        result := result - CONTROL;
      }
    }
  }
}
