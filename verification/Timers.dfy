/** The software timer daemon of timers.c.

    The daemon keeps active timers by 32-bit expiry time in two lists, for this
    and for the next turn of the tick counter, and finds out that the counter has
    wrapped by comparing two samples of it.  The specification is in unbounded
    time: an active timer is a `Job` started at an absolute tick, and the k-th
    call of its callback belongs to `start + k * period`. */
module Timers {
  import opened ListSpec
  import opened DelayedLists
  import opened Common

  type Id = nat

  /** xTimerPeriodInTicks and the auto-reload bit of ucStatus. */
  datatype Timer = Timer(period: nat, auto: bool)

  /** The timers, the ids with the active bit, pxCurrentTimerList,
      pxOverflowTimerList, and the static xLastTime of prvSampleTimeNow. */
  datatype State = State(timers: map<Id, Timer>, active: set<Id>,
                         current: seq<Entry<Id>>, overflow: seq<Entry<Id>>, lastTime: nat)

  // ---------------------------------------------------------------- what the code does

  /** A tick count as TickType_t holds it. */
  function Low(n: int): (r: nat)
    ensures r < WRAP
  {
    n % WRAP
  }

  /** The counter reads 0 at absolute tick `base`. */
  ghost predicate TurnStart(base: nat) {
    base % WRAP == 0
  }

  /** The comparisons of prvInsertTimerInActiveList: whether the expiry time has
      passed since the command was issued. */
  function Elapsed(expiry: nat, now: nat, command: nat, period: nat): bool {
    if expiry <= now then Low(now - command) >= period
    else now < command && expiry >= command
  }

  /** The list it goes to otherwise. */
  function Place(s: State, id: Id, expiry: nat, now: nat): State {
    if expiry <= now then s.(overflow := Insert(s.overflow, Entry(id, expiry)))
    else s.(current := Insert(s.current, Entry(id, expiry)))
  }

  /** prvReloadTimer: how many further periods have passed, each with its callback,
      before the timer is put on a list again. */
  function Missed(expired: nat, now: nat, period: nat): nat
    requires period > 0
  {
    Low(now - expired) / period
  }

  function NextExpiry(expired: nat, now: nat, period: nat): (x: nat)
    requires period > 0
    ensures x < WRAP
  {
    Low(expired + Missed(expired, now, period) * period + period)
  }

  function Reload(s: State, id: Id, expired: nat, now: nat): State
    requires id in s.timers && s.timers[id].period > 0
  {
    Place(s, id, NextExpiry(expired, now, s.timers[id].period), now)
  }

  function Calls(id: Id, n: nat): seq<Id> {
    seq(n, _ => id)
  }

  /** Every timer named on a list or in a command exists and has a positive 32-bit period. */
  ghost predicate WellFormed(s: State) {
    && (forall id | id in s.timers :: 0 < s.timers[id].period < WRAP)
    && (forall i | 0 <= i < |s.current| :: s.current[i].owner in s.timers && s.current[i].value < WRAP)
    && (forall i | 0 <= i < |s.overflow| :: s.overflow[i].owner in s.timers && s.overflow[i].value < WRAP)
  }

  /** prvProcessExpiredTimer: the head of the current list, and the callbacks it makes. */
  function ProcessExpired(s: State, now: nat): (State, seq<Id>)
    requires WellFormed(s) && s.current != []
  {
    var id, x := s.current[0].owner, s.current[0].value;
    var s1 := s.(current := s.current[1..]);
    if s.timers[id].auto then
      (Reload(s1, id, x, now), Calls(id, Missed(x, now, s.timers[id].period) + 1))
    else
      (s1.(active := s.active - {id}), [id])
  }

  lemma PlaceWellFormed(s: State, id: Id, expiry: nat, now: nat)
    requires WellFormed(s) && id in s.timers && expiry < WRAP
    ensures WellFormed(Place(s, id, expiry, now))
  {
  }

  lemma ProcessWellFormed(s: State, now: nat)
    requires WellFormed(s) && s.current != []
    ensures WellFormed(ProcessExpired(s, now).0)
    ensures now == MAX_DELAY ==> |ProcessExpired(s, now).0.current| < |s.current|
  {
    TailWellFormed(s);
    HeadTimer(s);
    hide WellFormed, Insert, Missed, NextExpiry;
    var id, x := s.current[0].owner, s.current[0].value;
    var s1 := s.(current := s.current[1..]);
    var p := s.timers[id].period;
    if s.timers[id].auto {
      PlaceWellFormed(s1, id, NextExpiry(x, now, p), now);
    }
  }

  lemma HeadTimer(s: State)
    requires WellFormed(s) && s.current != []
    ensures s.current[0].owner in s.timers && s.timers[s.current[0].owner].period > 0
  {
  }

  /** The loop of prvSwitchTimerLists: each round takes one timer off the current
      list, and at the largest tick value none is put back on it. */
  function FinishTurn(s: State): (r: (State, seq<Id>))
    requires WellFormed(s)
    ensures WellFormed(r.0) && r.0.current == []
    decreases |s.current|
  {
    if s.current == [] then (s, []) else
      ProcessWellFormed(s, MAX_DELAY);
      var (s1, log1) := ProcessExpired(s, MAX_DELAY);
      var (s2, log2) := FinishTurn(s1);
      (s2, log1 + log2)
  }

  function SwapLists(s: State): State {
    s.(current := s.overflow, overflow := s.current)
  }

  /** prvSampleTimeNow: the state, whether the lists were switched, the callbacks made. */
  function Sample(s: State, now: nat): (r: (State, bool, seq<Id>))
    requires WellFormed(s)
    ensures WellFormed(r.0)
  {
    if now < s.lastTime then
      var (s1, log) := FinishTurn(s);
      (SwapLists(s1).(lastTime := now), true, log)
    else
      (s.(lastTime := now), false, [])
  }

  /** The part of prvProcessTimerOrBlockTask that touches the lists, and whether
      the daemon goes on to block. */
  function ProcessOrBlock(s: State, now: nat): (State, bool, seq<Id>)
    requires WellFormed(s)
  {
    var (s1, switched, log) := Sample(s, now);
    if switched then (s1, false, log)
    else if s.current != [] && s.current[0].value <= now then
      var (s2, log2) := ProcessExpired(s1, now);
      (s2, false, log2)
    else (s1, true, [])
  }

  datatype Command = Start(at: nat) | Stop | ChangePeriod(period: nat) | Delete

  /** A command's timer leaves whichever list it is in. */
  function Taken(s: State, id: Id): (r: State)
    requires WellFormed(s)
    ensures WellFormed(r) && r.timers == s.timers
  {
    WithoutKeeps(s.current, id);
    WithoutKeeps(s.overflow, id);
    s.(current := Without(s.current, id), overflow := Without(s.overflow, id))
  }

  /** The switch of prvProcessReceivedCommands, and the callbacks it makes. */
  function Obey(s: State, id: Id, c: Command, now: nat): (State, seq<Id>)
    requires WellFormed(s) && id in s.timers
  {
    match c
    case Start(at) =>
      var t := s.timers[id];
      var x := Low(at + t.period);
      var s2 := s.(active := s.active + {id});
      if !Elapsed(x, now, at, t.period) then (Place(s2, id, x, now), [])
      else if t.auto then (Reload(s2, id, x, now), Calls(id, Missed(x, now, t.period)) + [id])
      else (s.(active := s.active - {id}), [id])
    case Stop =>
      (s.(active := s.active - {id}), [])
    case Delete =>
      (s.(active := s.active - {id}), [])
    case ChangePeriod(p) =>
      var s2 := s.(active := s.active + {id}, timers := s.timers[id := s.timers[id].(period := p)]);
      (Place(s2, id, Low(now + p), now), [])
  }

  /** One timer command of prvProcessReceivedCommands, received at tick `now`. */
  function Receive(s: State, id: Id, c: Command, now: nat): (State, seq<Id>)
    requires WellFormed(s) && id in s.timers
  {
    var (s1, _, log) := Sample(Taken(s, id), now);
    SampleTimers(Taken(s, id), now);
    var (s2, log2) := Obey(s1, id, c, now);
    (s2, log + log2)
  }

  lemma {:induction false} FinishTurnTimers(s: State)
    requires WellFormed(s)
    ensures FinishTurn(s).0.timers == s.timers
    decreases |s.current|
  {
    hide Missed, InsertPos;
    if s.current != [] {
      ProcessWellFormed(s, MAX_DELAY);
      FinishTurnTimers(ProcessExpired(s, MAX_DELAY).0);
    }
  }

  lemma SampleTimers(s: State, now: nat)
    requires WellFormed(s)
    ensures Sample(s, now).0.timers == s.timers
  {
    FinishTurnTimers(s);
  }

  // ---------------------------------------------------------------- modular against true time

  /** The comparisons decide one thing: whether a whole period has passed, counted
      modulo 2^32, since the command.  No case of wrapping goes wrong. */
  lemma ElapsedExact(now: nat, command: nat, period: nat)
    requires now < WRAP && command < WRAP && 0 < period < WRAP
    ensures Elapsed(Low(command + period), now, command, period) <==> Low(now - command) >= period
  {
  }

  lemma DivUnique(a: nat, p: nat, q: nat)
    requires p > 0 && q * p <= a < (q + 1) * p
    ensures a / p == q
  {
    var d := a / p;
    assert a == d * p + a % p;
    MulMono(d + 1, q, p);
    MulMono(q + 1, d, p);
  }

  lemma DivBounds(a: nat, p: nat)
    requires p > 0
    ensures a / p * p <= a < (a / p + 1) * p
  {
  }

  lemma ModAbsolute(base: nat, x: nat)
    requires TurnStart(base) && base <= x < base + WRAP
    ensures Low(x) == x - base
  {
  }

  lemma NextTurn(base: nat)
    requires TurnStart(base)
    ensures TurnStart(base + WRAP)
  {
  }

  lemma ModDistance(n: nat, x: nat)
    requires x <= n < x + WRAP
    ensures Low(Low(n) - Low(x)) == n - x
  {
  }

  // ---------------------------------------------------------------- the specification

  /** An active timer in unbounded time. */
  datatype Job = Job(start: nat, period: nat, auto: bool, fired: nat)

  function Expiry(j: Job): nat {
    j.start + (j.fired + 1) * j.period
  }

  /** Every call that belongs to a tick up to `n` has been made. */
  function CaughtUp(j: Job, n: nat): Job
    requires j.period > 0 && j.start <= n
  {
    j.(fired := (n - j.start) / j.period)
  }

  function Expiries(jobs: map<Id, Job>): map<Id, nat> {
    map id | id in jobs :: Expiry(jobs[id])
  }

  /** The lists hold the given expiry times, this turn of the counter having begun
      at absolute tick `base`. */
  ghost predicate Filed(s: State, due: map<Id, nat>, base: nat) {
    && TurnStart(base)
    && Sorted(s.current) && Sorted(s.overflow)
    && Represents(s.current, base, due)
    && Represents(s.overflow, base + WRAP, due)
    && (forall id | id in due :: base <= due[id] < base + 2 * WRAP)
  }

  /** The status bits and periods agree with the jobs.  `extra` is the timer a
      command is about while it is in neither list; its bit is not looked at. */
  ghost predicate Matches(s: State, jobs: map<Id, Job>, extra: set<Id>) {
    && WellFormed(s)
    && extra !! jobs.Keys && s.active + extra == jobs.Keys + extra
    && (forall id | id in jobs :: id in s.timers && s.timers[id] == Timer(jobs[id].period, jobs[id].auto))
  }

  ghost predicate Rel(s: State, jobs: map<Id, Job>, base: nat, extra: set<Id>) {
    Matches(s, jobs, extra) && Filed(s, Expiries(jobs), base)
  }

  /** No callback has been made before its time, seen from absolute tick `n`. */
  ghost predicate NotEarly(jobs: map<Id, Job>, n: nat) {
    forall id | id in jobs :: jobs[id].start + jobs[id].fired * jobs[id].period <= n
  }

  lemma PlaceDigits(base: nat, x: nat, n: nat)
    requires TurnStart(base) && base <= n < base + WRAP && n < x < n + WRAP
    ensures x == base + Low(x) + if Low(x) <= Low(n) then WRAP else 0
  {
  }

  /** An expiry ahead of `n` goes to the list the code picks. */
  lemma PlaceFiled(s: State, due: map<Id, nat>, base: nat, id: Id, x: nat, n: nat)
    requires Filed(s, due, base) && id !in due
    requires base <= n < base + WRAP && n < x < n + WRAP
    ensures Filed(Place(s, id, Low(x), Low(n)), due[id := x], base)
  {
    hide Represents, Sorted, TurnStart, Low, Place;
    PlaceDigits(base, x, n);
    hide Filed;
    PlaceFiledAt(s, due, base, id, Low(x), Low(n));
  }

  lemma PlaceFiledAt(s: State, due: map<Id, nat>, base: nat, id: Id, v: nat, now: nat)
    requires Filed(s, due, base) && id !in due && v < WRAP
    ensures Filed(Place(s, id, v, now), due[id := base + v + if v <= now then WRAP else 0], base)
  {
    hide Represents, Sorted, Insert, TurnStart;
    if v <= now {
      RepresentsInsert(s.overflow, base + WRAP, due, Entry(id, v));
      RepresentsElsewhere(s.current, base, due, id, base + WRAP + v);
    } else {
      RepresentsInsert(s.current, base, due, Entry(id, v));
      RepresentsElsewhere(s.overflow, base + WRAP, due, id, base + v);
    }
  }

  /** So does a job; its timer record is `j`'s already. */
  lemma PlaceRel(s: State, jobs: map<Id, Job>, base: nat, extra: set<Id>, id: Id, j: Job, n: nat)
    requires WellFormed(s) && id !in jobs && Filed(s, Expiries(jobs), base)
    requires s.active + {id} + extra == jobs.Keys + {id} + extra && id in s.active && extra !! jobs.Keys + {id}
    requires forall i | i in jobs[id := j] :: i in s.timers && s.timers[i] == Timer(jobs[id := j][i].period, jobs[id := j][i].auto)
    requires base <= n < base + WRAP && n < Expiry(j) < n + WRAP
    ensures Rel(Place(s, id, Low(Expiry(j)), Low(n)), jobs[id := j], base, extra)
  {
    var x := Expiry(j);
    PlaceWellFormed(s, id, Low(x), Low(n));
    assert Expiries(jobs[id := j]) == Expiries(jobs)[id := x];
    hide Filed, Insert, WellFormed, Expiries, Low;
    PlaceFiled(s, Expiries(jobs), base, id, x, n);
  }

  /** The periods that have passed by `n` since an expiry at `Expiry(j)`, the
      reload loop's own count, are just what catches the job up. */
  lemma MissedCatchesUp(j: Job, n: nat)
    requires 0 < j.period < WRAP && Expiry(j) <= n < Expiry(j) + WRAP
    ensures var k := Missed(Low(Expiry(j)), Low(n), j.period);
            && j.start <= n && CaughtUp(j, n).fired == j.fired + 1 + k
            && NextExpiry(Low(Expiry(j)), Low(n), j.period) == Low(Expiry(CaughtUp(j, n)))
            && n < Expiry(CaughtUp(j, n)) < n + WRAP
  {
    var x, p := Expiry(j), j.period;
    ModDistance(n, x);
    var k := (n - x) / p;
    DivBounds(n - x, p);
    var q := j.fired + 1 + k;
    assert q * p == (j.fired + 1) * p + k * p;
    assert (q + 1) * p == q * p + p;
    assert (k + 1) * p == k * p + p;
    DivUnique(n - j.start, p, q);
    assert Expiry(CaughtUp(j, n)) == x + k * p + p;
    assert x == x / WRAP * WRAP + x % WRAP;
    ModShift(x % WRAP + k * p + p, x / WRAP);
  }

  // ---------------------------------------------------------------- each step

  /** What processing a timer at absolute tick `n` does to its job. */
  function Processed(jobs: map<Id, Job>, id: Id, n: nat): map<Id, Job>
    requires id in jobs && jobs[id].period > 0 && jobs[id].start <= n
  {
    if jobs[id].auto then jobs[id := CaughtUp(jobs[id], n)] else jobs - {id}
  }

  /** How many callbacks that makes. */
  function CallsMade(j: Job, n: nat): nat
    requires j.period > 0 && Expiry(j) <= n
  {
    if j.auto then
      StartedBefore(j, n);
      CaughtUp(j, n).fired - j.fired
    else 1
  }

  lemma StartedBefore(j: Job, n: nat)
    requires j.period > 0 && Expiry(j) <= n
    ensures j.start <= n && j.fired < CaughtUp(j, n).fired
  {
  }

  /** A job caught up at `n` has made its last call at or before `n`, and the next is ahead. */
  lemma CaughtUpBounds(j: Job, n: nat)
    requires j.period > 0 && Expiry(j) <= n
    ensures j.start <= n && j.start + CaughtUp(j, n).fired * j.period <= n < Expiry(CaughtUp(j, n))
  {
  }

  lemma HeadIsDue(s: State, jobs: map<Id, Job>, base: nat, extra: set<Id>)
    requires Rel(s, jobs, base, extra) && s.current != []
    ensures var e := s.current[0]; e.owner in jobs && Expiry(jobs[e.owner]) == base + e.value && e.value < WRAP
  {
    assert Count(s.current, s.current[0]) > 0;
  }

  lemma TailFiled(s: State, due: map<Id, nat>, base: nat)
    requires Filed(s, due, base) && s.current != []
    ensures Filed(s.(current := s.current[1..]), due - {s.current[0].owner}, base)
  {
    var e := s.current[0];
    TailCounts(s.current);
    assert e.owner in due && due[e.owner] == base + e.value && e.value < WRAP;
    var due' := due - {e.owner};
    hide Count;
    assert Represents(s.current[1..], base, due');
    assert Represents(s.overflow, base + WRAP, due');
  }

  lemma TailCounts(s: seq<Entry<Id>>)
    requires s != []
    ensures Count(s, s[0]) > 0
    ensures forall f: Entry<Id> :: Count(s[1..], f) == Count(s, f) - if f == s[0] then 1 else 0
    ensures Sorted(s) ==> Sorted(s[1..])
  {
    assert s == [s[0]] + s[1..];
  }

  /** prvProcessExpiredTimer at a tick of this turn, the head's expiry having come:
      exactly the calls that were missing are made, and the timer is filed again
      under its next expiry. */
  lemma ProcessRel(s: State, jobs: map<Id, Job>, base: nat, extra: set<Id>, n: nat)
    requires Rel(s, jobs, base, extra) && s.current != []
    requires base <= n < base + WRAP && base + s.current[0].value <= n
    ensures var id := s.current[0].owner;
            && id in jobs && Expiry(jobs[id]) == base + s.current[0].value && jobs[id].start <= n
            && Rel(ProcessExpired(s, Low(n)).0, Processed(jobs, id, n), base, extra)
            && ProcessExpired(s, Low(n)).1 == Calls(id, CallsMade(jobs[id], n))
  {
    HeadIsDue(s, jobs, base, extra);
    var id := s.current[0].owner;
    StartedBefore(jobs[id], n);
    ModAbsolute(base, Expiry(jobs[id]));
    TailFiled(s, Expiries(jobs), base);
    assert Expiries(jobs - {id}) == Expiries(jobs) - {id};
    TailWellFormed(s);
    ProcessRelHead(s, jobs, base, extra, n, id);
  }

  lemma ProcessRelHead(s: State, jobs: map<Id, Job>, base: nat, extra: set<Id>, n: nat, id: Id)
    requires s.current != [] && id == s.current[0].owner && Matches(s, jobs, extra) && id in jobs
    requires base <= n < base + WRAP && s.current[0].value == Low(Expiry(jobs[id])) && base <= Expiry(jobs[id]) <= n
    requires var s1 := s.(current := s.current[1..]); WellFormed(s1) && Filed(s1, Expiries(jobs - {id}), base)
    ensures jobs[id].start <= n && Rel(ProcessExpired(s, Low(n)).0, Processed(jobs, id, n), base, extra)
    ensures ProcessExpired(s, Low(n)).1 == Calls(id, CallsMade(jobs[id], n))
  {
    HeadTimer(s);
    hide WellFormed, Filed, Expiries, Expiry, Reload, Missed, NextExpiry, Low, CaughtUp;
    var j, s1 := jobs[id], s.(current := s.current[1..]);
    StartedBefore(j, n);
    assert s1.active - {id} == s.active - {id};
    if j.auto {
      ReloadRel(s1, jobs - {id}, base, extra, id, j, n);
      assert jobs[id := CaughtUp(j, n)] == (jobs - {id})[id := CaughtUp(j, n)];
    } else {
      FiledActive(s1, Expiries(jobs - {id}), base, s.active - {id}, s.timers);
      ActiveChanged(s1, s.active - {id});
    }
  }

  lemma TailWellFormed(s: State)
    requires WellFormed(s) && s.current != []
    ensures WellFormed(s.(current := s.current[1..]))
  {
  }

  /** prvReloadTimer at an absolute tick `n` not before the expiry of `j`. */
  lemma ReloadRel(s: State, jobs: map<Id, Job>, base: nat, extra: set<Id>, id: Id, j: Job, n: nat)
    requires WellFormed(s) && id !in jobs && Filed(s, Expiries(jobs), base)
    requires s.active + {id} + extra == jobs.Keys + {id} + extra && id in s.active && extra !! jobs.Keys + {id}
    requires forall i | i in jobs :: i in s.timers && s.timers[i] == Timer(jobs[i].period, jobs[i].auto)
    requires id in s.timers && s.timers[id] == Timer(j.period, j.auto)
    requires base <= n < base + WRAP && Expiry(j) <= n < Expiry(j) + WRAP
    ensures j.start <= n && Rel(Reload(s, id, Low(Expiry(j)), Low(n)), jobs[id := CaughtUp(j, n)], base, extra)
    ensures Missed(Low(Expiry(j)), Low(n), j.period) + 1 == CaughtUp(j, n).fired - j.fired
  {
    MissedCatchesUp(j, n);
    var j' := CaughtUp(j, n);
    hide Filed, Expiries, Expiry, Place, Missed, NextExpiry, Low;
    PlaceRel(s, jobs, base, extra, id, j', n);
  }

  // ---------------------------------------------------------------- the end of a turn

  /** Every job whose expiry is at or before `n` processed at `n`. */
  function AllProcessed(jobs: map<Id, Job>, n: nat): map<Id, Job>
    requires Sound(jobs)
  {
    map id | id in jobs && (n < Expiry(jobs[id]) || jobs[id].auto) ::
      if n < Expiry(jobs[id]) then jobs[id] else StartedBefore(jobs[id], n); CaughtUp(jobs[id], n)
  }

  ghost predicate Sound(jobs: map<Id, Job>) {
    forall id | id in jobs :: jobs[id].period > 0
  }

  /** The callbacks a log holds for each timer when the jobs change that way. */
  ghost predicate Logged(log: seq<Id>, jobs: map<Id, Job>, n: nat)
    requires Sound(jobs)
  {
    forall id :: multiset(log)[id] == if id in jobs && Expiry(jobs[id]) <= n then CallsMade(jobs[id], n) else 0
  }

  lemma MatchesSound(s: State, jobs: map<Id, Job>, extra: set<Id>)
    requires Matches(s, jobs, extra)
    ensures Sound(jobs)
  {
  }

  lemma {:induction false} CallsCount(id: Id, n: nat)
    ensures forall i :: multiset(Calls(id, n))[i] == if i == id then n else 0
  {
    if n > 0 {
      CallsCount(id, n - 1);
      assert Calls(id, n) == Calls(id, n - 1) + [id];
    }
  }

  lemma ProcessedStays(jobs: map<Id, Job>, id: Id, n: nat)
    requires Sound(jobs) && id in jobs && Expiry(jobs[id]) <= n
    ensures jobs[id].start <= n && Sound(Processed(jobs, id, n))
    ensures AllProcessed(Processed(jobs, id, n), n) == AllProcessed(jobs, n)
  {
  }

  /** prvSwitchTimerLists' loop makes, before the lists change places, exactly the
      calls that belong to the turn that is ending. */
  lemma {:induction false} FinishTurnRel(s: State, jobs: map<Id, Job>, base: nat, extra: set<Id>)
    requires Rel(s, jobs, base, extra)
    ensures Sound(jobs) && Rel(FinishTurn(s).0, AllProcessed(jobs, base + WRAP - 1), base, extra)
    ensures Logged(FinishTurn(s).1, jobs, base + WRAP - 1)
    decreases |s.current|
  {
    var n := base + WRAP - 1;
    MatchesSound(s, jobs, extra);
    if s.current == [] {
      EmptyTurn(s, jobs, base, extra);
    } else {
      HeadIsDue(s, jobs, base, extra);
      LastTick(base);
      var id := s.current[0].owner;
      ProcessRel(s, jobs, base, extra, n);
      ProcessWellFormed(s, MAX_DELAY);
      ProcessedStays(jobs, id, n);
      var s1, jobs1 := ProcessExpired(s, MAX_DELAY).0, Processed(jobs, id, n);
      hide Rel, WellFormed, ProcessExpired, AllProcessed, Processed, Logged;
      FinishTurnRel(s1, jobs1, base, extra);
      FinishLog(jobs, id, n, FinishTurn(s1).1);
    }
  }

  lemma LastTick(base: nat)
    requires TurnStart(base)
    ensures Low(base + WRAP - 1) == MAX_DELAY
  {
  }

  lemma FinishLog(jobs: map<Id, Job>, id: Id, n: nat, rest: seq<Id>)
    requires Sound(jobs) && id in jobs && Expiry(jobs[id]) <= n && jobs[id].start <= n
    requires Sound(Processed(jobs, id, n)) && Logged(rest, Processed(jobs, id, n), n)
    ensures Logged(Calls(id, CallsMade(jobs[id], n)) + rest, jobs, n)
  {
    var k := CallsMade(jobs[id], n);
    CallsCount(id, k);
    CaughtUpBounds(jobs[id], n);
    assert multiset(Calls(id, k) + rest) == multiset(Calls(id, k)) + multiset(rest);
    hide Calls, CaughtUp, Expiry;
  }

  lemma EmptyTurn(s: State, jobs: map<Id, Job>, base: nat, extra: set<Id>)
    requires Rel(s, jobs, base, extra) && s.current == [] && Sound(jobs)
    ensures forall id | id in jobs :: base + WRAP <= Expiry(jobs[id])
    ensures AllProcessed(jobs, base + WRAP - 1) == jobs && Logged([], jobs, base + WRAP - 1)
  {
    NothingRepresented(base, Expiries(jobs));
    assert forall id | id in jobs :: id in Expiries(jobs) && Expiries(jobs)[id] == Expiry(jobs[id]);
  }

  /** With its current list empty the turn may end: the overflow list is the list
      of the turn that begins. */
  lemma SwapRel(s: State, jobs: map<Id, Job>, base: nat, extra: set<Id>, now: nat)
    requires Rel(s, jobs, base, extra) && s.current == [] && Sound(jobs)
    ensures Rel(SwapLists(s).(lastTime := now), jobs, base + WRAP, extra)
  {
    EmptyTurn(s, jobs, base, extra);
    NextTurn(base);
    assert forall id | id in Expiries(jobs) :: Expiries(jobs)[id] == Expiry(jobs[id]);
    RepresentsNothing(base + 2 * WRAP, Expiries(jobs));
  }

  /** The absolute tick at which the turn of `n` began. */
  ghost function TurnOf(n: nat): nat {
    n - Low(n)
  }

  /** The state stands for `jobs`, the daemon having last looked at the clock at
      absolute tick `last`. */
  ghost predicate Sampled(s: State, jobs: map<Id, Job>, last: nat, extra: set<Id>) {
    Rel(s, jobs, TurnOf(last), extra) && s.lastTime == Low(last)
  }

  /** The daemon looks at the clock at least once per wrap while a timer is active. */
  ghost predicate InTime(jobs: map<Id, Job>, last: nat, n: nat) {
    last <= n && (jobs == map[] || n - last < WRAP)
  }

  ghost predicate NewTurn(last: nat, n: nat) {
    TurnOf(last) + WRAP <= n
  }

  /** What a sample at absolute tick `n` does to the jobs: nothing within a turn;
      at its end the calls that belong to it are made. */
  ghost function AfterSample(jobs: map<Id, Job>, last: nat, n: nat): map<Id, Job>
    requires Sound(jobs)
  {
    if NewTurn(last, n) then AllProcessed(jobs, TurnOf(last) + WRAP - 1) else jobs
  }

  lemma SampleRel(s: State, jobs: map<Id, Job>, last: nat, extra: set<Id>, n: nat)
    requires Sampled(s, jobs, last, extra) && InTime(jobs, last, n)
    ensures Sound(jobs) && Sampled(Sample(s, Low(n)).0, AfterSample(jobs, last, n), n, extra)
    ensures NewTurn(last, n) ==> Logged(Sample(s, Low(n)).2, jobs, TurnOf(last) + WRAP - 1)
    ensures !NewTurn(last, n) ==> Sample(s, Low(n)).2 == []
    ensures jobs != map[] ==> Sample(s, Low(n)).1 == NewTurn(last, n)
  {
    MatchesSound(s, jobs, extra);
    if jobs == map[] {
      IdleSample(s, last, extra, n);
    } else {
      SampleDigits(last, n);
      BusySample(s, jobs, last, extra, n);
    }
  }

  lemma BusySample(s: State, jobs: map<Id, Job>, last: nat, extra: set<Id>, n: nat)
    requires Sampled(s, jobs, last, extra) && Sound(jobs)
    requires NewTurn(last, n) <==> Low(n) < Low(last)
    requires TurnOf(n) == if NewTurn(last, n) then TurnOf(last) + WRAP else TurnOf(last)
    ensures Sampled(Sample(s, Low(n)).0, AfterSample(jobs, last, n), n, extra)
    ensures NewTurn(last, n) ==> Logged(Sample(s, Low(n)).2, jobs, TurnOf(last) + WRAP - 1)
    ensures !NewTurn(last, n) ==> Sample(s, Low(n)).2 == []
    ensures Sample(s, Low(n)).1 == NewTurn(last, n)
  {
    hide Filed, Low, NewTurn, TurnOf, AllProcessed, FinishTurn, Logged, Sound;
    var base := TurnOf(last);
    if NewTurn(last, n) {
      FinishTurnRel(s, jobs, base, extra);
      var s1 := FinishTurn(s).0;
      var jobs1 := AllProcessed(jobs, base + WRAP - 1);
      MatchesSound(s1, jobs1, extra);
      SwapRel(s1, jobs1, base, extra, Low(n));
    } else {
      FiledAnyTime(s, Expiries(jobs), base, Low(n));
    }
  }

  lemma SampleDigits(last: nat, n: nat)
    requires last <= n < last + WRAP
    ensures var base := TurnOf(last);
            && (NewTurn(last, n) <==> Low(n) < Low(last))
            && TurnOf(n) == (if NewTurn(last, n) then base + WRAP else base)
            && TurnStart(base) && TurnStart(TurnOf(n))
  {
  }

  lemma TurnBase(n: nat)
    ensures TurnStart(TurnOf(n))
  {
  }

  /** Without active timers the two lists are empty and a sample may come at any time. */
  lemma IdleSample(s: State, last: nat, extra: set<Id>, n: nat)
    requires Sampled(s, map[], last, extra) && Sound(map[])
    ensures Sampled(Sample(s, Low(n)).0, map[], n, extra) && Sample(s, Low(n)).2 == []
    ensures AllProcessed(map[], TurnOf(last) + WRAP - 1) == map[]
    ensures Logged([], map[], TurnOf(last) + WRAP - 1)
  {
    var base := TurnOf(last);
    assert Expiries(map[]) == map[];
    RepresentsEmpty(s.current, base);
    RepresentsEmpty(s.overflow, base + WRAP);
    assert AllProcessed(map[], base + WRAP - 1) == map[];
    TurnBase(n);
  }

  lemma FiledAnyTime(s: State, due: map<Id, nat>, base: nat, now: nat)
    requires Filed(s, due, base)
    ensures Filed(s.(lastTime := now), due, base)
  {
  }

  // ---------------------------------------------------------------- the daemon's steps

  /** A round of the daemon at absolute tick `n`. */
  ghost function AfterRound(s: State, jobs: map<Id, Job>, last: nat, n: nat): map<Id, Job>
    requires Sound(jobs)
  {
    if jobs != map[] && NewTurn(last, n) then AllProcessed(jobs, TurnOf(last) + WRAP - 1)
    else if s.current != [] && s.current[0].value <= Low(n) && s.current[0].owner in jobs
            && Expiry(jobs[s.current[0].owner]) <= n then
      StartedBefore(jobs[s.current[0].owner], n);
      Processed(jobs, s.current[0].owner, n)
    else jobs
  }

  /** prvProcessTimerOrBlockTask: the jobs it leaves, the calls it makes; and when
      it goes on to block, every call that is due has been made. */
  lemma RoundRel(s: State, jobs: map<Id, Job>, last: nat, n: nat)
    requires Sampled(s, jobs, last, {}) && InTime(jobs, last, n) && Sound(jobs)
    ensures var (s', blocks, log) := ProcessOrBlock(s, Low(n));
            && Sampled(s', AfterRound(s, jobs, last, n), n, {})
            && (forall id :: Progress(jobs, AfterRound(s, jobs, last, n), multiset(log)[id], id, n))
            && (blocks && jobs != map[] ==> forall id | id in jobs :: n < Expiry(jobs[id]) && AfterRound(s, jobs, last, n) == jobs)
  {
    MatchesSound(s, jobs, {});
    if jobs == map[] {
      IdleRound(s, last, n);
    } else {
      SampleDigits(last, n);
      BusySample(s, jobs, last, {}, n);
      if NewTurn(last, n) {
        LoggedProgress(Sample(s, Low(n)).2, jobs, TurnOf(last) + WRAP - 1, n);
      } else {
        SameTurnRound(s, jobs, last, n);
      }
    }
  }

  /** A job advances by exactly the calls that were logged for it, never past `n`,
      keeping its start and period; a one-shot job ends with its one call. */
  ghost predicate Progress(jobs: map<Id, Job>, jobs': map<Id, Job>, calls: nat, id: Id, n: nat) {
    if id !in jobs then id !in jobs' && calls == 0
    else if id in jobs' then
      var j, j' := jobs[id], jobs'[id];
      && j' == j.(fired := j.fired + calls) && (calls > 0 ==> j.auto && j.start + j'.fired * j.period <= n)
    else !jobs[id].auto && calls == 1 && Expiry(jobs[id]) <= n
  }

  lemma IdleRound(s: State, last: nat, n: nat)
    requires Sampled(s, map[], last, {}) && Sound(map[])
    ensures var (s', blocks, log) := ProcessOrBlock(s, Low(n));
            Sampled(s', map[], n, {}) && log == []
    ensures s.current == []
  {
    assert Expiries(map[]) == map[];
    RepresentsEmpty(s.current, TurnOf(last));
    IdleSample(s, last, {}, n);
  }

  lemma LoggedProgress(log: seq<Id>, jobs: map<Id, Job>, m: nat, n: nat)
    requires Sound(jobs) && Logged(log, jobs, m) && m <= n
    ensures forall id :: Progress(jobs, AllProcessed(jobs, m), multiset(log)[id], id, n)
  {
  }

  lemma SameTurnRound(s: State, jobs: map<Id, Job>, last: nat, n: nat)
    requires Sampled(s, jobs, last, {}) && Sound(jobs) && jobs != map[] && last <= n
    requires !NewTurn(last, n) && TurnOf(n) == TurnOf(last) && Low(n) >= Low(last)
    ensures var (s', blocks, log) := ProcessOrBlock(s, Low(n));
            && Sampled(s', AfterRound(s, jobs, last, n), n, {})
            && (forall id :: Progress(jobs, AfterRound(s, jobs, last, n), multiset(log)[id], id, n))
            && (blocks ==> forall id | id in jobs :: n < Expiry(jobs[id]) && AfterRound(s, jobs, last, n) == jobs)
  {
    var base := TurnOf(last);
    var s1 := s.(lastTime := Low(n));
    FiledAnyTime(s, Expiries(jobs), base, Low(n));
    if s.current != [] && s.current[0].value <= Low(n) {
      var id := s.current[0].owner;
      HeadIsDue(s1, jobs, base, {});
      ProcessRel(s1, jobs, base, {}, n);
      StartedBefore(jobs[id], n);
      CaughtUpBounds(jobs[id], n);
      CallsCount(id, CallsMade(jobs[id], n));
    } else {
      QuietTurn(s, jobs, base, n);
    }
  }

  /** If the head of the current list is still ahead, so is every expiry. */
  lemma QuietTurn(s: State, jobs: map<Id, Job>, base: nat, n: nat)
    requires Rel(s, jobs, base, {}) && n == base + Low(n)
    requires s.current != [] ==> Low(n) < s.current[0].value
    ensures forall id | id in jobs :: n < Expiry(jobs[id])
  {
    forall id | id in jobs
      ensures n < Expiry(jobs[id])
    {
      var x := Expiry(jobs[id]);
      assert id in Expiries(jobs) && Expiries(jobs)[id] == x;
      if x < base + WRAP {
        var e := Entry(id, x - base);
        assert DueAs(e, base, Expiries(jobs));
        assert Count(s.current, e) == 1;
        var i :| 0 <= i < |s.current| && s.current[i] == e;
      }
    }
  }

  /** A command as its sender meant it: a start carries the absolute tick at which
      it was issued. */
  datatype Order = StartAt(issued: nat) | StopIt | ChangeTo(period: nat) | DeleteIt

  function Coded(o: Order): Command {
    match o
    case StartAt(c) => Start(Low(c))
    case StopIt => Stop
    case DeleteIt => Delete
    case ChangeTo(p) => ChangePeriod(p)
  }

  /** Commands are handled within 2^32 ticks; a period is never zero. */
  ghost predicate Timely(o: Order, n: nat) {
    match o
    case StartAt(c) => c <= n < c + WRAP
    case StopIt => true
    case DeleteIt => true
    case ChangeTo(p) => 0 < p < WRAP
  }

  /** What a command received at absolute tick `n` does to its timer. */
  ghost function Ordered(jobs: map<Id, Job>, id: Id, t: Timer, o: Order, n: nat): map<Id, Job>
    requires t.period > 0 && Timely(o, n)
  {
    match o
    case StartAt(c) =>
      var j := Job(c, t.period, t.auto, 0);
      if n < Expiry(j) then jobs[id := j] else if t.auto then jobs[id := CaughtUp(j, n)] else jobs - {id}
    case StopIt => jobs - {id}
    case DeleteIt => jobs - {id}
    case ChangeTo(p) => jobs[id := Job(n, p, t.auto, 0)]
  }

  /** The calls it makes at once: all that fell due while the command was waiting. */
  ghost function OrderedCalls(t: Timer, o: Order, n: nat): nat
    requires t.period > 0 && Timely(o, n)
  {
    if !o.StartAt? || n < Expiry(Job(o.issued, t.period, t.auto, 0)) then 0
    else CallsMade(Job(o.issued, t.period, t.auto, 0), n)
  }

  /** prvProcessReceivedCommands: the timer leaves its list, the clock is looked at,
      and the command takes effect in true time, however late it comes. */
  lemma ReceiveRel(s: State, jobs: map<Id, Job>, last: nat, id: Id, o: Order, n: nat)
    requires Sampled(s, jobs, last, {}) && InTime(jobs - {id}, last, n)
    requires id in s.timers && Timely(o, n)
    ensures WellFormed(s) && s.timers[id].period > 0 && Sound(jobs - {id})
    ensures var others := AfterSample(jobs - {id}, last, n);
            Sampled(Receive(s, id, Coded(o), Low(n)).0, Ordered(others, id, s.timers[id], o, n), n, {})
    ensures Receive(s, id, Coded(o), Low(n)).1 ==
              Sample(Taken(s, id), Low(n)).2 + Calls(id, OrderedCalls(s.timers[id], o, n))
  {
    RemovedRel(s, jobs, last, id);
    hide Filed, Low, AfterSample, Taken, Sample, Ordered, Coded, Timely;
    SampleRel(Taken(s, id), jobs - {id}, last, {id}, n);
    SampleTimers(Taken(s, id), Low(n));
    ObeyRel(Sample(Taken(s, id), Low(n)).0, AfterSample(jobs - {id}, last, n), id, o, n);
  }

  lemma RemovedRel(s: State, jobs: map<Id, Job>, last: nat, id: Id)
    requires Sampled(s, jobs, last, {})
    ensures WellFormed(s) && Sampled(Taken(s, id), jobs - {id}, last, {id})
  {
    WithoutKeeps(s.current, id);
    WithoutKeeps(s.overflow, id);
    WithoutKeeps(s.current, id);
    WithoutKeeps(s.overflow, id);
    assert Expiries(jobs - {id}) == Expiries(jobs) - {id};
    hide Represents, Sorted, Without, WellFormed;
    RepresentsWithout(s.current, TurnOf(last), Expiries(jobs), id);
    RepresentsWithout(s.overflow, TurnOf(last) + WRAP, Expiries(jobs), id);
  }

  /** Each command does in true time what it means. */
  lemma ObeyRel(s: State, others: map<Id, Job>, id: Id, o: Order, n: nat)
    requires Sampled(s, others, n, {id}) && id in s.timers && Timely(o, n)
    ensures WellFormed(s) && s.timers[id].period > 0
    ensures Sampled(Obey(s, id, Coded(o), Low(n)).0, Ordered(others, id, s.timers[id], o, n), n, {})
    ensures Obey(s, id, Coded(o), Low(n)).1 == Calls(id, OrderedCalls(s.timers[id], o, n))
  {
    PeriodsOf(s, id);
    hide WellFormed, Filed, Low, Expiries, TurnOf, Place, Reload, CallsMade, Elapsed;
    match o
    case StartAt(c) => ObeyStart(s, others, id, c, n);
    case StopIt => ObeyStop(s, others, id, n);
    case DeleteIt => ObeyStop(s, others, id, n);
    case ChangeTo(p) => ObeyChange(s, others, id, p, n);
  }

  lemma PeriodsOf(s: State, id: Id)
    requires WellFormed(s) && id in s.timers
    ensures 0 < s.timers[id].period < WRAP
  {
  }

  lemma ObeyStart(s: State, others: map<Id, Job>, id: Id, c: nat, n: nat)
    requires Sampled(s, others, n, {id}) && id in s.timers && c <= n < c + WRAP
    requires WellFormed(s) && 0 < s.timers[id].period < WRAP
    ensures Sampled(Obey(s, id, Start(Low(c)), Low(n)).0, Ordered(others, id, s.timers[id], StartAt(c), n), n, {})
    ensures Obey(s, id, Start(Low(c)), Low(n)).1 == Calls(id, OrderedCalls(s.timers[id], StartAt(c), n))
  {
    hide WellFormed, Filed, Low, Expiries, TurnOf, Place, Reload, CaughtUp, Elapsed, Expiry, Missed, Calls;
    var t := s.timers[id];
    var j := Job(c, t.period, t.auto, 0);
    StartDigits(c, t.period, n);
    FirstExpiry(j);
    NoCalls(id);
    if n < Expiry(j) {
      StartAhead(s, others, id, j, n);
    } else if t.auto {
      StartLate(s, others, id, j, n);
    } else {
      ObeyStop(s, others, id, n);
      assert s.active + {id} - {id} == s.active - {id};
    }
  }

  lemma StartAhead(s: State, others: map<Id, Job>, id: Id, j: Job, n: nat)
    requires Sampled(s, others, n, {id}) && id in s.timers && s.timers[id] == Timer(j.period, j.auto)
    requires 0 < j.period < WRAP && n < Expiry(j) < n + WRAP
    ensures Sampled(Place(s.(active := s.active + {id}), id, Low(Expiry(j)), Low(n)), others[id := j], n, {})
  {
    hide WellFormed, Filed, Low, Expiries, TurnOf, Place, Expiry;
    TurnOfBounds(n);
    ActiveChanged(s, s.active + {id});
    FiledActive(s, Expiries(others), TurnOf(n), s.active + {id}, s.timers);
    FileAhead(s.(active := s.active + {id}), others, id, j, n);
  }

  lemma StartLate(s: State, others: map<Id, Job>, id: Id, j: Job, n: nat)
    requires Sampled(s, others, n, {id}) && id in s.timers && s.timers[id] == Timer(j.period, j.auto) && j.auto
    requires 0 < j.period < WRAP && Expiry(j) <= n < Expiry(j) + WRAP
    ensures j.start <= n
    ensures Sampled(Reload(s.(active := s.active + {id}), id, Low(Expiry(j)), Low(n)), others[id := CaughtUp(j, n)], n, {})
    ensures Calls(id, Missed(Low(Expiry(j)), Low(n), j.period)) + [id] == Calls(id, CallsMade(j, n))
  {
    hide WellFormed, Filed, Low, Expiries, TurnOf, Reload, CaughtUp, Expiry, Missed, Calls, CallsMade;
    TurnOfBounds(n);
    ActiveChanged(s, s.active + {id});
    FiledActive(s, Expiries(others), TurnOf(n), s.active + {id}, s.timers);
    FileLate(s.(active := s.active + {id}), others, id, j, n);
  }

  lemma NoCalls(id: Id)
    ensures Calls(id, 0) == [] && Calls(id, 1) == [id]
  {
  }

  lemma ObeyStop(s: State, others: map<Id, Job>, id: Id, n: nat)
    requires Sampled(s, others, n, {id}) && id in s.timers && WellFormed(s) && s.timers[id].period > 0
    ensures Sampled(Obey(s, id, Stop, Low(n)).0, Ordered(others, id, s.timers[id], StopIt, n), n, {})
    ensures Obey(s, id, Stop, Low(n)).1 == Calls(id, 0)
  {
    hide Low, Expiries, TurnOf;
    FiledActive(s, Expiries(others), TurnOf(n), s.active - {id}, s.timers);
    hide Filed;
    assert others - {id} == others;
  }

  lemma ObeyChange(s: State, others: map<Id, Job>, id: Id, p: nat, n: nat)
    requires Sampled(s, others, n, {id}) && id in s.timers && 0 < p < WRAP && WellFormed(s) && s.timers[id].period > 0
    ensures Sampled(Obey(s, id, ChangePeriod(p), Low(n)).0, Ordered(others, id, s.timers[id], ChangeTo(p), n), n, {})
    ensures Obey(s, id, ChangePeriod(p), Low(n)).1 == Calls(id, 0)
  {
    hide Filed, Low, Expiries, TurnOf, Place, Expiry, WellFormed;
    var t := s.timers[id];
    var timers := s.timers[id := t.(period := p)];
    var j := Job(n, p, t.auto, 0);
    TurnOfBounds(n);
    StartDigits(n, p, n);
    FirstExpiry(j);
    PeriodChanged(s, id, p);
    FiledActive(s, Expiries(others), TurnOf(n), s.active + {id}, timers);
    FileAhead(s.(active := s.active + {id}, timers := timers), others, id, j, n);
  }

  lemma FirstExpiry(j: Job)
    requires j.fired == 0
    ensures Expiry(j) == j.start + j.period
  {
  }

  lemma PeriodChanged(s: State, id: Id, p: nat)
    requires WellFormed(s) && id in s.timers && 0 < p < WRAP
    ensures WellFormed(s.(active := s.active + {id}, timers := s.timers[id := s.timers[id].(period := p)]))
  {
  }

  lemma ActiveChanged(s: State, active: set<Id>)
    requires WellFormed(s)
    ensures WellFormed(s.(active := active))
  {
  }

  lemma TurnOfBounds(n: nat)
    ensures TurnOf(n) <= n < TurnOf(n) + WRAP
  {
  }

  lemma FiledActive(s: State, due: map<Id, nat>, base: nat, active: set<Id>, timers: map<Id, Timer>)
    requires Filed(s, due, base)
    ensures Filed(s.(active := active, timers := timers), due, base)
  {
  }

  lemma FileAhead(s: State, others: map<Id, Job>, id: Id, j: Job, n: nat)
    requires Filed(s, Expiries(others), TurnOf(n)) && Matches(s, others, {id}) && s.lastTime == Low(n)
    requires id in s.active && id in s.timers && s.timers[id] == Timer(j.period, j.auto) && 0 < j.period < WRAP
    requires TurnOf(n) <= n < TurnOf(n) + WRAP && n < Expiry(j) < n + WRAP
    ensures Sampled(Place(s, id, Low(Expiry(j)), Low(n)), others[id := j], n, {})
  {
    hide Filed, Expiries, Low, TurnOf, Expiry;
    PlaceRel(s, others, TurnOf(n), {}, id, j, n);
  }

  lemma FileLate(s: State, others: map<Id, Job>, id: Id, j: Job, n: nat)
    requires Filed(s, Expiries(others), TurnOf(n)) && Matches(s, others, {id}) && s.lastTime == Low(n)
    requires id in s.active && id in s.timers && s.timers[id] == Timer(j.period, j.auto) && j.auto
    requires TurnOf(n) <= n < TurnOf(n) + WRAP && Expiry(j) <= n < Expiry(j) + WRAP
    ensures j.start <= n && j.period > 0 && Sampled(Reload(s, id, Low(Expiry(j)), Low(n)), others[id := CaughtUp(j, n)], n, {})
    ensures Calls(id, Missed(Low(Expiry(j)), Low(n), j.period)) + [id] == Calls(id, CallsMade(j, n))
  {
    hide Filed, Expiries, Low, TurnOf, Expiry, CaughtUp, Missed, NextExpiry;
    ReloadRel(s, others, TurnOf(n), {}, id, j, n);
  }

  lemma StartDigits(c: nat, p: nat, n: nat)
    requires 0 < p < WRAP && c <= n < c + WRAP
    ensures Low(Low(c) + p) == Low(c + p)
    ensures Elapsed(Low(c + p), Low(n), Low(c), p) == (c + p <= n)
  {
    assert c + p == Low(c) + p + c / WRAP * WRAP;
    ModShift(Low(c) + p, c / WRAP);
    ElapsedExact(Low(n), Low(c), p);
    ModDistance(n, c);
  }

  // ---------------------------------------------------------------- runs

  /** One round of the daemon, or one command it receives, at an absolute tick. */
  datatype Act = Round(n: nat) | Received(id: Id, order: Order, n: nat)

  /** The daemon's state, the jobs it stands for, and when it last looked at the clock. */
  datatype Daemon = Daemon(s: State, jobs: map<Id, Job>, last: nat)

  ghost predicate Good(d: Daemon) {
    Sampled(d.s, d.jobs, d.last, {}) && Sound(d.jobs) && NotEarly(d.jobs, d.last)
  }

  ghost predicate Allowed(d: Daemon, a: Act) {
    match a
    case Round(n) => InTime(d.jobs, d.last, n)
    case Received(id, o, n) => InTime(d.jobs - {id}, d.last, n) && id in d.s.timers && Timely(o, n)
  }

  /** What one act does to the code's state, and the callbacks it makes. */
  ghost function Perform(s: State, a: Act): (State, seq<Id>)
    requires WellFormed(s) && (a.Received? ==> a.id in s.timers)
  {
    match a
    case Round(n) => var (s', _, log) := ProcessOrBlock(s, Low(n)); (s', log)
    case Received(id, o, n) => Receive(s, id, Coded(o), Low(n))
  }

  ghost function Jobs(d: Daemon, a: Act): map<Id, Job>
    requires Good(d) && Allowed(d, a)
  {
    match a
    case Round(n) => AfterRound(d.s, d.jobs, d.last, n)
    case Received(id, o, n) =>
      ReceiveRel(d.s, d.jobs, d.last, id, o, n);
      Ordered(AfterSample(d.jobs - {id}, d.last, n), id, d.s.timers[id], o, n)
  }

  ghost function After(d: Daemon, a: Act): (d': Daemon)
    requires Good(d) && Allowed(d, a)
    ensures Good(d')
  {
    ActGood(d, a);
    Daemon(Perform(d.s, a).0, Jobs(d, a), a.n)
  }

  /** Each act keeps the state and the jobs together; a timer it does not command
      makes progress by its calls. */
  lemma ActGood(d: Daemon, a: Act)
    requires Good(d) && Allowed(d, a)
    ensures WellFormed(d.s) && d.last <= a.n
    ensures Good(Daemon(Perform(d.s, a).0, Jobs(d, a), a.n))
    ensures forall id | a.Round? || a.id != id :: Progress(d.jobs, Jobs(d, a), multiset(Perform(d.s, a).1)[id], id, a.n)
    ensures a.Received? ==> multiset(Perform(d.s, a).1)[a.id] == OrderedCalls(d.s.timers[a.id], a.order, a.n)
  {
    hide Sampled, Rel, Matches, Filed, ProcessOrBlock, Receive, AfterRound, AfterSample, Ordered, Progress, OrderedCalls, NotEarly, Low, Sound;
    SampledWellFormed(d.s, d.jobs, d.last);
    match a
    case Round(n) =>
      RoundRel(d.s, d.jobs, d.last, n);
      RoundNotEarly(d.jobs, AfterRound(d.s, d.jobs, d.last, n), d.last, n, ProcessOrBlock(d.s, Low(n)).2);
      SampledSound(Perform(d.s, a).0, Jobs(d, a), n);
    case Received(id, o, n) =>
      ReceiveRel(d.s, d.jobs, d.last, id, o, n);
      ReceiveProgress(d, id, o, n);
      SampledSound(Perform(d.s, a).0, Jobs(d, a), n);
  }

  lemma SampledWellFormed(s: State, jobs: map<Id, Job>, last: nat)
    requires Sampled(s, jobs, last, {})
    ensures WellFormed(s)
  {
  }

  lemma SampledSound(s: State, jobs: map<Id, Job>, last: nat)
    requires Sampled(s, jobs, last, {})
    ensures Sound(jobs)
  {
  }

  lemma RoundNotEarly(jobs: map<Id, Job>, jobs': map<Id, Job>, last: nat, n: nat, log: seq<Id>)
    requires NotEarly(jobs, last) && last <= n
    requires forall id :: Progress(jobs, jobs', multiset(log)[id], id, n)
    ensures NotEarly(jobs', n)
  {
    forall id | id in jobs'
      ensures jobs'[id].start + jobs'[id].fired * jobs'[id].period <= n
    {
      assert Progress(jobs, jobs', multiset(log)[id], id, n);
    }
  }

  /** A command's effect on the timers it is not about, and on its own. */
  lemma ReceiveProgress(d: Daemon, id: Id, o: Order, n: nat)
    requires Good(d) && Allowed(d, Received(id, o, n)) && WellFormed(d.s) && d.s.timers[id].period > 0 && Sound(d.jobs - {id})
    requires Receive(d.s, id, Coded(o), Low(n)).1 ==
               Sample(Taken(d.s, id), Low(n)).2 + Calls(id, OrderedCalls(d.s.timers[id], o, n))
    ensures var jobs' := Ordered(AfterSample(d.jobs - {id}, d.last, n), id, d.s.timers[id], o, n);
            && NotEarly(jobs', n)
            && (forall i | i != id :: Progress(d.jobs, jobs', multiset(Receive(d.s, id, Coded(o), Low(n)).1)[i], i, n))
            && multiset(Receive(d.s, id, Coded(o), Low(n)).1)[id] == OrderedCalls(d.s.timers[id], o, n)
  {
    hide Sampled, Rel, Matches, Filed, Receive, Sample, AfterSample, Ordered, OrderedCalls, Low, Sound, Taken, Calls, Progress, NotEarly;
    var others := AfterSample(d.jobs - {id}, d.last, n);
    var log, calls := Sample(Taken(d.s, id), Low(n)).2, OrderedCalls(d.s.timers[id], o, n);
    SampleProgress(d, id, n);
    CallsCount(id, calls);
    assert multiset(log + Calls(id, calls)) == multiset(log) + multiset(Calls(id, calls));
    OrderedNotEarly(others, id, d.s.timers[id], o, n);
    forall i | i != id
      ensures Progress(d.jobs, Ordered(others, id, d.s.timers[id], o, n), multiset(log)[i], i, n)
    {
      OrderedElsewhere(d.jobs, others, id, d.s.timers[id], o, n, i, multiset(log)[i]);
    }
  }

  lemma SampleProgress(d: Daemon, id: Id, n: nat)
    requires Good(d) && InTime(d.jobs - {id}, d.last, n) && WellFormed(d.s) && Sound(d.jobs - {id})
    ensures var others := AfterSample(d.jobs - {id}, d.last, n);
            && NotEarly(others, n) && id !in others
            && var log := Sample(Taken(d.s, id), Low(n)).2;
            && multiset(log)[id] == 0
            && forall i :: Progress(d.jobs - {id}, others, multiset(log)[i], i, n)
  {
    hide Sampled, Rel, Matches, Filed, Sample, Low, Taken, Progress, NotEarly, Logged, AllProcessed, TurnOf;
    RemovedRel(d.s, d.jobs, d.last, id);
    SampleRel(Taken(d.s, id), d.jobs - {id}, d.last, {id}, n);
    var log: seq<Id> := Sample(Taken(d.s, id), Low(n)).2;
    var count: nat := multiset(log)[id];
    if NewTurn(d.last, n) {
      LoggedProgress(log, d.jobs - {id}, TurnOf(d.last) + WRAP - 1, n);
    } else {
      StillProgress(d.jobs - {id}, n);
    }
    FewerNotEarly(d.jobs, id, d.last);
    RoundNotEarly(d.jobs - {id}, AfterSample(d.jobs - {id}, d.last, n), d.last, n, log);
    assert Progress(d.jobs - {id}, AfterSample(d.jobs - {id}, d.last, n), count, id, n);
    NoProgress(d.jobs - {id}, AfterSample(d.jobs - {id}, d.last, n), count, id, n);
  }

  lemma StillProgress(jobs: map<Id, Job>, n: nat)
    ensures forall i: Id :: multiset([])[i] == 0
    ensures forall i :: Progress(jobs, jobs, 0, i, n)
  {
  }

  lemma NoProgress(jobs: map<Id, Job>, jobs': map<Id, Job>, calls: nat, id: Id, n: nat)
    requires Progress(jobs, jobs', calls, id, n) && id !in jobs
    ensures id !in jobs' && calls == 0
  {
  }

  lemma FewerNotEarly(jobs: map<Id, Job>, id: Id, n: nat)
    requires NotEarly(jobs, n)
    ensures NotEarly(jobs - {id}, n)
  {
  }

  lemma OrderedNotEarly(others: map<Id, Job>, id: Id, t: Timer, o: Order, n: nat)
    requires NotEarly(others, n) && t.period > 0 && Timely(o, n)
    ensures NotEarly(Ordered(others, id, t, o, n), n)
  {
  }

  lemma OrderedElsewhere(jobs: map<Id, Job>, others: map<Id, Job>, id: Id, t: Timer, o: Order, n: nat, i: Id, calls: nat)
    requires t.period > 0 && Timely(o, n) && i != id && Progress(jobs - {id}, others, calls, i, n)
    ensures Progress(jobs, Ordered(others, id, t, o, n), calls, i, n)
  {
  }

  /** How often an act calls the callback of `id`. */
  ghost function CallsIn(d: Daemon, a: Act, id: Id): nat
    requires Good(d) && Allowed(d, a)
  {
    ActGood(d, a);
    multiset(Perform(d.s, a).1)[id]
  }

  lemma ActProgress(d: Daemon, a: Act, id: Id)
    requires Good(d) && Allowed(d, a) && (a.Round? || a.id != id)
    ensures Progress(d.jobs, After(d, a).jobs, CallsIn(d, a, id), id, a.n)
  {
    ActGood(d, a);
    hide Good, Allowed, Perform, Jobs, Progress;
  }

  ghost predicate AllowedRun(d: Daemon, acts: seq<Act>)
    requires Good(d)
    decreases |acts|
  {
    acts == [] || (Allowed(d, acts[0]) && AllowedRun(After(d, acts[0]), acts[1..]))
  }

  ghost function Run(d: Daemon, acts: seq<Act>): (d': Daemon)
    requires Good(d) && AllowedRun(d, acts)
    ensures Good(d')
    decreases |acts|
  {
    if acts == [] then d else Run(After(d, acts[0]), acts[1..])
  }

  function Repeat(n: nat, x: nat): seq<nat> {
    seq(n, _ => x)
  }

  /** The absolute ticks at which the callback of `id` is made during a run, in order. */
  ghost function CallTimes(d: Daemon, acts: seq<Act>, id: Id): seq<nat>
    requires Good(d) && AllowedRun(d, acts)
    decreases |acts|
  {
    if acts == [] then [] else
      Repeat(CallsIn(d, acts[0], id), acts[0].n) + CallTimes(After(d, acts[0]), acts[1..], id)
  }

  ghost predicate Commands(acts: seq<Act>, id: Id) {
    exists i | 0 <= i < |acts| :: acts[i].Received? && acts[i].id == id
  }

  /** Over any run in which nobody commands an active auto-reload timer, its job
      counts its callbacks, and the callback for the k-th period is never made
      before that period has passed. */
  lemma {:induction false} AutoReloadNeverEarly(d: Daemon, acts: seq<Act>, id: Id)
    requires Good(d) && AllowedRun(d, acts) && !Commands(acts, id)
    requires id in d.jobs && d.jobs[id].auto
    ensures var j, d', times := d.jobs[id], Run(d, acts), CallTimes(d, acts, id);
            && id in d'.jobs && d'.jobs[id] == j.(fired := j.fired + |times|)
            && forall k | 0 <= k < |times| :: times[k] >= j.start + (j.fired + k + 1) * j.period
    decreases |acts|
  {
    hide Good, Allowed, CallsIn, After;
    if acts != [] {
      var d1, a := After(d, acts[0]), acts[0];
      ActProgress(d, a, id);
      var calls := CallsIn(d, a, id);
      assert !Commands(acts[1..], id) by {
        assert forall i | 0 <= i < |acts[1..]| :: acts[1..][i] == acts[i + 1];
      }
      AutoReloadNeverEarly(d1, acts[1..], id);
      CallsInOrder(d.jobs[id], calls, a.n, CallTimes(d1, acts[1..], id));
    }
  }

  lemma CallsInOrder(j: Job, calls: nat, n: nat, rest: seq<nat>)
    requires calls > 0 ==> j.start + (j.fired + calls) * j.period <= n
    requires forall k | 0 <= k < |rest| :: rest[k] >= j.start + (j.fired + calls + k + 1) * j.period
    ensures var times := Repeat(calls, n) + rest;
            forall k | 0 <= k < |times| :: times[k] >= j.start + (j.fired + k + 1) * j.period
  {
    var times := Repeat(calls, n) + rest;
    forall k | 0 <= k < |times|
      ensures times[k] >= j.start + (j.fired + k + 1) * j.period
    {
      if k < calls {
        MulMono(j.fired + k + 1, j.fired + calls, j.period);
      } else {
        assert times[k] == rest[k - calls];
        assert j.fired + calls + (k - calls) + 1 == j.fired + k + 1;
      }
    }
  }

  lemma RoundInTime(jobs: map<Id, Job>, last: nat, n: nat)
    requires InTime(jobs, last, n)
    ensures last <= n
  {
  }

  /** When the daemon goes on to block it has made, for every active timer, one
      call for each period that has passed, and no more. */
  lemma BlocksCaughtUp(d: Daemon, n: nat, id: Id)
    requires Good(d) && Allowed(d, Round(n)) && id in d.jobs
    ensures WellFormed(d.s) && d.jobs[id].period > 0
    ensures ProcessOrBlock(d.s, Low(n)).1 ==>
              && Jobs(d, Round(n)) == d.jobs
              && d.jobs[id].start <= n && d.jobs[id].fired == (n - d.jobs[id].start) / d.jobs[id].period
  {
    hide Sampled, ProcessOrBlock, AfterRound, Low, Progress, InTime;
    SampledWellFormed(d.s, d.jobs, d.last);
    RoundRel(d.s, d.jobs, d.last, n);
    RoundInTime(d.jobs, d.last, n);
    var j := d.jobs[id];
    assert d.jobs != map[];
    if ProcessOrBlock(d.s, Low(n)).1 {
      assert j.start + j.fired * j.period <= n;
      DivUnique(n - j.start, j.period, j.fired);
    }
  }

  /** Exactness: an auto-reload timer of period P started at absolute tick C, with
      the command received however late, and left alone since, has had exactly
      floor((N - C) / P) calls when the daemon blocks at absolute tick N, and the
      k-th of them was not made before C + k P. */
  lemma FiresOncePerPeriod(d: Daemon, id: Id, c: nat, n: nat, acts: seq<Act>, end: nat)
    requires Good(d) && AllowedRun(d, [Received(id, StartAt(c), n)] + acts + [Round(end)]) && !Commands(acts, id)
    requires id in d.s.timers && d.s.timers[id].auto
    ensures AllowedRun(d, [Received(id, StartAt(c), n)] + acts)
    ensures var p := d.s.timers[id].period;
            var run := [Received(id, StartAt(c), n)] + acts;
            var times := CallTimes(d, run, id);
            && p > 0
            && (forall k | 0 <= k < |times| :: times[k] >= c + (k + 1) * p)
            && (ProcessOrBlock(Run(d, run).s, Low(end)).1 ==> c <= end && |times| == (end - c) / p)
  {
    hide Good, Allowed, Perform, Jobs, ProcessOrBlock, After, CallsIn, Commands, CaughtUp;
    var start := Received(id, StartAt(c), n);
    var run := [start] + acts;
    AllowedPrefix(d, run, Round(end));
    var d1 := After(d, start);
    assert run[1..] == acts;
    StartedJob(d, id, c, n);
    AutoReloadNeverEarly(d1, acts, id);
    CallsInOrder(Job(c, d.s.timers[id].period, true, 0), d1.jobs[id].fired, n, CallTimes(d1, acts, id));
    BlocksCaughtUp(Run(d1, acts), end, id);
  }

  lemma {:induction false} AllowedPrefix(d: Daemon, acts: seq<Act>, a: Act)
    requires Good(d) && AllowedRun(d, acts + [a])
    ensures AllowedRun(d, acts) && Allowed(Run(d, acts), a)
    decreases |acts|
  {
    hide Good, Allowed, After;
    var all := acts + [a];
    if acts == [] {
      assert all[0] == a;
    } else {
      assert all[0] == acts[0] && all[1..] == acts[1..] + [a];
      AllowedPrefix(After(d, acts[0]), acts[1..], a);
    }
  }

  /** A started auto-reload timer has a job that began when the command was issued,
      and the calls made on receiving the command are those it has fired. */
  lemma StartedJob(d: Daemon, id: Id, c: nat, n: nat)
    requires Good(d) && Allowed(d, Received(id, StartAt(c), n)) && id in d.s.timers && d.s.timers[id].auto
    ensures var a := Received(id, StartAt(c), n);
            var p := d.s.timers[id].period;
            && id in After(d, a).jobs && p > 0
            && var j := After(d, a).jobs[id];
            && j == Job(c, p, true, CallsIn(d, a, id))
            && (j.fired > 0 ==> c + j.fired * p <= n)
  {
    var a := Received(id, StartAt(c), n);
    ActGood(d, a);
    ReceiveRel(d.s, d.jobs, d.last, id, StartAt(c), n);
    hide Sampled, Rel, Receive, AfterSample, Perform, Low;
    var j := Job(c, d.s.timers[id].period, true, 0);
    if Expiry(j) <= n {
      CaughtUpBounds(j, n);
    }
  }

  // ---------------------------------------------------------------- when the daemon blocks

  /** The daemon goes on to block exactly if this round did not end a turn of the
      counter and no expiry has come; without active timers, exactly if the counter
      does not read less than the last time. */
  lemma BlocksExactly(s: State, jobs: map<Id, Job>, last: nat, n: nat)
    requires Sampled(s, jobs, last, {}) && InTime(jobs, last, n)
    ensures WellFormed(s)
    ensures jobs != map[] ==>
              (ProcessOrBlock(s, Low(n)).1 <==> !NewTurn(last, n) && forall id | id in jobs :: n < Expiry(jobs[id]))
    ensures jobs == map[] ==> (ProcessOrBlock(s, Low(n)).1 <==> Low(n) >= Low(last))
  {
    SampledWellFormed(s, jobs, last);
    if jobs == map[] {
      SampledSound(s, jobs, last);
      IdleRound(s, last, n);
    } else {
      SampleDigits(last, n);
      SampleRel(s, jobs, last, {}, n);
      var base := TurnOf(last);
      if !NewTurn(last, n) {
        if s.current != [] && s.current[0].value <= Low(n) {
          HeadIsDue(s, jobs, base, {});
        } else {
          QuietTurn(s, jobs, base, n);
        }
      }
    }
  }

  /** The timers whose expiry has come. */
  ghost function Late(jobs: map<Id, Job>, n: nat): set<Id> {
    set id | id in jobs && Expiry(jobs[id]) <= n
  }

  function Rounds(n: nat, k: nat): seq<Act> {
    seq(k, _ => Round(n))
  }

  /** A second round at the same tick blocks, or leaves one timer fewer to be served. */
  lemma RoundServesOne(d: Daemon, n: nat)
    requires Good(d) && d.last == n
    ensures Allowed(d, Round(n)) && WellFormed(d.s) && After(d, Round(n)).last == n
    ensures !ProcessOrBlock(d.s, Low(n)).1 ==> |Late(After(d, Round(n)).jobs, n)| < |Late(d.jobs, n)|
  {
    assert InTime(d.jobs, n, n);
    BlocksExactly(d.s, d.jobs, n, n);
    hide Sampled, ProcessOrBlock, NotEarly, Low;
    if !ProcessOrBlock(d.s, Low(n)).1 {
      ServedIsHead(d, n);
    }
  }

  lemma ServedIsHead(d: Daemon, n: nat)
    requires Good(d) && d.last == n && Allowed(d, Round(n)) && WellFormed(d.s) && !ProcessOrBlock(d.s, Low(n)).1
    ensures |Late(After(d, Round(n)).jobs, n)| < |Late(d.jobs, n)|
  {
    var s, jobs := d.s, d.jobs;
    BlocksExactly(s, jobs, n, n);
    assert s.current != [] && s.current[0].value <= Low(n);
    HeadIsDue(s, jobs, TurnOf(n), {});
    var id := s.current[0].owner;
    StartedBefore(jobs[id], n);
    CaughtUpBounds(jobs[id], n);
    hide Sampled, ProcessOrBlock, NotEarly, Low, Expiry, CaughtUp;
    assert Late(Processed(jobs, id, n), n) == Late(jobs, n) - {id};
    assert id in Late(jobs, n);
  }

  lemma {:induction false} RoundsServeAll(d: Daemon, n: nat) returns (k: nat)
    requires Good(d) && d.last == n
    ensures k <= |Late(d.jobs, n)| && AllowedRun(d, Rounds(n, k))
    ensures var s := Run(d, Rounds(n, k)).s; WellFormed(s) && ProcessOrBlock(s, Low(n)).1
    decreases |Late(d.jobs, n)|
  {
    hide Good, Allowed, After, ProcessOrBlock, Late;
    RoundServesOne(d, n);
    k := 0;
    if !ProcessOrBlock(d.s, Low(n)).1 {
      var j := RoundsServeAll(After(d, Round(n)), n);
      k := j + 1;
      assert Rounds(n, k)[1..] == Rounds(n, j) && Rounds(n, k)[0] == Round(n);
    }
  }

  /** Rounds at one tick come to a blocking one, with at most one round per active
      timer and one that ends a turn of the counter before it. */
  lemma RoundsReachBlocking(d: Daemon, n: nat) returns (k: nat)
    requires Good(d) && Allowed(d, Round(n))
    ensures k <= |d.jobs| + 1 && AllowedRun(d, Rounds(n, k))
    ensures var s := Run(d, Rounds(n, k)).s; WellFormed(s) && ProcessOrBlock(s, Low(n)).1
  {
    hide Good, Allowed, After, ProcessOrBlock, Late, Low;
    GoodWellFormed(d);
    k := 0;
    if !ProcessOrBlock(d.s, Low(n)).1 {
      var d1 := After(d, Round(n));
      FewerJobs(d, n);
      var j := RoundsServeAll(d1, n);
      k := j + 1;
      assert Rounds(n, k)[1..] == Rounds(n, j) && Rounds(n, k)[0] == Round(n);
    }
  }

  lemma GoodWellFormed(d: Daemon)
    requires Good(d)
    ensures WellFormed(d.s)
  {
  }

  lemma FewerJobs(d: Daemon, n: nat)
    requires Good(d) && Allowed(d, Round(n))
    ensures var d1 := After(d, Round(n)); d1.last == n && |Late(d1.jobs, n)| <= |d.jobs|
  {
    var d1 := After(d, Round(n));
    forall id | id in d1.jobs
      ensures id in d.jobs
    {
      ActProgress(d, Round(n), id);
    }
    SubsetCount(Late(d1.jobs, n), d.jobs.Keys);
  }

  lemma {:induction false} RunConcat(d: Daemon, xs: seq<Act>, ys: seq<Act>, id: Id)
    requires Good(d) && AllowedRun(d, xs) && AllowedRun(Run(d, xs), ys)
    ensures AllowedRun(d, xs + ys) && Run(d, xs + ys) == Run(Run(d, xs), ys)
    ensures CallTimes(d, xs + ys, id) == CallTimes(d, xs, id) + CallTimes(Run(d, xs), ys, id)
    decreases |xs|
  {
    hide Good, Allowed, After, CallsIn;
    if xs == [] {
      assert xs + ys == ys;
    } else {
      assert (xs + ys)[0] == xs[0] && (xs + ys)[1..] == xs[1..] + ys;
      RunConcat(After(d, xs[0]), xs[1..], ys, id);
    }
  }

  /** So the exact count is reached: from any state of the run, whenever the daemon
      gets its turn at absolute tick N, it has made exactly floor((N - C) / P) calls
      after at most one round per active timer and one more. */
  lemma CountIsReached(d: Daemon, id: Id, c: nat, n: nat, acts: seq<Act>, end: nat) returns (k: nat)
    requires Good(d) && AllowedRun(d, [Received(id, StartAt(c), n)] + acts + [Round(end)]) && !Commands(acts, id)
    requires id in d.s.timers && d.s.timers[id].auto
    ensures AllowedRun(d, [Received(id, StartAt(c), n)] + acts)
    ensures k <= |Run(d, [Received(id, StartAt(c), n)] + acts).jobs| + 1
    ensures var run := [Received(id, StartAt(c), n)] + acts + Rounds(end, k);
            var p := d.s.timers[id].period;
            && AllowedRun(d, run) && p > 0 && c <= end && |CallTimes(d, run, id)| == (end - c) / p
            && forall i | 0 <= i < |CallTimes(d, run, id)| :: CallTimes(d, run, id)[i] >= c + (i + 1) * p
  {
    var start := Received(id, StartAt(c), n);
    var run := [start] + acts;
    hide Good, Allowed, After, CallsIn, Perform, Jobs, ProcessOrBlock, Commands;
    AllowedPrefix(d, run, Round(end));
    var d1 := Run(d, run);
    k := RoundsReachBlocking(d1, end);
    var rounds := Rounds(end, k);
    RunConcat(d, run, rounds, id);
    LastRound(Run(d1, rounds), d1, end, k);
    RunConcat(d, run + rounds, [Round(end)], id);
    assert run + rounds == [start] + (acts + rounds);
    RoundsCommandNothing(acts, end, k, id);
    FiresOncePerPeriod(d, id, c, n, acts + rounds, end);
  }

  /** A round may be repeated at the same tick. */
  lemma LastRound(d2: Daemon, d1: Daemon, end: nat, k: nat)
    requires Good(d1) && Allowed(d1, Round(end)) && AllowedRun(d1, Rounds(end, k)) && d2 == Run(d1, Rounds(end, k))
    ensures Allowed(d2, Round(end)) && AllowedRun(d2, [Round(end)])
  {
    if k > 0 {
      RunsUntil(d1, end, k);
    } else {
      assert Rounds(end, k) == [];
    }
    assert [Round(end)][1..] == [];
  }

  lemma {:induction false} RunsUntil(d: Daemon, end: nat, k: nat)
    requires Good(d) && AllowedRun(d, Rounds(end, k)) && k > 0
    ensures Run(d, Rounds(end, k)).last == end
    decreases k
  {
    hide Good, Allowed;
    var d1 := After(d, Round(end));
    assert Rounds(end, k)[0] == Round(end) && Rounds(end, k)[1..] == Rounds(end, k - 1);
    if k > 1 {
      RunsUntil(d1, end, k - 1);
    }
  }

  lemma RoundsCommandNothing(acts: seq<Act>, end: nat, k: nat, id: Id)
    requires !Commands(acts, id)
    ensures !Commands(acts + Rounds(end, k), id)
  {
  }

  // ---------------------------------------------------------------- a daemon that is prompt

  /** When the daemon starts it stands for no jobs, whatever timers there are. */
  lemma StartGood(timers: map<Id, Timer>)
    requires forall id | id in timers :: 0 < timers[id].period < WRAP
    ensures Good(Daemon(State.State(timers, {}, [], [], 0), map[], 0)) && NotLate(Daemon(State.State(timers, {}, [], [], 0), map[], 0))
  {
    RepresentsNothing(0, map[]);
    RepresentsNothing(WRAP, map[]);
    assert Expiries(map[]) == map[];
  }

  /** How long the daemon waits for a message: up to its next expiry, up to the next
      wrap if that is in the next turn, or without limit. */
  function Wait(s: State, now: nat): Option<nat> {
    if s.current != [] then Some(if s.current[0].value > now then s.current[0].value - now else 0)
    else if s.overflow != [] then Some(Low(0 - now))
    else None
  }

  /** No expiry has been passed over. */
  ghost predicate NotLate(d: Daemon) {
    forall id | id in d.jobs :: d.last <= Expiry(d.jobs[id])
  }

  /** The wait never reaches beyond an expiry, is shorter than a turn of the counter,
      and is without limit only if no timer is active. */
  lemma WaitIsSafe(d: Daemon)
    requires Good(d) && NotLate(d)
    ensures var w := Wait(d.s, Low(d.last));
            && (w == None ==> d.jobs == map[])
            && (w.Some? ==> w.value < WRAP && forall id | id in d.jobs :: d.last + w.value <= Expiry(d.jobs[id]))
  {
    hide Rel, Sound, NotEarly, Expiry;
    var base, now, s := TurnOf(d.last), Low(d.last), d.s;
    if s.current != [] {
      HeadIsDue(s, d.jobs, base, {});
    }
    forall id | id in d.jobs
      ensures s.current != [] || s.overflow != []
      ensures Expiry(d.jobs[id]) >= if s.current != [] then base + s.current[0].value else base + WRAP
    {
      JobIsFiled(s, d.jobs, base, id);
    }
  }

  lemma JobIsFiled(s: State, jobs: map<Id, Job>, base: nat, id: Id)
    requires Rel(s, jobs, base, {}) && id in jobs
    ensures s.current != [] || s.overflow != []
    ensures Expiry(jobs[id]) >= if s.current != [] then base + s.current[0].value else base + WRAP
  {
    var x := Expiry(jobs[id]);
    assert Expiries(jobs)[id] == x;
    if x < base + WRAP {
      var e := Entry(id, x - base);
      assert DueAs(e, base, Expiries(jobs));
      assert Count(s.current, e) == 1;
      var i :| 0 <= i < |s.current| && s.current[i] == e;
    } else {
      var e := Entry(id, x - base - WRAP);
      assert DueAs(e, base + WRAP, Expiries(jobs));
      assert Count(s.overflow, e) == 1;
      HeadCounts(s.current);
    }
  }

  /** The wait of a daemon that goes on to block ends at the earliest expiry if that is
      in this turn of the counter, and at the end of the turn if all are in the next;
      where the turn has just begun that wait is none. */
  lemma WaitExactly(d: Daemon)
    requires Good(d) && forall id | id in d.jobs :: d.last < Expiry(d.jobs[id])
    ensures var w, turn := Wait(d.s, Low(d.last)), TurnOf(d.last) + WRAP;
            && (w == None <==> d.jobs == map[])
            && (d.jobs != map[] && (exists id :: id in d.jobs && Expiry(d.jobs[id]) < turn) ==>
                  w.Some? && exists id :: id in d.jobs && d.last + w.value == Expiry(d.jobs[id]))
            && (d.jobs != map[] && (forall id | id in d.jobs :: Expiry(d.jobs[id]) >= turn) ==>
                  w == Some(if d.last == TurnOf(d.last) then 0 else turn - d.last))
  {
    var base, now, s := TurnOf(d.last), Low(d.last), d.s;
    LowNegated(d.last);
    if s.current != [] {
      HeadIsDue(s, d.jobs, base, {});
    } else if s.overflow != [] {
      OverflowHasJob(s, d.jobs, base);
    }
    hide Sound, NotEarly, Expiry;
    forall id | id in d.jobs
      ensures s.current != [] || s.overflow != []
      ensures Expiry(d.jobs[id]) >= if s.current != [] then base + s.current[0].value else base + WRAP
    {
      JobIsFiled(s, d.jobs, base, id);
    }
    hide Rel;
  }

  lemma LowNegated(n: nat)
    ensures Low(0 - Low(n)) == if n == TurnOf(n) then 0 else TurnOf(n) + WRAP - n
  {
  }

  lemma OverflowHasJob(s: State, jobs: map<Id, Job>, base: nat)
    requires Rel(s, jobs, base, {}) && s.overflow != []
    ensures jobs != map[]
  {
    HeadCounts(s.overflow);
    assert s.overflow[0].owner in Expiries(jobs);
  }

  /** The daemon acts again when its wait is over, or sooner; a command is received at
      the tick at which it is issued. */
  ghost predicate Prompt(d: Daemon, a: Act) {
    && d.last <= a.n
    && (var w := Wait(d.s, Low(d.last)); w.Some? ==> a.n <= d.last + w.value)
    && (a.Received? ==> a.id in d.s.timers && Timely(a.order, a.n) && (a.order.StartAt? ==> a.order.issued == a.n))
  }

  lemma PromptAllowed(d: Daemon, a: Act)
    requires Good(d) && NotLate(d) && Prompt(d, a)
    ensures Allowed(d, a) && Sound(d.jobs) && (forall id | id in d.jobs :: a.n <= Expiry(d.jobs[id]))
  {
    WaitIsSafe(d);
    SampledSound(d.s, d.jobs, d.last);
    hide Wait, Sampled;
  }

  /** Such a daemon looks at the clock often enough, is never late, and calls each
      callback at the very tick it belongs to. */
  lemma PromptStep(d: Daemon, a: Act)
    requires Good(d) && NotLate(d) && Prompt(d, a)
    ensures Allowed(d, a) && NotLate(After(d, a))
    ensures forall id | id in d.jobs && (a.Round? || a.id != id) ::
              CallsIn(d, a, id) == 0 || (CallsIn(d, a, id) == 1 && a.n == Expiry(d.jobs[id]))
  {
    hide Good, Prompt, Allowed, CallsIn, Perform, Jobs;
    PromptAllowed(d, a);
    AfterAt(d, a);
    hide After, Expiry;
    forall id | id in d.jobs && (a.Round? || a.id != id)
      ensures CallsIn(d, a, id) == 0 || (CallsIn(d, a, id) == 1 && a.n == Expiry(d.jobs[id]))
    {
      ActProgress(d, a, id);
      OneCall(d.jobs[id], CallsIn(d, a, id), a.n);
    }
    forall id | id in After(d, a).jobs
      ensures a.n <= Expiry(After(d, a).jobs[id])
    {
      if a.Received? && a.id == id {
        CommandedJob(d, a);
      } else {
        ActProgress(d, a, id);
        OneCall(d.jobs[id], CallsIn(d, a, id), a.n);
      }
    }
  }

  lemma AfterAt(d: Daemon, a: Act)
    requires Good(d) && Allowed(d, a)
    ensures After(d, a).last == a.n
  {
  }

  lemma OneCall(j: Job, calls: nat, n: nat)
    requires j.period > 0 && n <= Expiry(j)
    ensures calls > 0 && j.start + (j.fired + calls) * j.period <= n ==> calls == 1 && n == Expiry(j)
    ensures n <= Expiry(j.(fired := j.fired + calls))
  {
    if calls > 1 {
      MulMono(j.fired + 2, j.fired + calls, j.period);
    }
    MulMono(j.fired + 1, j.fired + calls + 1, j.period);
  }

  lemma CommandedJob(d: Daemon, a: Act)
    requires Good(d) && Prompt(d, a) && Allowed(d, a) && a.Received? && a.id in After(d, a).jobs
    ensures a.n <= Expiry(After(d, a).jobs[a.id])
  {
    hide Sampled, Receive, AfterSample, Perform, Ordered, NotEarly, Wait;
    ReceiveRel(d.s, d.jobs, d.last, a.id, a.order, a.n);
    SampleProgress(d, a.id, a.n);
    OrderedAhead(AfterSample(d.jobs - {a.id}, d.last, a.n), a.id, d.s.timers[a.id], a.order, a.n);
  }

  lemma OrderedAhead(others: map<Id, Job>, id: Id, t: Timer, o: Order, n: nat)
    requires id !in others && t.period > 0 && Timely(o, n) && (o.StartAt? ==> o.issued == n)
    ensures id in Ordered(others, id, t, o, n) ==> n <= Expiry(Ordered(others, id, t, o, n)[id])
  {
  }

  ghost predicate PromptRun(d: Daemon, acts: seq<Act>)
    requires Good(d) && NotLate(d)
    decreases |acts|
  {
    acts == [] || (Prompt(d, acts[0]) && (PromptStep(d, acts[0]); PromptRun(After(d, acts[0]), acts[1..])))
  }

  /** The calls of a job are made exactly when their periods have passed. */
  ghost predicate OnTime(j: Job, times: seq<nat>) {
    forall k | 0 <= k < |times| :: times[k] == j.start + (j.fired + k + 1) * j.period
  }

  /** Over any run of a prompt daemon in which nobody commands an active auto-reload
      timer, its callback for the k-th period is made exactly when that has passed. */
  lemma {:induction false} PromptlyOnTime(d: Daemon, acts: seq<Act>, id: Id)
    requires Good(d) && NotLate(d) && PromptRun(d, acts) && !Commands(acts, id)
    requires id in d.jobs && d.jobs[id].auto
    ensures AllowedRun(d, acts) && OnTime(d.jobs[id], CallTimes(d, acts, id))
    decreases |acts|
  {
    hide Good, NotLate, Prompt, Allowed, Perform, Jobs, After, CallsIn;
    if acts != [] {
      var a, j := acts[0], d.jobs[id];
      PromptStep(d, a);
      assert a.Round? || a.id != id;
      ActProgress(d, a, id);
      var d1, calls := After(d, a), CallsIn(d, a, id);
      assert d1.jobs[id] == j.(fired := j.fired + calls);
      assert forall i | 0 <= i < |acts[1..]| :: acts[1..][i] == acts[i + 1];
      PromptlyOnTime(d1, acts[1..], id);
      MoreOnTime(j, calls, a.n, CallTimes(d1, acts[1..], id));
    }
  }

  lemma MoreOnTime(j: Job, calls: nat, n: nat, rest: seq<nat>)
    requires calls == 0 || (calls == 1 && n == Expiry(j))
    requires OnTime(j.(fired := j.fired + calls), rest)
    ensures OnTime(j, Repeat(calls, n) + rest)
  {
    var times := Repeat(calls, n) + rest;
    forall k | 0 <= k < |times|
      ensures times[k] == j.start + (j.fired + k + 1) * j.period
    {
      if k >= calls {
        assert times[k] == rest[k - calls];
        assert j.fired + calls + (k - calls) + 1 == j.fired + k + 1;
      }
    }
  }
}
