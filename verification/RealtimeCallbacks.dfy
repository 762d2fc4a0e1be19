/** Timers that survive clock jumps (src/realtime-callbacks.ts): a sorted list of callbacks served
    by one re-armed real timer. The clock is a parameter of each step and may jump either way. */
module RealtimeCallbacks {
  import opened Common

  const TIMER_CHECK_PERIOD_MS := 1000

  /** func stands for the function and its parameters. */
  datatype Callback = Callback(runAt: int, func: string, key: nat)

  /** The one real timer: when it was armed and for how long. */
  datatype RealTimer = Idle | Armed(at: int, delay: int)

  /** toRun holds the callbacks that a running runCallbacks has taken and not yet called; the
      functions it calls may set and clear timers in between. */
  datatype Timers = Timers(list: seq<Callback>, count: nat, timer: RealTimer, toRun: seq<Callback>)

  const INITIAL := Timers([], 0, Idle, [])

  // ----- The specification of each operation

  /** The first index whose callback is due later than t, or the length. */
  function FirstLater(list: seq<Callback>, t: int): (i: nat)
    ensures i <= |list|
    ensures forall j :: 0 <= j < i ==> list[j].runAt <= t
    ensures i < |list| ==> list[i].runAt > t
  {
    if list == [] || list[0].runAt > t then 0 else 1 + FirstLater(list[1..], t)
  }

  function Schedule(list: seq<Callback>, now: int): RealTimer {
    if list == [] then Idle
    else
      var wait := list[0].runAt - now;
      Armed(now, if wait < TIMER_CHECK_PERIOD_MS then wait else TIMER_CHECK_PERIOD_MS)
  }

  function IndexOfKey(list: seq<Callback>, key: int): (i: nat)
    ensures i <= |list|
    ensures forall j :: 0 <= j < i ==> list[j].key != key
    ensures i < |list| ==> list[i].key == key
  {
    if list == [] || list[0].key == key then 0 else 1 + IndexOfKey(list[1..], key)
  }

  function Insert(list: seq<Callback>, cb: Callback): seq<Callback> {
    var i := FirstLater(list, cb.runAt);
    list[..i] + [cb] + list[i..]
  }

  function Remove(list: seq<Callback>, i: nat): seq<Callback> {
    if i < |list| then list[..i] + list[i + 1..] else list
  }

  /** now is the clock when the deadline is computed or the timer fires, armNow when the real timer is re-armed. */
  datatype Op =
    | Set(func: string, delayMs: int, now: int, armNow: int)
    | Clear(key: int, armNow: int)
    | Fire(now: int, armNow: int)
    | Invoke

  predicate Enabled(s: Timers, op: Op) {
    match op
    case Fire(_, _) => s.timer.Armed? && s.toRun == []
    case Invoke => s.toRun != []
    case _ => true
  }

  function NewCallback(s: Timers, op: Op): Callback
    requires op.Set?
  {
    Callback(op.now + (if op.delayMs < 0 then 0 else op.delayMs), op.func, s.count)
  }

  function Step(s: Timers, op: Op): Timers
    requires Enabled(s, op)
  {
    match op
    case Set(func, delayMs, now, armNow) =>
      var list := Insert(s.list, NewCallback(s, op));
      s.(list := list, count := s.count + 1, timer := Schedule(list, armNow))
    case Clear(key, armNow) =>
      var i := IndexOfKey(s.list, key);
      var list := Remove(s.list, i);
      s.(list := list, timer := if s.list != [] && i == 0 then Schedule(list, armNow) else s.timer)
    case Fire(now, armNow) =>
      var i := FirstLater(s.list, now);
      s.(list := s.list[i..], timer := Schedule(s.list[i..], armNow), toRun := s.list[..i])
    case Invoke =>
      s.(toRun := s.toRun[1..])
  }

  // ----- The code

  /** Search in a sorted array; it returns the first index at which f is positive. */
  method BinarySearch<T>(array_: seq<T>, f: T -> int) returns (idx: nat)
    requires forall i, j :: 0 <= i < j < |array_| && f(array_[i]) > 0 ==> f(array_[j]) > 0
    ensures idx <= |array_|
    ensures forall i :: 0 <= i < idx ==> f(array_[i]) <= 0
    ensures forall i :: idx <= i < |array_| ==> f(array_[i]) > 0
  {
    var min, max := 0, |array_|;
    while min < max
      invariant 0 <= min <= max <= |array_|
      invariant forall i :: 0 <= i < min ==> f(array_[i]) <= 0
      invariant forall i :: max <= i < |array_| ==> f(array_[i]) > 0
    {
      var mid := (min + max) / 2;
      if f(array_[mid]) > 0 {
        max := mid;
      } else {
        min := mid + 1;
      }
    }
    idx := min;
  }

  method InsertSorted(list: seq<Callback>, data: Callback) returns (list': seq<Callback>)
    requires Sorted(list)
    ensures list' == Insert(list, data)
  {
    var idx := BinarySearch(list, (el: Callback) => el.runAt - data.runAt);
    assert forall i :: 0 <= i < idx ==> list[i].runAt <= data.runAt;
    assert idx < |list| ==> list[idx].runAt > data.runAt;
    list' := list[..idx] + [data] + list[idx..];
  }

  class TimerQueue {
    var callbackList: seq<Callback>
    var count: nat
    var realTimer: RealTimer
    var callbacksToRun: seq<Callback>

    ghost function State(): Timers
      reads this
    {
      Timers(callbackList, count, realTimer, callbacksToRun)
    }

    constructor ()
      ensures State() == INITIAL
    {
      callbackList, count, realTimer, callbacksToRun := [], 0, Idle, [];
    }

    method SetTimeout(func: string, delayMs: int, now: int, armNow: int) returns (key: nat)
      requires Inv(State())
      modifies this
      ensures State() == Step(old(State()), Set(func, delayMs, now, armNow)) && Inv(State())
      ensures key == old(count)
    {
      StepKeepsInv(State(), Set(func, delayMs, now, armNow));
      var runAt := now + if delayMs < 0 then 0 else delayMs;
      key := count;
      count := count + 1;
      var data := Callback(runAt, func, key);
      callbackList := InsertSorted(callbackList, data);
      ScheduleRealCallback(armNow);
    }

    method ClearTimeout(key: int, armNow: int)
      requires Inv(State())
      modifies this
      ensures State() == Step(old(State()), Clear(key, armNow)) && Inv(State())
    {
      StepKeepsInv(State(), Clear(key, armNow));
      if |callbackList| == 0 { return; }
      ghost var before := callbackList;
      var i := 0;
      while i < |callbackList|
        invariant 0 <= i <= |callbackList| && callbackList == before
        invariant forall j :: 0 <= j < i ==> callbackList[j].key != key
        invariant State() == old(State())
      {
        if callbackList[i].key == key {
          break;
        }
        i := i + 1;
      }
      assert i == IndexOfKey(before, key);
      if i < |callbackList| {
        callbackList := callbackList[..i] + callbackList[i + 1..];
      }
      if i == 0 {
        ScheduleRealCallback(armNow);
      }
    }

    method ScheduleRealCallback(now: int)
      modifies this`realTimer
      ensures realTimer == Schedule(callbackList, now)
    {
      realTimer := Idle;
      if callbackList == [] { return; }
      var wait := callbackList[0].runAt - now;
      realTimer := Armed(now, if wait < TIMER_CHECK_PERIOD_MS then wait else TIMER_CHECK_PERIOD_MS);
    }

    /** The real timer fires: take what is due, and re-arm before running any of it. */
    method RunCallbacks(now: int, armNow: int)
      requires Inv(State()) && Enabled(State(), Fire(now, armNow))
      modifies this
      ensures State() == Step(old(State()), Fire(now, armNow)) && Inv(State())
    {
      StepKeepsInv(State(), Fire(now, armNow));
      realTimer := Idle;
      callbacksToRun, callbackList := TakeDue(callbackList, now);
      ScheduleRealCallback(armNow);
    }

    /** The loop that takes the callbacks that are due off the front of the list. */
    method TakeDue(list: seq<Callback>, now: int) returns (taken: seq<Callback>, rest: seq<Callback>)
      ensures taken == list[..FirstLater(list, now)] && rest == list[FirstLater(list, now)..]
    {
      taken, rest := [], list;
      while rest != [] && rest[0].runAt <= now
        invariant |taken| <= |list| && taken == list[..|taken|] && rest == list[|taken|..]
        invariant forall j :: 0 <= j < |taken| ==> taken[j].runAt <= now
        decreases |rest|
      {
        taken := taken + [rest[0]];
        rest := rest[1..];
      }
      assert |taken| == FirstLater(list, now);
    }

    /** One round of the loop that calls the taken callbacks; the call itself is the caller's next steps. */
    method InvokeNext() returns (cb: Callback)
      requires Inv(State()) && Enabled(State(), Invoke)
      modifies this
      ensures State() == Step(old(State()), Invoke) && Inv(State())
      ensures cb == old(callbacksToRun)[0]
    {
      StepKeepsInv(State(), Invoke);
      cb := callbacksToRun[0];
      callbacksToRun := callbacksToRun[1..];
    }
  }

  // ----- The invariant

  /** Earlier deadline first; of equal deadlines, the one set first. */
  predicate Before(a: Callback, b: Callback) {
    a.runAt < b.runAt || (a.runAt == b.runAt && a.key < b.key)
  }

  ghost predicate Sorted(list: seq<Callback>) {
    forall i, j :: 0 <= i < j < |list| ==> Before(list[i], list[j])
  }

  ghost function Keys(list: seq<Callback>): set<int> {
    set i | 0 <= i < |list| :: list[i].key
  }

  ghost predicate DistinctKeys(list: seq<Callback>) {
    forall i, j :: 0 <= i < j < |list| ==> list[i].key != list[j].key
  }

  /** Whenever callbacks are pending, the real timer is armed for the first deadline or the check
      period after it was armed, whichever is earlier; otherwise it is idle. */
  ghost predicate WellArmed(list: seq<Callback>, timer: RealTimer) {
    if list == [] then timer == Idle
    else timer.Armed? && timer == Schedule(list, timer.at)
  }

  ghost predicate Inv(s: Timers) {
    && Sorted(s.list) && DistinctKeys(s.list)
    && Sorted(s.toRun) && DistinctKeys(s.toRun)
    && (forall i :: 0 <= i < |s.list| ==> s.list[i].key < s.count)
    && (forall i :: 0 <= i < |s.toRun| ==> s.toRun[i].key < s.count)
    && (forall i, j :: 0 <= i < |s.list| && 0 <= j < |s.toRun| ==> s.list[i].key != s.toRun[j].key)
    && WellArmed(s.list, s.timer)
  }

  lemma {:induction false} InsertKeepsOrder(list: seq<Callback>, cb: Callback)
    requires Sorted(list) && DistinctKeys(list)
    requires forall i :: 0 <= i < |list| ==> list[i].key < cb.key
    ensures Sorted(Insert(list, cb)) && DistinctKeys(Insert(list, cb))
  {
    var n := FirstLater(list, cb.runAt);
    LaterFrom(list, cb.runAt, n);
    SortedInsert(list, cb, n, Insert(list, cb));
  }

  lemma {:induction false} SortedInsert(list: seq<Callback>, cb: Callback, n: nat, list': seq<Callback>)
    requires Sorted(list) && DistinctKeys(list) && n <= |list| && list' == list[..n] + [cb] + list[n..]
    requires forall i :: 0 <= i < |list| ==> list[i].key != cb.key
    requires forall i :: 0 <= i < n ==> Before(list[i], cb)
    requires forall i :: n <= i < |list| ==> Before(cb, list[i])
    ensures Sorted(list') && DistinctKeys(list')
  {
    forall i, j | 0 <= i < j < |list'|
      ensures Before(list'[i], list'[j]) && list'[i].key != list'[j].key
    {
      assert list'[i] == if i < n then list[i] else if i == n then cb else list[i - 1];
      assert list'[j] == if j < n then list[j] else if j == n then cb else list[j - 1];
    }
  }

  /** In a sorted list everything from the first later callback on is later. */
  lemma {:induction false} LaterFrom(list: seq<Callback>, t: int, n: nat)
    requires Sorted(list) && n == FirstLater(list, t)
    ensures forall i :: n <= i < |list| ==> list[i].runAt > t
  {
    forall i | n <= i < |list|
      ensures list[i].runAt > t
    {
      if i > n { assert Before(list[n], list[i]); }
    }
  }

  lemma {:induction false} StepKeepsInv(s: Timers, op: Op)
    requires Inv(s) && Enabled(s, op)
    ensures Inv(Step(s, op))
  {
    match op {
      case Set(_, _, _, _) => SetKeepsInv(s, op);
      case Clear(_, _) => ClearKeepsInv(s, op);
      case Fire(now, _) => FireKeepsInv(s, op);
      case Invoke =>
    }
  }

  lemma {:induction false} SetKeepsInv(s: Timers, op: Op)
    requires Inv(s) && op.Set?
    ensures Inv(Step(s, op))
  {
    var cb := NewCallback(s, op);
    InsertKeepsOrder(s.list, cb);
    var n, list' := FirstLater(s.list, cb.runAt), Insert(s.list, cb);
    forall i | 0 <= i < |list'|
      ensures list'[i] == if i < n then s.list[i] else if i == n then cb else s.list[i - 1]
    {
    }
  }

  lemma {:induction false} ClearKeepsInv(s: Timers, op: Op)
    requires Inv(s) && op.Clear?
    ensures Inv(Step(s, op))
  {
    var n := IndexOfKey(s.list, op.key);
    var list' := Remove(s.list, n);
    forall i | 0 <= i < |list'|
      ensures list'[i] == s.list[if i < n then i else i + 1]
    {
    }
  }

  lemma {:induction false} FireKeepsInv(s: Timers, op: Op)
    requires Inv(s) && op.Fire? && Enabled(s, op)
    ensures Inv(Step(s, op))
  {
  }

  // ----- Refinement of a map of deadlines

  /** What is pending, by key. */
  ghost function Pending(list: seq<Callback>): map<int, Callback>
    requires DistinctKeys(list)
  {
    map i | 0 <= i < |list| :: list[i].key := list[i]
  }

  /** list holds exactly the callbacks of m, by deadline and then by age. */
  ghost predicate InOrder(list: seq<Callback>, m: map<int, Callback>) {
    && Sorted(list)
    && (forall i :: 0 <= i < |list| ==> list[i].key in m && m[list[i].key] == list[i])
    && (forall k :: k in m ==> m[k] in list)
  }

  /** There is only one such order. */
  lemma {:induction false} OrderIsUnique(a: seq<Callback>, b: seq<Callback>, m: map<int, Callback>)
    requires InOrder(a, m) && InOrder(b, m)
    ensures a == b
  {
    SameSorted(a, b);
  }

  lemma {:induction false} SameSorted(a: seq<Callback>, b: seq<Callback>)
    requires Sorted(a) && Sorted(b)
    requires forall x :: x in a <==> x in b
    ensures a == b
  {
    if a == [] {
      EmptyOrNot(b);
    } else {
      assert a[0] in b && b[0] in a;
      HeadIsFirst(a, b[0]);
      HeadIsFirst(b, a[0]);
      forall x
        ensures x in a[1..] <==> x in b[1..]
      {
        TailMember(a, x);
        TailMember(b, x);
      }
      SameSorted(a[1..], b[1..]);
      assert a == [a[0]] + a[1..] && b == [b[0]] + b[1..];
    }
  }

  lemma {:induction false} EmptyOrNot(a: seq<Callback>)
    ensures a == [] || a[0] in a
  {
  }

  lemma {:induction false} HeadIsFirst(a: seq<Callback>, x: Callback)
    requires Sorted(a) && x in a
    ensures x == a[0] || Before(a[0], x)
  {
  }

  lemma {:induction false} TailMember(a: seq<Callback>, x: Callback)
    requires a != [] && Sorted(a)
    ensures x in a[1..] <==> x in a && x != a[0]
  {
    if x in a && x != a[0] {
      var i :| 0 <= i < |a| && a[i] == x;
      assert a[1..][i - 1] == x;
    }
    if x in a[1..] {
      var i :| 0 <= i < |a[1..]| && a[1..][i] == x;
      assert Before(a[0], a[i + 1]);
    }
  }

  ghost function DueBy(m: map<int, Callback>, now: int): map<int, Callback> {
    map k | k in m && m[k].runAt <= now :: m[k]
  }

  /** Each operation is the obvious one on the map of pending callbacks; when the timer fires,
      exactly what is due is taken, in the one order there is. */
  ghost predicate Refines(s: Timers, op: Op, s': Timers)
    requires DistinctKeys(s.list) && DistinctKeys(s'.list)
  {
    var m, m' := Pending(s.list), Pending(s'.list);
    match op
    case Set(func, delayMs, now, _) =>
      && s.count !in m && m' == m[s.count := Callback(now + (if delayMs < 0 then 0 else delayMs), func, s.count)]
      && s'.toRun == s.toRun
    case Clear(key, _) => m' == m - {key} && s'.toRun == s.toRun
    case Fire(now, _) => m' == m - DueBy(m, now).Keys && InOrder(s'.toRun, DueBy(m, now))
    case Invoke => m' == m && |s.toRun| > 0 && s'.toRun == s.toRun[1..]
  }

  // ----- When the real timer is armed, and for how long

  ghost predicate IsFirst(m: map<int, Callback>, k: int) {
    k in m && forall j :: j in m && j != k ==> Before(m[k], m[j])
  }

  /** Armed at that time of the clock, for the earliest deadline, or for the check period if the
      deadline is not before its end. */
  ghost predicate ArmedFor(timer: RealTimer, now: int, deadline: int) {
    && timer.Armed? && timer.at == now && timer.delay <= 1000
    && (now + timer.delay == deadline || (timer.delay == 1000 && deadline >= now + 1000))
  }

  ghost predicate ArmedForFirst(timer: RealTimer, now: int, m: map<int, Callback>) {
    if m == map[] then timer == Idle
    else exists k :: IsFirst(m, k) && ArmedFor(timer, now, m[k].runAt)
  }

  /** Setting a callback and firing re-arm the timer, and so does clearing the first callback. */
  ghost predicate ReArms(s: Timers, op: Op)
    requires DistinctKeys(s.list)
  {
    op.Set? || op.Fire? || (op.Clear? && IsFirst(Pending(s.list), op.key))
  }

  ghost predicate RefinesTimer(s: Timers, op: Op, s': Timers)
    requires DistinctKeys(s.list) && DistinctKeys(s'.list)
  {
    if ReArms(s, op) then ArmedForFirst(s'.timer, op.armNow, Pending(s'.list)) else s'.timer == s.timer
  }

  lemma {:induction false} HeadIsFirstPending(list: seq<Callback>)
    requires Sorted(list) && DistinctKeys(list)
    ensures list == [] ==> Pending(list) == map[]
    ensures list != [] ==> list[0].key in Pending(list) && Pending(list)[list[0].key] == list[0]
    ensures forall k :: IsFirst(Pending(list), k) <==> list != [] && k == list[0].key
  {
    PendingIs(list, Pending(list));
    if list != [] {
      assert list[0] in list;
      forall k | k in Pending(list) && k != list[0].key
        ensures Before(list[0], Pending(list)[k]) && !IsFirst(Pending(list), k)
      {
        HeadIsFirst(list, Pending(list)[k]);
      }
    }
  }

  lemma {:induction false} ScheduleArms(list: seq<Callback>, now: int)
    requires Sorted(list) && DistinctKeys(list)
    ensures ArmedForFirst(Schedule(list, now), now, Pending(list))
  {
    HeadIsFirstPending(list);
    if list != [] { assert IsFirst(Pending(list), list[0].key); }
  }

  lemma {:induction false} ClearsFirstIff(list: seq<Callback>, key: int)
    requires Sorted(list) && DistinctKeys(list)
    ensures IsFirst(Pending(list), key) <==> list != [] && IndexOfKey(list, key) == 0
  {
    HeadIsFirstPending(list);
  }

  lemma {:induction false} TimerRefines(s: Timers, op: Op)
    requires Inv(s) && Enabled(s, op) && Inv(Step(s, op))
    ensures RefinesTimer(s, op, Step(s, op))
  {
    var s' := Step(s, op);
    if op.Clear? { ClearsFirstIff(s.list, op.key); }
    if !op.Invoke? { ScheduleArms(s'.list, op.armNow); }
  }

  lemma {:induction false} StepRefines(s: Timers, op: Op)
    requires Inv(s) && Enabled(s, op)
    ensures Inv(Step(s, op)) && Refines(s, op, Step(s, op)) && RefinesTimer(s, op, Step(s, op))
  {
    StepKeepsInv(s, op);
    TimerRefines(s, op);
    match op {
      case Set(_, _, _, _) => InsertRefines(s.list, NewCallback(s, op));
      case Clear(key, _) => RemoveRefines(s.list, key);
      case Fire(now, _) => TakeRefines(s.list, now);
      case Invoke =>
    }
  }

  /** list holds exactly the callbacks of m. */
  ghost predicate Holds(list: seq<Callback>, m: map<int, Callback>) {
    && (forall cb :: cb in list ==> cb.key in m && m[cb.key] == cb)
    && (forall k :: k in m ==> m[k] in list && m[k].key == k)
  }

  lemma {:induction false} PendingIs(list: seq<Callback>, m: map<int, Callback>)
    requires DistinctKeys(list)
    ensures Holds(list, m) <==> Pending(list) == m
  {
    var p := Pending(list);
    forall k | k in p
      ensures p[k] in list && p[k].key == k
    {
    }
    forall cb | cb in list
      ensures cb.key in p && p[cb.key] == cb
    {
      var i :| 0 <= i < |list| && list[i] == cb;
      assert list[i].key in p;
    }
    if Holds(list, m) {
      assert forall k :: k in p <==> k in m;
    }
  }

  lemma {:induction false} InsertRefines(list: seq<Callback>, cb: Callback)
    requires DistinctKeys(list) && DistinctKeys(Insert(list, cb))
    requires forall i :: 0 <= i < |list| ==> list[i].key < cb.key
    ensures Pending(Insert(list, cb)) == Pending(list)[cb.key := cb]
  {
    PendingIs(list, Pending(list));
    InsertHolds(list, cb, Pending(list));
    PendingIs(Insert(list, cb), Pending(list)[cb.key := cb]);
  }

  lemma {:induction false} InsertHolds(list: seq<Callback>, cb: Callback, m: map<int, Callback>)
    requires Holds(list, m)
    requires forall i :: 0 <= i < |list| ==> list[i].key < cb.key
    ensures Holds(Insert(list, cb), m[cb.key := cb])
  {
    var n := FirstLater(list, cb.runAt);
    assert list == list[..n] + list[n..];
    HoldsInsert(list[..n], cb, list[n..], m);
  }

  lemma {:induction false} HoldsInsert(a: seq<Callback>, cb: Callback, b: seq<Callback>, m: map<int, Callback>)
    requires Holds(a + b, m) && cb.key !in m
    ensures Holds(a + [cb] + b, m[cb.key := cb])
  {
    assert forall x :: x in a + b <==> x in a || x in b;
    assert forall x :: x in a + [cb] + b <==> x in a || x == cb || x in b;
  }

  lemma {:induction false} RemoveRefines(list: seq<Callback>, key: int)
    requires DistinctKeys(list) && DistinctKeys(Remove(list, IndexOfKey(list, key)))
    ensures Pending(Remove(list, IndexOfKey(list, key))) == Pending(list) - {key}
  {
    PendingIs(list, Pending(list));
    RemoveHolds(list, key, Pending(list));
    PendingIs(Remove(list, IndexOfKey(list, key)), Pending(list) - {key});
  }

  lemma {:induction false} RemoveHolds(list: seq<Callback>, key: int, m: map<int, Callback>)
    requires DistinctKeys(list) && Holds(list, m)
    ensures Holds(Remove(list, IndexOfKey(list, key)), m - {key})
  {
    var n := IndexOfKey(list, key);
    if n < |list| {
      RemoveFound(list, n, m);
    } else if key in m {
      assert m[key] in list;
    }
  }

  lemma {:induction false} RemoveFound(list: seq<Callback>, n: nat, m: map<int, Callback>)
    requires n < |list| && DistinctKeys(list) && Holds(list, m)
    ensures Holds(Remove(list, n), m - {list[n].key})
  {
    assert list == list[..n] + [list[n]] + list[n + 1..];
    forall x | x in list[..n] || x in list[n + 1..]
      ensures x.key != list[n].key
    {
      if x in list[..n] {
        var i :| 0 <= i < n && list[..n][i] == x;
        assert list[i] == x;
      } else {
        var i :| 0 <= i < |list| - n - 1 && list[n + 1..][i] == x;
        assert list[n + 1 + i] == x;
      }
    }
    HoldsRemove(list[..n], list[n], list[n + 1..], m);
  }

  lemma {:induction false} HoldsRemove(a: seq<Callback>, cb: Callback, b: seq<Callback>, m: map<int, Callback>)
    requires Holds(a + [cb] + b, m)
    requires forall x :: x in a || x in b ==> x.key != cb.key
    ensures Holds(a + b, m - {cb.key})
  {
    assert forall x :: x in a + b <==> x in a || x in b;
    assert forall x :: x in a + [cb] + b <==> x in a || x == cb || x in b;
  }

  lemma {:induction false} TakeRefines(list: seq<Callback>, now: int)
    requires Sorted(list) && DistinctKeys(list)
    ensures var n := FirstLater(list, now);
            && DistinctKeys(list[n..])
            && Pending(list[n..]) == Pending(list) - DueBy(Pending(list), now).Keys
            && InOrder(list[..n], DueBy(Pending(list), now))
  {
    var n, m := FirstLater(list, now), Pending(list);
    PendingIs(list, m);
    TakeHolds(list, now, n, m);
    PendingIs(list[n..], m - DueBy(m, now).Keys);
  }

  lemma {:induction false} TakeHolds(list: seq<Callback>, now: int, n: nat, m: map<int, Callback>)
    requires Sorted(list) && Holds(list, m) && n == FirstLater(list, now)
    ensures Holds(list[n..], m - DueBy(m, now).Keys)
    ensures InOrder(list[..n], DueBy(m, now))
  {
    LaterFrom(list, now, n);
    SplitAt(list, n, now);
    HoldsSplit(list[..n], list[n..], m, now);
    HeldInOrder(list[..n], DueBy(m, now));
  }

  lemma {:induction false} SplitAt(list: seq<Callback>, n: nat, now: int)
    requires n <= |list| && Sorted(list)
    requires forall i :: 0 <= i < n ==> list[i].runAt <= now
    requires forall i :: n <= i < |list| ==> list[i].runAt > now
    ensures list[..n] + list[n..] == list
    ensures Sorted(list[..n])
    ensures forall i :: 0 <= i < n ==> list[..n][i].runAt <= now
    ensures forall i :: 0 <= i < |list| - n ==> list[n..][i].runAt > now
  {
  }

  lemma {:induction false} HeldInOrder(list: seq<Callback>, m: map<int, Callback>)
    requires Sorted(list) && Holds(list, m)
    ensures InOrder(list, m)
  {
    forall i | 0 <= i < |list|
      ensures list[i].key in m && m[list[i].key] == list[i]
    {
      assert list[i] in list;
    }
  }

  lemma {:induction false} HoldsSplit(a: seq<Callback>, b: seq<Callback>, m: map<int, Callback>, now: int)
    requires Holds(a + b, m)
    requires forall i :: 0 <= i < |a| ==> a[i].runAt <= now
    requires forall i :: 0 <= i < |b| ==> b[i].runAt > now
    ensures Holds(a, DueBy(m, now)) && Holds(b, m - DueBy(m, now).Keys)
  {
    assert forall x :: x in a + b <==> x in a || x in b;
  }

  /** The real timer never sleeps past the first deadline, nor longer than the check period. */
  lemma {:induction false} NeverSleepsLate(s: Timers, i: nat)
    requires Inv(s) && i < |s.list|
    ensures s.timer.Armed?
    ensures s.timer.at + s.timer.delay <= s.list[i].runAt
    ensures s.timer.delay <= TIMER_CHECK_PERIOD_MS
  {
    if i > 0 { assert Before(s.list[0], s.list[i]); }
  }

  // ----- Whole runs

  /** A state with everything called so far, and the keys that were cleared while pending. */
  datatype History = History(s: Timers, ran: seq<Callback>, cleared: set<int>)

  ghost function Record(h: History, op: Op): History
    requires Enabled(h.s, op)
  {
    History(Step(h.s, op),
            if op.Invoke? then h.ran + [h.s.toRun[0]] else h.ran,
            if op.Clear? && op.key in Keys(h.s.list) then h.cleared + {op.key} else h.cleared)
  }

  /** Every key handed out is in exactly one place: pending, taken, called (once) or cleared. */
  ghost predicate Accounted(h: History) {
    && (forall k :: 0 <= k < h.s.count <==> k in Keys(h.s.list) + Keys(h.s.toRun) + Keys(h.ran) + h.cleared)
    && Keys(h.s.list) !! Keys(h.s.toRun) !! Keys(h.ran) !! h.cleared
    && DistinctKeys(h.ran)
  }

  lemma {:induction false} RecordKeepsAccounts(h: History, op: Op)
    requires Inv(h.s) && Accounted(h) && Enabled(h.s, op)
    ensures Inv(Record(h, op).s) && Accounted(Record(h, op))
  {
    StepRefines(h.s, op);
    PendingKeys(h.s.list);
    PendingKeys(Step(h.s, op).list);
    match op {
      case Set(_, _, _, _) => SetAccounted(h, op);
      case Clear(_, _) => ClearAccounted(h, op);
      case Fire(now, _) =>
        SplitKeys(h.s.list, FirstLater(h.s.list, now));
        FireAccounted(h, op);
      case Invoke => InvokeAccounted(h);
    }
  }

  lemma {:induction false} InvokeAccounted(h: History)
    requires Accounted(h) && h.s.toRun != [] && DistinctKeys(h.s.toRun)
    ensures Accounted(Record(h, Invoke))
  {
    SplitKeys(h.s.toRun, 1);
    AppendKeys(h.ran, h.s.toRun[0]);
    assert h.s.toRun[0].key in Keys(h.s.toRun);
    DistinctAppend(h.ran, h.s.toRun[0]);
    var h' := Record(h, Invoke);
    assert Keys(h.s.toRun) + Keys(h.ran) == Keys(h'.s.toRun) + Keys(h'.ran);
  }

  lemma {:induction false} SetAccounted(h: History, op: Op)
    requires Accounted(h) && op.Set?
    requires Keys(Step(h.s, op).list) == Keys(h.s.list) + {h.s.count}
    ensures Accounted(Record(h, op))
  {
    var h' := Record(h, op);
    assert h.s.count !in Keys(h.s.list) + Keys(h.s.toRun) + Keys(h.ran) + h.cleared;
    forall k
      ensures 0 <= k < h'.s.count <==> k in Keys(h'.s.list) + Keys(h'.s.toRun) + Keys(h'.ran) + h'.cleared
    {
      assert 0 <= k < h.s.count <==> k in Keys(h.s.list) + Keys(h.s.toRun) + Keys(h.ran) + h.cleared;
    }
  }

  lemma {:induction false} ClearAccounted(h: History, op: Op)
    requires Accounted(h) && op.Clear?
    requires Keys(Step(h.s, op).list) == Keys(h.s.list) - {op.key}
    ensures Accounted(Record(h, op))
  {
    var h' := Record(h, op);
    assert Keys(h.s.list) + h.cleared == Keys(h'.s.list) + h'.cleared;
  }

  lemma {:induction false} FireAccounted(h: History, op: Op)
    requires Accounted(h) && op.Fire? && Enabled(h.s, op)
    requires Keys(h.s.list) == Keys(Step(h.s, op).toRun) + Keys(Step(h.s, op).list)
    requires Keys(Step(h.s, op).toRun) !! Keys(Step(h.s, op).list)
    ensures Accounted(Record(h, op))
  {
    assert Keys(h.s.toRun) == {};
    var h' := Record(h, op);
    assert Keys(h.s.list) + Keys(h.s.toRun) == Keys(h'.s.list) + Keys(h'.s.toRun);
  }

  lemma {:induction false} DistinctAppend(list: seq<Callback>, cb: Callback)
    requires DistinctKeys(list) && cb.key !in Keys(list)
    ensures DistinctKeys(list + [cb])
  {
    forall i | 0 <= i < |list|
      ensures list[i].key != cb.key
    {
      assert list[i].key in Keys(list);
    }
  }

  lemma {:induction false} PendingKeys(list: seq<Callback>)
    requires DistinctKeys(list)
    ensures Pending(list).Keys == Keys(list)
  {
  }

  lemma {:induction false} SplitKeys(list: seq<Callback>, n: nat)
    requires n <= |list| && DistinctKeys(list)
    ensures Keys(list) == Keys(list[..n]) + Keys(list[n..])
    ensures Keys(list[..n]) !! Keys(list[n..])
    ensures n == 1 ==> Keys(list[..n]) == {list[0].key}
  {
    forall k | k in Keys(list)
      ensures k in Keys(list[..n]) + Keys(list[n..])
    {
      var i :| 0 <= i < |list| && list[i].key == k;
      if i < n { assert list[..n][i].key == k; } else { assert list[n..][i - n].key == k; }
    }
    if n == 1 { assert list[..n][0] == list[0]; }
  }

  lemma {:induction false} AppendKeys(list: seq<Callback>, cb: Callback)
    ensures Keys(list + [cb]) == Keys(list) + {cb.key}
  {
    var list' := list + [cb];
    assert list'[|list|] == cb;
    forall k | k in Keys(list)
      ensures k in Keys(list')
    {
      var i :| 0 <= i < |list| && list[i].key == k;
      assert list'[i].key == k;
    }
  }

  ghost function Run(ops: seq<Op>): Option<History> {
    if ops == [] then Some(History(INITIAL, [], {}))
    else
      var before := Run(ops[..|ops| - 1]);
      if before.Some? && Enabled(before.value.s, ops[|ops| - 1]) then Some(Record(before.value, ops[|ops| - 1])) else None
  }

  /** Over every run: the list stays in order, the timer armed, and every key is accounted for; so
      a callback is called at most once, and never if it was cleared while pending. */
  lemma {:induction false} RunsAreAccounted(ops: seq<Op>)
    requires Run(ops).Some?
    ensures var h := Run(ops).value;
            Inv(h.s) && Accounted(h)
  {
    if ops == [] {
      assert Keys([]) == {};
    } else {
      RunsAreAccounted(ops[..|ops| - 1]);
      RecordKeepsAccounts(Run(ops[..|ops| - 1]).value, ops[|ops| - 1]);
    }
  }

  /** A key that was cleared while pending is never among those called, however the run goes on. */
  lemma {:induction false} ClearedNeverRuns(ops: seq<Op>, n: nat, key: int)
    requires Run(ops).Some? && n <= |ops| && Run(ops[..n]).Some? && key in Run(ops[..n]).value.cleared
    ensures key in Run(ops).value.cleared && key !in Keys(Run(ops).value.ran)
    ensures key !in Keys(Run(ops).value.s.toRun)
  {
    RunsAreAccounted(ops);
    if n == |ops| {
      assert ops[..n] == ops;
    } else {
      assert ops[..|ops| - 1][..n] == ops[..n];
      ClearedNeverRuns(ops[..|ops| - 1], n, key);
    }
  }

  ghost predicate ReArmsAt(ops: seq<Op>, i: nat)
    requires i < |ops|
  {
    var before := Run(ops[..i]);
    before.Some? && DistinctKeys(before.value.s.list) && ReArms(before.value.s, ops[i])
  }

  /** The i-th operation of a run re-armed the timer, and none has since. */
  ghost predicate LastReArm(ops: seq<Op>, i: nat) {
    && i < |ops| && ReArmsAt(ops, i)
    && forall j: nat :: i < j < |ops| ==> !ReArmsAt(ops, j)
  }

  lemma {:induction false} SameReArm(ops: seq<Op>, n: nat, j: nat)
    requires j < n <= |ops|
    ensures ReArmsAt(ops[..n], j) <==> ReArmsAt(ops, j)
  {
    assert ops[..n][..j] == ops[..j];
  }

  lemma {:induction false} LastReArmSnoc(ops: seq<Op>, i: nat)
    requires ops != [] && LastReArm(ops[..|ops| - 1], i) && !ReArmsAt(ops, |ops| - 1)
    ensures LastReArm(ops, i)
  {
    var n := |ops| - 1;
    SameReArm(ops, n, i);
    forall j: nat | i < j < |ops|
      ensures !ReArmsAt(ops, j)
    {
      if j < n { SameReArm(ops, n, j); }
    }
  }

  /** The timer of a run's last state is armed for the first callback, at that time of the clock. */
  ghost predicate RunArmed(h: History, now: int) {
    DistinctKeys(h.s.list) && ArmedForFirst(h.s.timer, now, Pending(h.s.list))
  }

  /** Over every run, whenever callbacks are pending the real timer is armed: since the last operation
      that re-armed it, at the time of the clock then, and for what is now the earliest deadline or
      the check period. */
  lemma {:induction false} ArmedSinceLastReArm(ops: seq<Op>) returns (i: nat)
    requires Run(ops).Some? && Run(ops).value.s.list != []
    ensures LastReArm(ops, i) && !ops[i].Invoke? && RunArmed(Run(ops).value, ops[i].armNow)
  {
    var n := |ops| - 1;
    RunsAreAccounted(ops[..n]);
    var h := Run(ops[..n]).value;
    if ReArms(h.s, ops[n]) {
      i := n;
      ReArmedNow(h, ops[n]);
      assert ReArmsAt(ops, n);
    } else {
      StaysPending(h.s, ops[n]);
      i := ArmedSinceLastReArm(ops[..n]);
      assert !ReArmsAt(ops, n);
      LastReArmSnoc(ops, i);
      StaysArmed(h, ops[n], ops[i].armNow);
    }
  }

  lemma {:induction false} ReArmedNow(h: History, op: Op)
    requires Inv(h.s) && Enabled(h.s, op) && ReArms(h.s, op)
    ensures RunArmed(Record(h, op), op.armNow)
  {
    StepRefines(h.s, op);
  }

  lemma {:induction false} StaysArmed(h: History, op: Op, now: int)
    requires Inv(h.s) && Enabled(h.s, op) && !ReArms(h.s, op) && h.s.list != [] && Step(h.s, op).list != [] && RunArmed(h, now)
    ensures RunArmed(Record(h, op), now)
  {
    StepRefines(h.s, op);
    SameFirst(h.s, op, now);
  }

  lemma {:induction false} StaysPending(s: Timers, op: Op)
    requires Inv(s) && Enabled(s, op) && !ReArms(s, op) && Step(s, op).list != []
    ensures s.list != []
  {
  }

  /** A step that does not re-arm leaves the first callback, and so the timer is right for it still. */
  lemma {:induction false} SameFirst(s: Timers, op: Op, now: int)
    requires Inv(s) && Enabled(s, op) && !ReArms(s, op) && Inv(Step(s, op)) && s.list != [] && Step(s, op).list != []
    requires ArmedForFirst(s.timer, now, Pending(s.list)) && Step(s, op).timer == s.timer
    ensures ArmedForFirst(Step(s, op).timer, now, Pending(Step(s, op).list))
  {
    var s' := Step(s, op);
    HeadIsFirstPending(s.list);
    HeadIsFirstPending(s'.list);
    if op.Clear? { ClearsFirstIff(s.list, op.key); }
    assert s'.list[0] == s.list[0];
    assert IsFirst(Pending(s'.list), s'.list[0].key);
  }
}
