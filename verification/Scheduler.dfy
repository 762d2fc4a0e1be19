/** The event scheduler (src/scheduler.ts): FIFO queues of events to send, each served by at most
    one request or one retry timer at a time. Promises and timers are continuations that complete
    in any order. */
module Scheduler {
  import opened Common

  // ----- Events, errors and algorithms

  datatype Event = Event(eventId: string, kind: string, hasAssociation: bool)

  /** A failed request; a missing field is 0 or "". */
  datatype SendError = SendError(httpStatus: int, cors: string, name: string, retryAfterMs: int)

  datatype Algorithms = Algorithms(retry: (Event, nat, SendError) -> int, queue: Event -> Option<string>)

  function TwoTo(n: nat): nat {
    if n == 0 then 1 else 2 * TwoTo(n - 1)
  }

  function RetryBackoffRateLimit(event: Event, attempts: nat, err: SendError): int {
    if err.httpStatus == 400 || err.httpStatus == 403 || err.httpStatus == 401 then -1
    else if err.cors == "rejected" then -1
    else if err.name == "M_TOO_LARGE" then -1
    else if err.name == "M_LIMIT_EXCEEDED" && err.retryAfterMs > 0 then err.retryAfterMs
    else if attempts > 4 then -1
    else 1000 * TwoTo(attempts)
  }

  function QueueMessages(event: Event): Option<string> {
    if event.kind == "m.room.message" || event.hasAssociation then Some("message") else None
  }

  const DEFAULT_ALGORITHMS := Algorithms((e: Event, n: nat, err: SendError) => RetryBackoffRateLimit(e, n, err), (e: Event) => QueueMessages(e))

  /** An empty name counts as no queue. */
  function QueueName(a: Algorithms, event: Event): Option<string> {
    if a.queue(event) == Some("") then None else a.queue(event)
  }

  // ----- States

  /** id stands for the entry's deferred. */
  datatype Entry = Entry(id: nat, event: Event, attempts: nat)

  /** What is outstanding for a queue: a request for an entry, or a retry timer. */
  datatype Continuation = Sending(name: string, entry: Entry) | Waiting(name: string, ms: int)

  /** names lists the queues in the order they were created. */
  datatype Sched = Sched(queues: map<string, seq<Entry>>, names: seq<string>, active: seq<string>,
                         hasProc: bool, pending: seq<Continuation>, nextId: nat)

  const INITIAL := Sched(map[], [], [], false, [], 0)

  datatype Op =
    | Enqueue(event: Event)
    | Remove(event: Event)
    | SetProc(given: bool)
    | Succeed(i: nat)
    | Fail(i: nat, err: SendError)
    | TimerFires(i: nat)

  predicate Enabled(s: Sched, op: Op) {
    match op
    case Succeed(i) => i < |s.pending| && s.pending[i].Sending?
    case Fail(i, _) => i < |s.pending| && s.pending[i].Sending?
    case TimerFires(i) => i < |s.pending| && s.pending[i].Waiting?
    case _ => true
  }

  predicate IsCompletion(op: Op) {
    op.Succeed? || op.Fail? || op.TimerFires?
  }

  // ----- The specification of each operation

  function QueueOf(s: Sched, name: string): seq<Entry> {
    if name in s.queues then s.queues[name] else []
  }

  function DropAt<T>(xs: seq<T>, i: nat): seq<T> {
    if i < |xs| then xs[..i] + xs[i + 1..] else xs
  }

  function IndexOf<T(==)>(xs: seq<T>, x: T): (i: nat)
    ensures i <= |xs|
    ensures i < |xs| ==> xs[i] == x
    ensures forall j :: 0 <= j < i ==> xs[j] != x
  {
    if xs == [] || xs[0] == x then 0 else 1 + IndexOf(xs[1..], x)
  }

  function IndexOfEvent(q: seq<Entry>, eventId: string): (i: nat)
    ensures i <= |q|
    ensures i < |q| ==> q[i].event.eventId == eventId
    ensures forall j :: 0 <= j < i ==> q[j].event.eventId != eventId
  {
    if q == [] || q[0].event.eventId == eventId then 0 else 1 + IndexOfEvent(q[1..], eventId)
  }

  function ProcessQueue(s: Sched, name: string): Sched {
    var q := QueueOf(s, name);
    if q == [] then s.(active := DropAt(s.active, IndexOf(s.active, name)))
    else s.(pending := s.pending + [Sending(name, q[0])])
  }

  function StartOne(s: Sched, name: string): Sched {
    ProcessQueue(s.(active := s.active + [name]), name)
  }

  function StartAll(s: Sched, names: seq<string>): Sched {
    if names == [] then s else StartOne(StartAll(s, names[..|names| - 1]), names[|names| - 1])
  }

  /** The queues that have events and are not active, in order of creation. */
  function Inactive(s: Sched, names: seq<string>): seq<string> {
    if names == [] then []
    else
      var n := names[|names| - 1];
      Inactive(s, names[..|names| - 1]) + if n !in s.active && QueueOf(s, n) != [] then [n] else []
  }

  function StartProcessing(s: Sched): Sched {
    if s.hasProc then StartAll(s, Inactive(s, s.names)) else s
  }

  function Push(s: Sched, name: string, event: Event): Sched {
    s.(queues := s.queues[name := QueueOf(s, name) + [Entry(s.nextId, event, 0)]],
       names := if name in s.queues then s.names else s.names + [name],
       nextId := s.nextId + 1)
  }

  /** The head of the queue leaves it, and the next event is processed. */
  function ShiftAndProcess(s: Sched, name: string): Sched {
    var q := QueueOf(s, name);
    ProcessQueue(if q == [] then s else s.(queues := s.queues[name := q[1..]]), name)
  }

  /** The entry object with this id, if it is still queued, has failed once more. */
  function CountFailure(q: seq<Entry>, id: nat): seq<Entry> {
    if q == [] then []
    else [if q[0].id == id then q[0].(attempts := q[0].attempts + 1) else q[0]] + CountFailure(q[1..], id)
  }

  /** The request is over, and its entry has failed once more. */
  function Failed(s: Sched, i: nat): Sched
    requires i < |s.pending| && s.pending[i].Sending?
  {
    var c, s' := s.pending[i], s.(pending := DropAt(s.pending, i));
    if c.name in s.queues then s'.(queues := s.queues[c.name := CountFailure(s.queues[c.name], c.entry.id)]) else s'
  }

  function Step(a: Algorithms, s: Sched, op: Op): Sched
    requires Enabled(s, op)
  {
    match op
    case Enqueue(event) =>
      var name := QueueName(a, event);
      if name.None? then s else StartProcessing(Push(s, name.value, event))
    case Remove(event) =>
      var name := QueueName(a, event);
      if name.None? || name.value !in s.queues then s
      else
        var q := s.queues[name.value];
        s.(queues := s.queues[name.value := DropAt(q, IndexOfEvent(q, event.eventId))])
    case SetProc(given) => StartProcessing(s.(hasProc := given))
    case Succeed(i) =>
      ShiftAndProcess(s.(pending := DropAt(s.pending, i)), s.pending[i].name)
    case Fail(i, err) =>
      var c := s.pending[i];
      var s1 := Failed(s, i);
      var wait := a.retry(c.entry.event, c.entry.attempts + 1, err);
      if wait == -1 then ShiftAndProcess(s1, c.name) else s1.(pending := s1.pending + [Waiting(c.name, wait)])
    case TimerFires(i) =>
      ProcessQueue(s.(pending := DropAt(s.pending, i)), s.pending[i].name)
  }

  // ----- The invariant

  ghost predicate Distinct<T>(xs: seq<T>) {
    forall i, j :: 0 <= i < j < |xs| ==> xs[i] != xs[j]
  }

  ghost predicate OnePerQueue(pending: seq<Continuation>) {
    forall i, j :: 0 <= i < j < |pending| ==> pending[i].name != pending[j].name
  }

  ghost predicate Serves(pending: seq<Continuation>, name: string) {
    exists i :: 0 <= i < |pending| && pending[i].name == name
  }

  /** A request in flight is for the head of its queue. */
  ghost predicate ForHead(s: Sched, c: Continuation) {
    c.Sending? ==> QueueOf(s, c.name) != [] && QueueOf(s, c.name)[0] == c.entry
  }

  /** What holds between any two steps, except that `busy` may be active without a continuation. */
  ghost predicate InvBut(s: Sched, busy: set<string>) {
    && Distinct(s.names) && (forall n :: n in s.names <==> n in s.queues)
    && Distinct(s.active) && OnePerQueue(s.pending)
    && (forall n :: n in s.active <==> Serves(s.pending, n) || n in busy)
    && (forall n :: n in busy ==> !Serves(s.pending, n))
    && (forall i :: 0 <= i < |s.pending| ==> ForHead(s, s.pending[i]))
  }

  /** A process function keeps every queue with events active, and each active queue has exactly
      one continuation: one request for its head, or one retry timer. */
  ghost predicate Inv(s: Sched) {
    && InvBut(s, {})
    && (s.hasProc ==> forall n :: n in s.queues && s.queues[n] != [] ==> n in s.active)
  }

  /** The event to remove is not the one whose request is in flight. */
  ghost predicate SafeRemove(a: Algorithms, s: Sched, event: Event) {
    var name := QueueName(a, event);
    name.Some? && name.value in s.queues ==>
      forall i :: 0 <= i < |s.pending| && s.pending[i].Sending? && s.pending[i].name == name.value ==>
                    IndexOfEvent(s.queues[name.value], event.eventId) != 0
  }

  ghost predicate Allowed(a: Algorithms, s: Sched, op: Op) {
    Enabled(s, op) && (op.Remove? ==> SafeRemove(a, s, op.event))
  }

  // ----- Every step keeps the invariant

  lemma {:induction false} DropMember<T>(xs: seq<T>, x: T)
    requires Distinct(xs)
    ensures Distinct(DropAt(xs, IndexOf(xs, x)))
    ensures forall y :: y in DropAt(xs, IndexOf(xs, x)) <==> y in xs && y != x
  {
    var i := IndexOf(xs, x);
    forall y
      ensures y in DropAt(xs, i) <==> y in xs && y != x
    {
      if i < |xs| {
        assert xs == xs[..i] + [x] + xs[i + 1..];
        assert x !in xs[..i] && x !in xs[i + 1..];
      }
    }
  }

  lemma {:induction false} DropContinuation(pending: seq<Continuation>, i: nat)
    requires OnePerQueue(pending) && i < |pending|
    ensures OnePerQueue(DropAt(pending, i))
    ensures forall n :: Serves(DropAt(pending, i), n) <==> Serves(pending, n) && n != pending[i].name
    ensures forall c :: c in DropAt(pending, i) ==> c in pending && c.name != pending[i].name
  {
    var rest := DropAt(pending, i);
    forall j | 0 <= j < |rest|
      ensures rest[j] == pending[if j < i then j else j + 1]
    {
    }
    forall n
      ensures Serves(rest, n) <==> Serves(pending, n) && n != pending[i].name
    {
      if Serves(pending, n) && n != pending[i].name {
        var j :| 0 <= j < |pending| && pending[j].name == n;
        assert rest[if j < i then j else j - 1].name == n;
      }
    }
  }

  lemma {:induction false} AddContinuation(pending: seq<Continuation>, c: Continuation)
    ensures forall n :: Serves(pending + [c], n) <==> Serves(pending, n) || n == c.name
    ensures OnePerQueue(pending) && !Serves(pending, c.name) ==> OnePerQueue(pending + [c])
  {
    var more := pending + [c];
    assert more[|pending|] == c;
    forall n | Serves(pending, n)
      ensures Serves(more, n)
    {
      var i :| 0 <= i < |pending| && pending[i].name == n;
      assert more[i].name == n;
    }
  }

  lemma {:induction false} ProcessKeeps(s: Sched, name: string)
    requires InvBut(s, {name})
    ensures InvBut(ProcessQueue(s, name), {})
    ensures forall n :: n in ProcessQueue(s, name).active <==> n in s.active && (n != name || QueueOf(s, name) != [])
  {
    var q := QueueOf(s, name);
    if q == [] {
      DropMember(s.active, name);
    } else {
      AddContinuation(s.pending, Sending(name, q[0]));
    }
  }

  lemma {:induction false} StartOneKeeps(s: Sched, name: string)
    requires InvBut(s, {}) && name !in s.active && QueueOf(s, name) != []
    ensures InvBut(StartOne(s, name), {})
    ensures forall n :: n in StartOne(s, name).active <==> n in s.active || n == name
  {
    var s1 := s.(active := s.active + [name]);
    assert InvBut(s1, {name});
    ProcessKeeps(s1, name);
  }

  lemma {:induction false} StartAllKeeps(s: Sched, ns: seq<string>)
    requires InvBut(s, {}) && Distinct(ns)
    requires forall n :: n in ns ==> n !in s.active && QueueOf(s, n) != []
    ensures InvBut(StartAll(s, ns), {})
    ensures StartAll(s, ns) == s.(active := StartAll(s, ns).active, pending := StartAll(s, ns).pending)
    ensures forall n :: n in StartAll(s, ns).active <==> n in s.active || n in ns
  {
    if ns != [] {
      var k := |ns| - 1;
      assert ns == ns[..k] + [ns[k]];
      StartAllKeeps(s, ns[..k]);
      assert ns[k] !in ns[..k];
      StartOneKeeps(StartAll(s, ns[..k]), ns[k]);
    }
  }

  lemma {:induction false} InactiveAre(s: Sched, names: seq<string>)
    requires Distinct(names)
    ensures Distinct(Inactive(s, names))
    ensures forall n :: n in Inactive(s, names) <==> n in names && n !in s.active && QueueOf(s, n) != []
  {
    if names != [] {
      var k := |names| - 1;
      assert names == names[..k] + [names[k]];
      InactiveAre(s, names[..k]);
      assert names[k] !in names[..k];
    }
  }

  lemma {:induction false} StartProcessingKeeps(s: Sched)
    requires InvBut(s, {})
    ensures Inv(StartProcessing(s))
    ensures StartProcessing(s) == s.(active := StartProcessing(s).active, pending := StartProcessing(s).pending)
  {
    if s.hasProc {
      InactiveAre(s, s.names);
      StartAllKeeps(s, Inactive(s, s.names));
      forall n | n in s.queues && s.queues[n] != []
        ensures n in StartProcessing(s).active
      {
        assert n in s.names;
      }
    }
  }

  lemma {:induction false} PushKeeps(s: Sched, name: string, event: Event)
    requires InvBut(s, {})
    ensures InvBut(Push(s, name, event), {})
  {
    var s' := Push(s, name, event);
    forall i | 0 <= i < |s'.pending|
      ensures ForHead(s', s'.pending[i])
    {
      assert ForHead(s, s.pending[i]);
    }
  }

  lemma {:induction false} RemoveKeeps(a: Algorithms, s: Sched, event: Event)
    requires Inv(s) && SafeRemove(a, s, event)
    ensures Inv(Step(a, s, Remove(event)))
  {
    var name, s' := QueueName(a, event), Step(a, s, Remove(event));
    forall i | 0 <= i < |s'.pending|
      ensures ForHead(s', s'.pending[i])
    {
      assert ForHead(s, s.pending[i]);
    }
  }

  /** A continuation that has completed leaves its queue active and without continuation. */
  lemma {:induction false} CompleteKeeps(s: Sched, i: nat)
    requires Inv(s) && i < |s.pending|
    ensures InvBut(s.(pending := DropAt(s.pending, i)), {s.pending[i].name})
  {
    DropContinuation(s.pending, i);
    var s' := s.(pending := DropAt(s.pending, i));
    assert Serves(s.pending, s.pending[i].name);
    forall j | 0 <= j < |s'.pending|
      ensures ForHead(s', s'.pending[j])
    {
      var k := if j < i then j else j + 1;
      assert s'.pending[j] == s.pending[k] && ForHead(s, s.pending[k]);
    }
  }

  /** The queue without a continuation may change in any way. */
  lemma {:induction false} ChangeQueueKeeps(s: Sched, name: string, q: seq<Entry>)
    requires InvBut(s, {name}) && name in s.queues
    ensures InvBut(s.(queues := s.queues[name := q]), {name})
  {
    var s' := s.(queues := s.queues[name := q]);
    forall i | 0 <= i < |s'.pending|
      ensures ForHead(s', s'.pending[i])
    {
      assert ForHead(s, s.pending[i]) && Serves(s.pending, s.pending[i].name);
    }
  }

  ghost predicate LivelyBut(s: Sched, busy: string) {
    && busy in s.active
    && (s.hasProc ==> forall n :: n in s.queues && n != busy && s.queues[n] != [] ==> n in s.active)
  }

  lemma {:induction false} ProcessRestores(s: Sched, name: string)
    requires InvBut(s, {name}) && LivelyBut(s, name)
    ensures Inv(ProcessQueue(s, name))
  {
    ProcessKeeps(s, name);
  }

  lemma {:induction false} ShiftRestores(s: Sched, name: string)
    requires InvBut(s, {name}) && LivelyBut(s, name)
    ensures Inv(ShiftAndProcess(s, name))
  {
    var q := QueueOf(s, name);
    if q == [] {
      ProcessRestores(s, name);
    } else {
      ChangeQueueKeeps(s, name, q[1..]);
      ProcessRestores(s.(queues := s.queues[name := q[1..]]), name);
    }
  }

  lemma {:induction false} FailKeeps(a: Algorithms, s: Sched, i: nat, err: SendError)
    requires Inv(s) && Enabled(s, Fail(i, err))
    ensures Inv(Step(a, s, Fail(i, err)))
  {
    var c := s.pending[i];
    FailedReady(s, i);
    var wait := a.retry(c.entry.event, c.entry.attempts + 1, err);
    if wait == -1 {
      assert Step(a, s, Fail(i, err)) == ShiftAndProcess(Failed(s, i), c.name);
      ShiftRestores(Failed(s, i), c.name);
    } else {
      assert Step(a, s, Fail(i, err)) == Failed(s, i).(pending := Failed(s, i).pending + [Waiting(c.name, wait)]);
      WaitRestores(Failed(s, i), c.name, wait);
    }
  }

  lemma {:induction false} FailedReady(s: Sched, i: nat)
    requires Inv(s) && i < |s.pending| && s.pending[i].Sending?
    ensures InvBut(Failed(s, i), {s.pending[i].name}) && LivelyBut(Failed(s, i), s.pending[i].name)
  {
    var c, s0 := s.pending[i], s.(pending := DropAt(s.pending, i));
    CompleteKeeps(s, i);
    assert ForHead(s, c);
    assert Serves(s.pending, c.name);
    ChangeQueueKeeps(s0, c.name, CountFailure(s.queues[c.name], c.entry.id));
  }

  lemma {:induction false} WaitRestores(s: Sched, name: string, ms: int)
    requires InvBut(s, {name}) && LivelyBut(s, name)
    ensures Inv(s.(pending := s.pending + [Waiting(name, ms)]))
  {
    AddContinuation(s.pending, Waiting(name, ms));
  }

  /** Between any two steps, no queue is stranded and none is served twice. */
  lemma {:induction false} StepKeepsInv(a: Algorithms, s: Sched, op: Op)
    requires Inv(s) && Allowed(a, s, op)
    ensures Inv(Step(a, s, op))
  {
    match op {
      case Enqueue(event) =>
        var name := QueueName(a, event);
        if name.Some? {
          PushKeeps(s, name.value, event);
          StartProcessingKeeps(Push(s, name.value, event));
        }
      case Remove(event) => RemoveKeeps(a, s, event);
      case SetProc(given) => StartProcessingKeeps(s.(hasProc := given));
      case Succeed(i) =>
        CompleteKeeps(s, i);
        assert Serves(s.pending, s.pending[i].name);
        ShiftRestores(s.(pending := DropAt(s.pending, i)), s.pending[i].name);
      case Fail(i, err) => FailKeeps(a, s, i, err);
      case TimerFires(i) =>
        CompleteKeeps(s, i);
        assert Serves(s.pending, s.pending[i].name);
        ProcessRestores(s.(pending := DropAt(s.pending, i)), s.pending[i].name);
    }
  }

  // ----- The code

  /** Removes the first element that satisfies fn, or the last one when searching in reverse. */
  method RemoveElement<T>(elements: seq<T>, fn: T -> bool, reverse: bool) returns (rest: seq<T>, removed: Option<T>)
    ensures removed.None? ==> rest == elements && forall i :: 0 <= i < |elements| ==> !fn(elements[i])
    ensures removed.Some? ==>
              exists i :: 0 <= i < |elements| && fn(elements[i]) && removed == Some(elements[i])
                          && rest == elements[..i] + elements[i + 1..]
                          && forall j :: 0 <= j < |elements| && (if reverse then i < j else j < i) ==> !fn(elements[j])
  {
    if reverse {
      var i := |elements| - 1;
      while i >= 0
        invariant -1 <= i < |elements|
        invariant forall j :: i < j < |elements| ==> !fn(elements[j])
      {
        if fn(elements[i]) {
          return elements[..i] + elements[i + 1..], Some(elements[i]);
        }
        i := i - 1;
      }
    } else {
      for i := 0 to |elements|
        invariant forall j :: 0 <= j < i ==> !fn(elements[j])
      {
        if fn(elements[i]) {
          return elements[..i] + elements[i + 1..], Some(elements[i]);
        }
      }
    }
    return elements, None;
  }

  class EventScheduler {
    const algorithms: Algorithms
    var queues: map<string, seq<Entry>>
    var queueNames: seq<string>
    var activeQueues: seq<string>
    var procFn: bool
    var pending: seq<Continuation>
    var nextId: nat

    ghost function State(): Sched
      reads this
    {
      Sched(queues, queueNames, activeQueues, procFn, pending, nextId)
    }

    constructor (algorithms: Algorithms)
      ensures State() == INITIAL && Inv(State()) && this.algorithms == algorithms
    {
      this.algorithms := algorithms;
      queues, queueNames, activeQueues, procFn, pending, nextId := map[], [], [], false, [], 0;
    }

    /** The result is None when the algorithm puts the event in no queue, else its deferred. */
    method QueueEvent(event: Event) returns (id: Option<nat>)
      modifies this
      ensures State() == Step(algorithms, old(State()), Enqueue(event)) && (old(Inv(State())) ==> Inv(State()))
      ensures id == if QueueName(algorithms, event).None? then None else Some(old(nextId))
    {
      if Inv(State()) { StepKeepsInv(algorithms, State(), Enqueue(event)); }
      var name := QueueName(algorithms, event);
      if name.None? { return None; }
      id := Some(nextId);
      PushEvent(name.value, event);
      StartProcessingQueues();
    }

    method PushEvent(queueName: string, event: Event)
      modifies this`queues, this`queueNames, this`nextId
      ensures State() == Push(old(State()), queueName, event)
    {
      if queueName !in queues {
        queueNames := queueNames + [queueName];
        queues := queues[queueName := []];
      }
      queues := queues[queueName := queues[queueName] + [Entry(nextId, event, 0)]];
      nextId := nextId + 1;
    }

    /** Safe unless the event's request is in flight. */
    method RemoveEventFromQueue(event: Event) returns (removed: bool)
      modifies this`queues
      ensures State() == Step(algorithms, old(State()), Remove(event))
      ensures old(Inv(State()) && SafeRemove(algorithms, State(), event)) ==> Inv(State())
      ensures removed <==> queues != old(queues)
    {
      if Inv(State()) && SafeRemove(algorithms, State(), event) { RemoveKeeps(algorithms, State(), event); }
      var name := QueueName(algorithms, event);
      if name.None? || name.value !in queues { return false; }
      var rest;
      rest, removed := RemoveFromList(queues[name.value], event.eventId);
      queues := queues[name.value := rest];
    }

    method RemoveFromList(q: seq<Entry>, eventId: string) returns (rest: seq<Entry>, removed: bool)
      ensures rest == DropAt(q, IndexOfEvent(q, eventId))
      ensures removed <==> rest != q
    {
      var found;
      rest, found := RemoveElement(q, (e: Entry) => e.event.eventId == eventId, false);
      removed := found.Some?;
      if removed {
        var i :| 0 <= i < |q| && q[i].event.eventId == eventId && rest == q[..i] + q[i + 1..]
                 && forall j :: 0 <= j < i ==> q[j].event.eventId != eventId;
        assert i == IndexOfEvent(q, eventId) && |rest| < |q|;
      }
    }

    /** Without a function (null in the source), the requests that start from then on fail. */
    method SetProcessFunction(given: bool)
      modifies this
      ensures State() == Step(algorithms, old(State()), SetProc(given)) && (old(Inv(State())) ==> Inv(State()))
    {
      if Inv(State()) { StepKeepsInv(algorithms, State(), SetProc(given)); }
      procFn := given;
      StartProcessingQueues();
    }

    method StartProcessingQueues()
      modifies this`activeQueues, this`pending
      ensures State() == StartProcessing(old(State()))
    {
      if !procFn { return; }
      ghost var s := State();
      var inactive: seq<string> := [];
      for i := 0 to |queueNames|
        invariant State() == s && inactive == Inactive(s, s.names[..i])
      {
        assert s.names[..i + 1][..i] == s.names[..i];
        if queueNames[i] !in activeQueues && queueNames[i] in queues && queues[queueNames[i]] != [] {
          inactive := inactive + [queueNames[i]];
        }
      }
      assert s.names[..|queueNames|] == s.names;
      for i := 0 to |inactive|
        invariant State() == StartAll(s, inactive[..i])
      {
        assert inactive[..i + 1][..i] == inactive[..i];
        activeQueues := activeQueues + [inactive[i]];
        ProcessOneQueue(inactive[i]);
      }
      assert inactive[..|inactive|] == inactive;
    }

    method ProcessOneQueue(queueName: string)
      modifies this`activeQueues, this`pending
      ensures State() == ProcessQueue(old(State()), queueName)
    {
      var head := PeekNextEvent(queueName);
      if head.None? {
        var index := IndexOf(activeQueues, queueName);
        if index < |activeQueues| {
          activeQueues := activeQueues[..index] + activeQueues[index + 1..];
        }
        return;
      }
      pending := pending + [Sending(queueName, head.value)];
    }

    method PeekNextEvent(queueName: string) returns (head: Option<Entry>)
      ensures head == if queueName in queues && queues[queueName] != [] then Some(queues[queueName][0]) else None
    {
      if queueName !in queues || queues[queueName] == [] { return None; }
      return Some(queues[queueName][0]);
    }

    method RemoveNextEvent(queueName: string)
      modifies this`queues
      ensures queues == if QueueOf(old(State()), queueName) == [] then old(queues) else old(queues)[queueName := old(queues)[queueName][1..]]
    {
      if queueName in queues && queues[queueName] != [] {
        queues := queues[queueName := queues[queueName][1..]];
      }
    }

    /** The request that is pending[i] has succeeded; settled is the deferred that is resolved. */
    method OnResolved(i: nat) returns (settled: nat)
      requires Enabled(State(), Succeed(i))
      modifies this
      ensures State() == Step(algorithms, old(State()), Succeed(i)) && (old(Inv(State())) ==> Inv(State()))
      ensures settled == old(pending)[i].entry.id
    {
      if Inv(State()) { StepKeepsInv(algorithms, State(), Succeed(i)); }
      var c := pending[i];
      pending := pending[..i] + pending[i + 1..];
      RemoveNextEvent(c.name);
      settled := c.entry.id;
      ProcessOneQueue(c.name);
    }

    /** The request that is pending[i] has failed; settled is the deferred that is rejected, if it gives up. */
    method OnRejected(i: nat, err: SendError) returns (settled: Option<nat>)
      requires Enabled(State(), Fail(i, err))
      modifies this
      ensures State() == Step(algorithms, old(State()), Fail(i, err)) && (old(Inv(State())) ==> Inv(State()))
      ensures var entry := old(pending)[i].entry;
              settled == if algorithms.retry(entry.event, entry.attempts + 1, err) == -1 then Some(entry.id) else None
    {
      if Inv(State()) { StepKeepsInv(algorithms, State(), Fail(i, err)); }
      var c := pending[i];
      CountAttempt(i);
      var waitTimeMs := algorithms.retry(c.entry.event, c.entry.attempts + 1, err);
      if waitTimeMs == -1 {
        RemoveNextEvent(c.name);
        settled := Some(c.entry.id);
        ProcessOneQueue(c.name);
      } else {
        settled := None;
        pending := pending + [Waiting(c.name, waitTimeMs)];
      }
    }

    /** The failed request is no longer pending, and its entry has been tried once more. */
    method CountAttempt(i: nat)
      requires i < |pending| && pending[i].Sending?
      modifies this`queues, this`pending
      ensures State() == Failed(old(State()), i)
    {
      var c := pending[i];
      pending := pending[..i] + pending[i + 1..];
      if c.name in queues {
        queues := queues[c.name := CountFailure(queues[c.name], c.entry.id)];
      }
    }

    method OnTimer(i: nat)
      requires Enabled(State(), TimerFires(i))
      modifies this
      ensures State() == Step(algorithms, old(State()), TimerFires(i)) && (old(Inv(State())) ==> Inv(State()))
    {
      if Inv(State()) { StepKeepsInv(algorithms, State(), TimerFires(i)); }
      var name := pending[i].name;
      pending := pending[..i] + pending[i + 1..];
      ProcessOneQueue(name);
    }
  }
}
