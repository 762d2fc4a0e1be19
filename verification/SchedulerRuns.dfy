/** Whole runs of the event scheduler: conservation and FIFO order, the retry bound, draining. */
module SchedulerRuns {
  import opened Common
  import opened Scheduler

  // ----- Histories

  /** A state with, per queue, the ids enqueued and the ids settled, each in order; the ids settled
      either way and the ids removed; and per id, its event, how many requests have completed, how
      many of them were put off for as long as the server asked, and for how long timers were armed
      after the others. */
  datatype History = History(s: Sched, events: map<nat, Event>, enqueued: map<string, seq<nat>>, settled: map<string, seq<nat>>,
                             resolved: set<nat>, rejected: set<nat>, removed: set<nat>,
                             tries: map<nat, nat>, limited: map<nat, nat>, waited: map<nat, int>)

  const NO_HISTORY := History(INITIAL, map[], map[], map[], {}, {}, {}, map[], map[], map[])

  function At(m: map<string, seq<nat>>, name: string): seq<nat> {
    if name in m then m[name] else []
  }

  function Tries(h: History, id: nat): nat {
    if id in h.tries then h.tries[id] else 0
  }

  function Limited(h: History, id: nat): nat {
    if id in h.limited then h.limited[id] else 0
  }

  function Waited(h: History, id: nat): int {
    if id in h.waited then h.waited[id] else 0
  }

  function Ids(q: seq<Entry>): (ids: seq<nat>)
    ensures |ids| == |q| && forall i :: 0 <= i < |q| ==> ids[i] == q[i].id
  {
    if q == [] then [] else Ids(q[..|q| - 1]) + [q[|q| - 1].id]
  }

  /** What is left of xs without the removed ones. */
  function Kept(xs: seq<nat>, removed: set<nat>): seq<nat> {
    if xs == [] then []
    else Kept(xs[..|xs| - 1], removed) + if xs[|xs| - 1] in removed then [] else [xs[|xs| - 1]]
  }

  /** The entry a step settles: its request succeeded, or failed for the last time. */
  function Settles(a: Algorithms, s: Sched, op: Op): Option<Continuation>
    requires Enabled(s, op)
  {
    match op
    case Succeed(i) => Some(s.pending[i])
    case Fail(i, err) => if Wait(a, s, op) == -1 then Some(s.pending[i]) else None
    case _ => None
  }

  function Wait(a: Algorithms, s: Sched, op: Op): int
    requires Enabled(s, op) && op.Fail?
  {
    a.retry(s.pending[op.i].entry.event, s.pending[op.i].entry.attempts + 1, op.err)
  }

  function Removes(a: Algorithms, s: Sched, op: Op): Option<nat> {
    if !op.Remove? || QueueName(a, op.event).None? then None
    else
      var q := QueueOf(s, QueueName(a, op.event).value);
      var i := IndexOfEvent(q, op.event.eventId);
      if i < |q| then Some(q[i].id) else None
  }

  /** For how long the retry timer of the queue is armed, the last one if there were several. */
  function ArmedWait(pending: seq<Continuation>, name: string): int {
    if pending == [] then 0
    else
      var c := pending[|pending| - 1];
      if c.Waiting? && c.name == name then c.ms else ArmedWait(pending[..|pending| - 1], name)
  }

  function NowEvents(a: Algorithms, h: History, op: Op): map<nat, Event> {
    if op.Enqueue? && QueueName(a, op.event).Some? then h.events[h.s.nextId := op.event] else h.events
  }

  function NowEnqueued(a: Algorithms, h: History, op: Op): map<string, seq<nat>> {
    if op.Enqueue? && QueueName(a, op.event).Some? then
      var name := QueueName(a, op.event).value;
      h.enqueued[name := At(h.enqueued, name) + [h.s.nextId]]
    else h.enqueued
  }

  function NowSettled(a: Algorithms, h: History, op: Op): map<string, seq<nat>>
    requires Enabled(h.s, op)
  {
    var c := Settles(a, h.s, op);
    if c.Some? && c.value.Sending? then h.settled[c.value.name := At(h.settled, c.value.name) + [c.value.entry.id]] else h.settled
  }

  function NowResolved(h: History, op: Op): set<nat>
    requires Enabled(h.s, op)
  {
    if op.Succeed? then h.resolved + {h.s.pending[op.i].entry.id} else h.resolved
  }

  function NowRejected(a: Algorithms, h: History, op: Op): set<nat>
    requires Enabled(h.s, op)
  {
    if op.Fail? && Wait(a, h.s, op) == -1 then h.rejected + {h.s.pending[op.i].entry.id} else h.rejected
  }

  function NowRemoved(a: Algorithms, h: History, op: Op): set<nat> {
    var id := Removes(a, h.s, op);
    if id.Some? then h.removed + {id.value} else h.removed
  }

  function NowTries(h: History, op: Op): map<nat, nat>
    requires Enabled(h.s, op)
  {
    if op.Succeed? || op.Fail? then
      var id := h.s.pending[op.i].entry.id;
      h.tries[id := Tries(h, id) + 1]
    else h.tries
  }

  /** The failure does not ask for a positive rate-limit wait. */
  predicate Ordinary(op: Op) {
    op.Fail? ==> !(op.err.name == "M_LIMIT_EXCEEDED" && op.err.retryAfterMs > 0)
  }

  function NowLimited(a: Algorithms, h: History, op: Op): map<nat, nat>
    requires Enabled(h.s, op)
  {
    if op.Fail? && Wait(a, h.s, op) != -1 && !Ordinary(op) then
      var id := h.s.pending[op.i].entry.id;
      h.limited[id := Limited(h, id) + 1]
    else h.limited
  }

  function NowWaited(a: Algorithms, h: History, op: Op): map<nat, int>
    requires Enabled(h.s, op)
  {
    if op.Fail? && Wait(a, h.s, op) != -1 && Ordinary(op) then
      var id := h.s.pending[op.i].entry.id;
      h.waited[id := Waited(h, id) + ArmedWait(Step(a, h.s, op).pending, h.s.pending[op.i].name)]
    else h.waited
  }

  ghost function Record(a: Algorithms, h: History, op: Op): History
    requires Enabled(h.s, op)
  {
    var s' := Step(a, h.s, op);
    History(s', NowEvents(a, h, op), NowEnqueued(a, h, op), NowSettled(a, h, op), NowResolved(h, op), NowRejected(a, h, op), NowRemoved(a, h, op),
            NowTries(h, op), NowLimited(a, h, op), NowWaited(a, h, op))
  }

  // ----- Conservation and order

  /** Take the events of a queue in the order they were enqueued, and leave out the removed ones:
      what remains is what has been settled, in order, followed by what is queued, in order. */
  ghost predicate ConservesAt(enqueued: seq<nat>, removed: set<nat>, settled: seq<nat>, queued: seq<nat>) {
    Distinct(enqueued) && Kept(enqueued, removed) == settled + queued
  }

  /** No id is given out twice. */
  ghost predicate Numbered(enqueued: map<string, seq<nat>>, removed: set<nat>, nextId: nat) {
    && (forall n, id :: id in At(enqueued, n) ==> id < nextId)
    && (forall m, n, id :: id in At(enqueued, m) && id in At(enqueued, n) ==> m == n)
    && (forall id :: id in removed ==> id < nextId)
  }

  ghost predicate Balanced(queues: map<string, seq<Entry>>, enqueued: map<string, seq<nat>>, settled: map<string, seq<nat>>,
                           removed: set<nat>) {
    forall n :: ConservesAt(At(enqueued, n), removed, At(settled, n), QueuedIds(queues, n))
  }

  ghost function QueuedIds(queues: map<string, seq<Entry>>, name: string): seq<nat> {
    if name in queues then Ids(queues[name]) else []
  }

  ghost predicate Conserves(h: History) {
    Balanced(h.s.queues, h.enqueued, h.settled, h.removed) && Numbered(h.enqueued, h.removed, h.s.nextId)
  }

  ghost predicate IsSettled(settled: map<string, seq<nat>>, id: nat) {
    exists n :: id in At(settled, n)
  }

  /** What is settled is either resolved or rejected. */
  ghost predicate Outcomes(h: History) {
    && h.resolved !! h.rejected
    && forall id :: id in h.resolved || id in h.rejected <==> IsSettled(h.settled, id)
  }

  lemma {:induction false} KeptConcat(a: seq<nat>, b: seq<nat>, removed: set<nat>)
    ensures Kept(a + b, removed) == Kept(a, removed) + Kept(b, removed)
  {
    if b == [] {
      assert a + b == a;
    } else {
      assert (a + b)[..|a + b| - 1] == a + b[..|b| - 1];
      KeptConcat(a, b[..|b| - 1], removed);
    }
  }

  lemma {:induction false} KeptOne(x: nat, removed: set<nat>)
    ensures Kept([x], removed) == if x in removed then [] else [x]
  {
    assert [x][..0] == [];
  }

  lemma {:induction false} KeptTwice(xs: seq<nat>, a: set<nat>, b: set<nat>)
    ensures Kept(xs, a + b) == Kept(Kept(xs, a), b)
  {
    if xs != [] {
      var x, front := xs[|xs| - 1], Kept(xs[..|xs| - 1], a);
      KeptTwice(xs[..|xs| - 1], a, b);
      if x in a {
        assert Kept(xs, a) == front;
      } else {
        KeptConcat(front, [x], b);
        KeptOne(x, b);
      }
    }
  }

  lemma {:induction false} KeptAll(xs: seq<nat>, removed: set<nat>)
    requires forall x :: x in xs ==> x !in removed
    ensures Kept(xs, removed) == xs
  {
    if xs != [] {
      assert xs == xs[..|xs| - 1] + [xs[|xs| - 1]];
      KeptAll(xs[..|xs| - 1], removed);
    }
  }

  lemma {:induction false} KeptMembers(xs: seq<nat>, removed: set<nat>)
    ensures forall x :: x in Kept(xs, removed) <==> x in xs && x !in removed
    ensures Distinct(xs) ==> Distinct(Kept(xs, removed))
  {
    if xs != [] {
      var n := |xs| - 1;
      assert xs == xs[..n] + [xs[n]];
      KeptMembers(xs[..n], removed);
      if Distinct(xs) { assert xs[n] !in xs[..n]; }
    }
  }

  lemma {:induction false} KeptAt(xs: seq<nat>, i: nat)
    requires Distinct(xs) && i < |xs|
    ensures Kept(xs, {xs[i]}) == xs[..i] + xs[i + 1..]
  {
    assert xs == xs[..i] + ([xs[i]] + xs[i + 1..]);
    KeptAround(xs[..i], xs[i], xs[i + 1..]);
  }

  lemma {:induction false} KeptAround(a: seq<nat>, x: nat, b: seq<nat>)
    requires x !in a && x !in b
    ensures Kept(a + ([x] + b), {x}) == a + b
  {
    KeptConcat(a, [x] + b, {x});
    KeptConcat([x], b, {x});
    KeptOne(x, {x});
    KeptAll(a, {x});
    KeptAll(b, {x});
    assert Kept([x] + b, {x}) == [] + b == b;
  }

  lemma {:induction false} IdsConcat(a: seq<Entry>, b: seq<Entry>)
    ensures Ids(a + b) == Ids(a) + Ids(b)
  {
  }

  lemma {:induction false} CountFailureAt(q: seq<Entry>, id: nat)
    ensures |CountFailure(q, id)| == |q|
    ensures forall i :: 0 <= i < |q| ==>
              CountFailure(q, id)[i] == if q[i].id == id then q[i].(attempts := q[i].attempts + 1) else q[i]
  {
    if q != [] { CountFailureAt(q[1..], id); }
  }

  lemma {:induction false} CountFailureIds(q: seq<Entry>, id: nat)
    ensures Ids(CountFailure(q, id)) == Ids(q)
  {
    CountFailureAt(q, id);
    SameIds(q, CountFailure(q, id));
  }

  lemma {:induction false} SameIds(q: seq<Entry>, q': seq<Entry>)
    requires |q| == |q'| && forall i :: 0 <= i < |q| ==> q[i].id == q'[i].id
    ensures Ids(q) == Ids(q')
  {
    assert |Ids(q)| == |Ids(q')|;
  }

  // ----- What each step does to the queues

  lemma {:induction false} StartKeepsQueues(s: Sched, ns: seq<string>)
    ensures StartAll(s, ns).queues == s.queues && StartAll(s, ns).nextId == s.nextId
  {
    if ns != [] { StartKeepsQueues(s, ns[..|ns| - 1]); }
  }

  /** The queues after a step, without what it starts. */
  ghost function QueuesAfter(a: Algorithms, s: Sched, op: Op): map<string, seq<Entry>>
    requires Enabled(s, op)
  {
    match op
    case Enqueue(event) => if QueueName(a, event).None? then s.queues else Push(s, QueueName(a, event).value, event).queues
    case Remove(_) => Step(a, s, op).queues
    case SetProc(_) => s.queues
    case Succeed(i) => Shifted(s.queues, s.pending[i].name)
    case Fail(i, _) => if Wait(a, s, op) == -1 then Shifted(Failed(s, i).queues, s.pending[i].name) else Failed(s, i).queues
    case TimerFires(_) => s.queues
  }

  ghost function Shifted(queues: map<string, seq<Entry>>, name: string): map<string, seq<Entry>> {
    if name in queues && queues[name] != [] then queues[name := queues[name][1..]] else queues
  }

  lemma {:induction false} StepQueues(a: Algorithms, s: Sched, op: Op)
    requires Enabled(s, op)
    ensures Step(a, s, op).queues == QueuesAfter(a, s, op)
    ensures Step(a, s, op).nextId == if op.Enqueue? && QueueName(a, op.event).Some? then s.nextId + 1 else s.nextId
  {
    match op {
      case Enqueue(event) =>
        if QueueName(a, event).Some? { ProcessingKeepsQueues(Push(s, QueueName(a, event).value, event)); }
      case SetProc(given) => ProcessingKeepsQueues(s.(hasProc := given));
      case Succeed(i) => ShiftQueues(s.(pending := DropAt(s.pending, i)), s.pending[i].name);
      case Fail(i, _) => ShiftQueues(Failed(s, i), s.pending[i].name);
      case _ =>
    }
  }

  lemma {:induction false} ProcessingKeepsQueues(s: Sched)
    ensures StartProcessing(s).queues == s.queues && StartProcessing(s).nextId == s.nextId
  {
    StartKeepsQueues(s, Inactive(s, s.names));
  }

  lemma {:induction false} ShiftQueues(s: Sched, name: string)
    ensures ShiftAndProcess(s, name).queues == Shifted(s.queues, name) && ShiftAndProcess(s, name).nextId == s.nextId
  {
  }

  // ----- What each step does to one queue's balance

  lemma {:induction false} PushAt(enqueued: seq<nat>, removed: set<nat>, settled: seq<nat>, queued: seq<nat>, id: nat)
    requires ConservesAt(enqueued, removed, settled, queued) && id !in enqueued && id !in removed
    ensures ConservesAt(enqueued + [id], removed, settled, queued + [id])
  {
    KeptConcat(enqueued, [id], removed);
    KeptOne(id, removed);
  }

  lemma {:induction false} RemoveAt(enqueued: seq<nat>, removed: set<nat>, settled: seq<nat>, queued: seq<nat>, i: nat)
    requires ConservesAt(enqueued, removed, settled, queued) && i < |queued|
    ensures queued[i] in enqueued
    ensures ConservesAt(enqueued, removed + {queued[i]}, settled, queued[..i] + queued[i + 1..])
  {
    var all := settled + queued;
    KeptMembers(enqueued, removed);
    DropSecond(settled, queued, i);
    assert all[|settled| + i] in all;
    KeptDrop(enqueued, removed, all, |settled| + i);
  }

  lemma {:induction false} KeptDrop(xs: seq<nat>, removed: set<nat>, kept: seq<nat>, k: nat)
    requires Kept(xs, removed) == kept && Distinct(kept) && k < |kept|
    ensures Kept(xs, removed + {kept[k]}) == kept[..k] + kept[k + 1..]
  {
    KeptAt(kept, k);
    KeptTwice(xs, removed, {kept[k]});
  }

  lemma {:induction false} DropSecond(a: seq<nat>, b: seq<nat>, i: nat)
    requires i < |b|
    ensures (a + b)[|a| + i] == b[i]
    ensures (a + b)[..|a| + i] + (a + b)[|a| + i + 1..] == a + (b[..i] + b[i + 1..])
  {
  }

  lemma {:induction false} OtherAt(enqueued: seq<nat>, removed: set<nat>, settled: seq<nat>, queued: seq<nat>, id: nat)
    requires ConservesAt(enqueued, removed, settled, queued) && id !in enqueued
    ensures ConservesAt(enqueued, removed + {id}, settled, queued)
  {
    KeptTwice(enqueued, removed, {id});
    KeptMembers(enqueued, removed);
    KeptAll(Kept(enqueued, removed), {id});
  }

  lemma {:induction false} SettleAt(enqueued: seq<nat>, removed: set<nat>, settled: seq<nat>, queued: seq<nat>)
    requires ConservesAt(enqueued, removed, settled, queued) && queued != []
    ensures ConservesAt(enqueued, removed, settled + [queued[0]], queued[1..])
  {
    assert settled + queued == settled + [queued[0]] + queued[1..];
  }

  // ----- Every step conserves

  lemma {:induction false} RecordConserves(a: Algorithms, h: History, op: Op)
    requires Inv(h.s) && Conserves(h) && Enabled(h.s, op)
    ensures Conserves(Record(a, h, op))
  {
    StepQueues(a, h.s, op);
    BalanceStep(a, h, op);
    NumberedStep(a, h, op);
  }

  lemma {:induction false} NumberedStep(a: Algorithms, h: History, op: Op)
    requires Conserves(h)
    ensures Numbered(NowEnqueued(a, h, op), NowRemoved(a, h, op),
                     if op.Enqueue? && QueueName(a, op.event).Some? then h.s.nextId + 1 else h.s.nextId)
  {
    if op.Enqueue? && QueueName(a, op.event).Some? {
      EnqueueNumbered(h.enqueued, h.removed, h.s.nextId, QueueName(a, op.event).value);
    } else if Removes(a, h.s, op).Some? {
      var name := QueueName(a, op.event).value;
      var q := QueueOf(h.s, name);
      assert ConservesAt(At(h.enqueued, name), h.removed, At(h.settled, name), QueuedIds(h.s.queues, name));
      RemoveAt(At(h.enqueued, name), h.removed, At(h.settled, name), Ids(q), IndexOfEvent(q, op.event.eventId));
    }
  }

  lemma {:induction false} EnqueueNumbered(enqueued: map<string, seq<nat>>, removed: set<nat>, nextId: nat, name: string)
    requires Numbered(enqueued, removed, nextId)
    ensures Numbered(enqueued[name := At(enqueued, name) + [nextId]], removed, nextId + 1)
  {
    var enqueued' := enqueued[name := At(enqueued, name) + [nextId]];
    forall n, id | id in At(enqueued', n)
      ensures id in At(enqueued, n) || (n == name && id == nextId)
    {
    }
  }

  lemma {:induction false} BalanceStep(a: Algorithms, h: History, op: Op)
    requires Inv(h.s) && Conserves(h) && Enabled(h.s, op)
    ensures Balanced(QueuesAfter(a, h.s, op), NowEnqueued(a, h, op), NowSettled(a, h, op), NowRemoved(a, h, op))
  {
    match op {
      case Enqueue(event) =>
        if QueueName(a, event).Some? { EnqueueStep(a, h, op); } else { IdleBalances(a, h, op); }
      case Remove(event) => RemoveStep(a, h, op);
      case SetProc(_) => IdleBalances(a, h, op);
      case Succeed(i) => SucceedBalances(a, h, op);
      case Fail(i, _) => FailBalances(a, h, op);
      case TimerFires(_) => IdleBalances(a, h, op);
    }
  }

  lemma {:induction false} IdleBalances(a: Algorithms, h: History, op: Op)
    requires Conserves(h) && Enabled(h.s, op)
    requires op.SetProc? || op.TimerFires? || (op.Enqueue? && QueueName(a, op.event).None?)
    ensures Balanced(QueuesAfter(a, h.s, op), NowEnqueued(a, h, op), NowSettled(a, h, op), NowRemoved(a, h, op))
  {
  }

  lemma {:induction false} EnqueueStep(a: Algorithms, h: History, op: Op)
    requires Conserves(h) && op.Enqueue? && QueueName(a, op.event).Some?
    ensures Balanced(QueuesAfter(a, h.s, op), NowEnqueued(a, h, op), NowSettled(a, h, op), NowRemoved(a, h, op))
  {
    EnqueueBalances(h, op.event, QueueName(a, op.event).value);
    assert QueuesAfter(a, h.s, op) == Push(h.s, QueueName(a, op.event).value, op.event).queues;
    assert NowSettled(a, h, op) == h.settled && NowRemoved(a, h, op) == h.removed;
  }

  lemma {:induction false} RemoveStep(a: Algorithms, h: History, op: Op)
    requires Conserves(h) && op.Remove?
    ensures Balanced(QueuesAfter(a, h.s, op), NowEnqueued(a, h, op), NowSettled(a, h, op), NowRemoved(a, h, op))
  {
    if Removes(a, h.s, op).Some? {
      RemoveBalances(h, op.event, QueueName(a, op.event).value);
    } else {
      RemoveNothing(a, h, op.event);
    }
  }

  lemma {:induction false} SucceedBalances(a: Algorithms, h: History, op: Op)
    requires Inv(h.s) && Conserves(h) && Enabled(h.s, op) && op.Succeed?
    ensures Balanced(QueuesAfter(a, h.s, op), NowEnqueued(a, h, op), NowSettled(a, h, op), NowRemoved(a, h, op))
  {
    assert ForHead(h.s, h.s.pending[op.i]);
    SettleBalances(h, h.s.pending[op.i], h.s.queues);
  }

  lemma {:induction false} EnqueueBalances(h: History, event: Event, name: string)
    requires Conserves(h)
    ensures Balanced(Push(h.s, name, event).queues, h.enqueued[name := At(h.enqueued, name) + [h.s.nextId]], h.settled, h.removed)
  {
    var queues, enqueued := Push(h.s, name, event).queues, h.enqueued[name := At(h.enqueued, name) + [h.s.nextId]];
    PushedIds(h.s, name, event);
    forall n
      ensures ConservesAt(At(enqueued, n), h.removed, At(h.settled, n), QueuedIds(queues, n))
    {
      assert ConservesAt(At(h.enqueued, n), h.removed, At(h.settled, n), QueuedIds(h.s.queues, n));
      if n == name {
        PushAt(At(h.enqueued, n), h.removed, At(h.settled, n), QueuedIds(h.s.queues, n), h.s.nextId);
      }
    }
  }

  lemma {:induction false} PushedIds(s: Sched, name: string, event: Event)
    ensures QueuedIds(Push(s, name, event).queues, name) == QueuedIds(s.queues, name) + [s.nextId]
    ensures forall n :: n != name ==> QueuedIds(Push(s, name, event).queues, n) == QueuedIds(s.queues, n)
  {
    IdsConcat(QueueOf(s, name), [Entry(s.nextId, event, 0)]);
  }

  lemma {:induction false} RemoveBalances(h: History, event: Event, name: string)
    requires Conserves(h) && name in h.s.queues && IndexOfEvent(h.s.queues[name], event.eventId) < |h.s.queues[name]|
    ensures var q := h.s.queues[name];
            var i := IndexOfEvent(q, event.eventId);
            Balanced(h.s.queues[name := DropAt(q, i)], h.enqueued, h.settled, h.removed + {q[i].id})
  {
    var q := h.s.queues[name];
    var i := IndexOfEvent(q, event.eventId);
    var queues, id := h.s.queues[name := DropAt(q, i)], q[i].id;
    IdsDrop(q, i);
    assert ConservesAt(At(h.enqueued, name), h.removed, At(h.settled, name), QueuedIds(h.s.queues, name));
    RemoveAt(At(h.enqueued, name), h.removed, At(h.settled, name), Ids(q), i);
    forall n
      ensures ConservesAt(At(h.enqueued, n), h.removed + {id}, At(h.settled, n), QueuedIds(queues, n))
    {
      if n != name {
        assert ConservesAt(At(h.enqueued, n), h.removed, At(h.settled, n), QueuedIds(h.s.queues, n));
        OtherAt(At(h.enqueued, n), h.removed, At(h.settled, n), QueuedIds(h.s.queues, n), id);
      }
    }
  }

  lemma {:induction false} RemoveNothing(a: Algorithms, h: History, event: Event)
    requires Removes(a, h.s, Remove(event)).None?
    ensures Step(a, h.s, Remove(event)).queues == h.s.queues
  {
    var name := QueueName(a, event);
    if name.Some? && name.value in h.s.queues {
      assert h.s.queues[name.value := h.s.queues[name.value]] == h.s.queues;
    }
  }

  lemma {:induction false} IdsDrop(q: seq<Entry>, i: nat)
    requires i < |q|
    ensures Ids(DropAt(q, i)) == Ids(q)[..i] + Ids(q)[i + 1..]
  {
  }

  lemma {:induction false} FailBalances(a: Algorithms, h: History, op: Op)
    requires Inv(h.s) && Conserves(h) && Enabled(h.s, op) && op.Fail?
    ensures Balanced(QueuesAfter(a, h.s, op), NowEnqueued(a, h, op), NowSettled(a, h, op), NowRemoved(a, h, op))
  {
    if Wait(a, h.s, op) == -1 { GiveUpBalances(a, h, op); } else { RetryBalances(a, h, op); }
  }

  lemma {:induction false} GiveUpBalances(a: Algorithms, h: History, op: Op)
    requires Inv(h.s) && Conserves(h) && Enabled(h.s, op) && op.Fail? && Wait(a, h.s, op) == -1
    ensures Balanced(QueuesAfter(a, h.s, op), NowEnqueued(a, h, op), NowSettled(a, h, op), NowRemoved(a, h, op))
  {
    FailKeepsIds(h.s, op.i);
    SettleBalances(h, h.s.pending[op.i], Failed(h.s, op.i).queues);
    GiveUpIs(a, h, op);
  }

  lemma {:induction false} GiveUpIs(a: Algorithms, h: History, op: Op)
    requires Enabled(h.s, op) && op.Fail? && Wait(a, h.s, op) == -1
    ensures QueuesAfter(a, h.s, op) == Shifted(Failed(h.s, op.i).queues, h.s.pending[op.i].name)
    ensures NowEnqueued(a, h, op) == h.enqueued && NowRemoved(a, h, op) == h.removed
    ensures var c := h.s.pending[op.i]; NowSettled(a, h, op) == h.settled[c.name := At(h.settled, c.name) + [c.entry.id]]
  {
  }

  lemma {:induction false} RetryBalances(a: Algorithms, h: History, op: Op)
    requires Inv(h.s) && Conserves(h) && Enabled(h.s, op) && op.Fail? && Wait(a, h.s, op) != -1
    ensures Balanced(QueuesAfter(a, h.s, op), NowEnqueued(a, h, op), NowSettled(a, h, op), NowRemoved(a, h, op))
  {
    FailKeepsIds(h.s, op.i);
    SameIdsBalance(h, Failed(h.s, op.i).queues);
    RetryIs(a, h, op);
  }

  lemma {:induction false} RetryIs(a: Algorithms, h: History, op: Op)
    requires Enabled(h.s, op) && op.Fail? && Wait(a, h.s, op) != -1
    ensures QueuesAfter(a, h.s, op) == Failed(h.s, op.i).queues && NowEnqueued(a, h, op) == h.enqueued
    ensures NowSettled(a, h, op) == h.settled && NowRemoved(a, h, op) == h.removed
  {
  }

  lemma {:induction false} FailKeepsIds(s: Sched, i: nat)
    requires Inv(s) && i < |s.pending| && s.pending[i].Sending?
    ensures ForHead(s, s.pending[i]) && Failed(s, i).queues.Keys == s.queues.Keys
    ensures forall n :: QueuedIds(Failed(s, i).queues, n) == QueuedIds(s.queues, n)
  {
    var c := s.pending[i];
    assert ForHead(s, c);
    CountFailureIds(s.queues[c.name], c.entry.id);
  }

  lemma {:induction false} SameIdsBalance(h: History, queues: map<string, seq<Entry>>)
    requires Conserves(h) && forall n :: QueuedIds(queues, n) == QueuedIds(h.s.queues, n)
    ensures Balanced(queues, h.enqueued, h.settled, h.removed)
  {
    forall n
      ensures ConservesAt(At(h.enqueued, n), h.removed, At(h.settled, n), QueuedIds(queues, n))
    {
      assert ConservesAt(At(h.enqueued, n), h.removed, At(h.settled, n), QueuedIds(h.s.queues, n));
    }
  }

  /** Settling the head of the queue whose request completed moves one id across. */
  lemma {:induction false} SettleBalances(h: History, c: Continuation, queues: map<string, seq<Entry>>)
    requires Conserves(h) && c.Sending? && ForHead(h.s, c)
    requires queues.Keys == h.s.queues.Keys && forall n :: QueuedIds(queues, n) == QueuedIds(h.s.queues, n)
    ensures Balanced(Shifted(queues, c.name), h.enqueued, h.settled[c.name := At(h.settled, c.name) + [c.entry.id]], h.removed)
  {
    var settled, shifted := h.settled[c.name := At(h.settled, c.name) + [c.entry.id]], Shifted(queues, c.name);
    assert QueuedIds(queues, c.name) == QueuedIds(h.s.queues, c.name);
    HeadId(h.s.queues[c.name], queues[c.name]);
    forall n
      ensures ConservesAt(At(h.enqueued, n), h.removed, At(settled, n), QueuedIds(shifted, n))
    {
      assert ConservesAt(At(h.enqueued, n), h.removed, At(h.settled, n), QueuedIds(h.s.queues, n));
      if n == c.name { SettleAt(At(h.enqueued, n), h.removed, At(h.settled, n), QueuedIds(queues, n)); }
    }
  }

  lemma {:induction false} HeadId(q: seq<Entry>, q': seq<Entry>)
    requires Ids(q) == Ids(q') && q != []
    ensures q' != [] && q'[0].id == q[0].id && Ids(q'[1..]) == Ids(q)[1..]
  {
    assert |Ids(q')| == |q'|;
    assert Ids(q')[0] == q'[0].id;
  }

  // ----- Every settled event has one outcome

  lemma {:induction false} SettleOne(settled: map<string, seq<nat>>, name: string, id: nat)
    ensures forall x :: IsSettled(settled[name := At(settled, name) + [id]], x) <==> IsSettled(settled, x) || x == id
  {
    var settled' := settled[name := At(settled, name) + [id]];
    assert At(settled', name)[|At(settled, name)|] == id;
    forall x | IsSettled(settled, x)
      ensures IsSettled(settled', x)
    {
      var n :| x in At(settled, n);
      assert x in At(settled', n);
    }
    forall x | IsSettled(settled', x) && x != id
      ensures IsSettled(settled, x)
    {
      var n :| x in At(settled', n);
      assert x in At(settled, n);
    }
  }

  /** An event that is still queued has not been settled. */
  lemma {:induction false} QueuedIsNotSettled(h: History, n: string, i: nat)
    requires Conserves(h) && n in h.s.queues && i < |h.s.queues[n]|
    ensures !IsSettled(h.settled, h.s.queues[n][i].id)
  {
    var id := h.s.queues[n][i].id;
    QueuedIsEnqueued(h, n, i);
    assert Ids(h.s.queues[n])[i] == id;
    if m :| id in At(h.settled, m) {
      assert ConservesAt(At(h.enqueued, m), h.removed, At(h.settled, m), QueuedIds(h.s.queues, m));
      KeptMembers(At(h.enqueued, m), h.removed);
      DistinctParts(At(h.settled, m), QueuedIds(h.s.queues, m), id);
    }
  }

  lemma {:induction false} RecordKeepsOutcomes(a: Algorithms, h: History, op: Op)
    requires Inv(h.s) && Conserves(h) && Outcomes(h) && Enabled(h.s, op)
    ensures Outcomes(Record(a, h, op))
  {
    if Settles(a, h.s, op).Some? {
      var c := h.s.pending[op.i];
      assert ForHead(h.s, c);
      QueuedIsNotSettled(h, c.name, 0);
      SettleOne(h.settled, c.name, c.entry.id);
    }
  }

  // ----- Runs

  ghost function Run(a: Algorithms, ops: seq<Op>): Option<History> {
    if ops == [] then Some(NO_HISTORY)
    else
      var before, op := Run(a, ops[..|ops| - 1]), ops[|ops| - 1];
      if before.Some? && Allowed(a, before.value.s, op) then Some(Record(a, before.value, op)) else None
  }

  /** Over every run that removes no event whose request is in flight: no queue is stranded or
      doubled, and every queued event is either still queued, settled or removed, in order. */
  lemma {:induction false} RunsConserve(a: Algorithms, ops: seq<Op>)
    requires Run(a, ops).Some?
    ensures var h := Run(a, ops).value;
            Inv(h.s) && Conserves(h) && Outcomes(h)
  {
    if ops != [] {
      RunsConserve(a, ops[..|ops| - 1]);
      var h := Run(a, ops[..|ops| - 1]).value;
      StepKeepsInv(a, h.s, ops[|ops| - 1]);
      RecordConserves(a, h, ops[|ops| - 1]);
      RecordKeepsOutcomes(a, h, ops[|ops| - 1]);
    }
  }

  /** What conservation means for one queued event: it is in exactly one place, and nothing
      enqueued after it in its queue is settled before it. */
  lemma {:induction false} InExactlyOnePlace(h: History, name: string, id: nat)
    requires Conserves(h) && Outcomes(h) && id in At(h.enqueued, name)
    ensures id in QueuedIds(h.s.queues, name) || id in h.resolved || id in h.rejected || id in h.removed
    ensures id in QueuedIds(h.s.queues, name) ==> id !in h.resolved && id !in h.rejected && id !in h.removed
    ensures id in h.removed ==> id !in h.resolved && id !in h.rejected
    ensures !(id in h.resolved && id in h.rejected)
    ensures At(h.settled, name) <= Kept(At(h.enqueued, name), h.removed)
  {
    assert ConservesAt(At(h.enqueued, name), h.removed, At(h.settled, name), QueuedIds(h.s.queues, name));
    KeptMembers(At(h.enqueued, name), h.removed);
    DistinctParts(At(h.settled, name), QueuedIds(h.s.queues, name), id);
    SettledInOwnQueue(h, name, id);
  }

  lemma {:induction false} SettledInOwnQueue(h: History, name: string, id: nat)
    requires Conserves(h) && id in At(h.enqueued, name)
    ensures IsSettled(h.settled, id) <==> id in At(h.settled, name)
  {
    if n :| id in At(h.settled, n) {
      assert ConservesAt(At(h.enqueued, n), h.removed, At(h.settled, n), QueuedIds(h.s.queues, n));
      KeptMembers(At(h.enqueued, n), h.removed);
      DistinctParts(At(h.settled, n), QueuedIds(h.s.queues, n), id);
    }
  }

  lemma {:induction false} DistinctParts(a: seq<nat>, b: seq<nat>, x: nat)
    requires Distinct(a + b)
    ensures !(x in a && x in b)
    ensures x in a + b <==> x in a || x in b
  {
    forall i, j | 0 <= i < |a| && 0 <= j < |b|
      ensures a[i] != b[j]
    {
      assert (a + b)[i] == a[i] && (a + b)[|a| + j] == b[j];
    }
  }

  // ----- The retry bound of the default algorithm

  function TotalWait(attempts: nat): int {
    1000 * (TwoTo(attempts + 1) - 2)
  }

  /** What the ordinary failures among that many attempts can have made an event wait. */
  function MostWait(attempts: nat): int {
    if attempts <= 4 then TotalWait(attempts) else 30000
  }

  ghost predicate EntryBounded(h: History, e: Entry) {
    && Tries(h, e.id) == e.attempts <= 4 + Limited(h, e.id)
    && Waited(h, e.id) <= MostWait(e.attempts)
  }

  ghost predicate QueuesBounded(h: History, queues: map<string, seq<Entry>>) {
    forall n, i :: n in queues && 0 <= i < |queues[n]| ==> EntryBounded(h, queues[n][i])
  }

  ghost predicate IdBounded(h: History, id: nat) {
    && Tries(h, id) <= 5 + Limited(h, id) && Waited(h, id) <= 30000
    && (id >= h.s.nextId ==> Tries(h, id) == 0 && Waited(h, id) == 0)
  }

  ghost predicate Bounded(h: History) {
    QueuesBounded(h, h.s.queues) && forall id :: IdBounded(h, id)
  }

  lemma {:induction false} MostWaitStep(attempts: nat)
    ensures MostWait(0) == 0 && MostWait(attempts) <= MostWait(attempts + 1) <= 30000
    ensures attempts <= 3 ==> MostWait(attempts) + 1000 * TwoTo(attempts + 1) == MostWait(attempts + 1)
  {
    assert TwoTo(1) == 2 && TwoTo(2) == 4 && TwoTo(3) == 8 && TwoTo(4) == 16 && TwoTo(5) == 32;
    if attempts <= 4 { assert attempts == 0 || attempts == 1 || attempts == 2 || attempts == 3 || attempts == 4; }
  }

  /** Ids tell the queued entries apart. */
  lemma {:induction false} QueuedOnce(h: History, m: string, i: nat, n: string, j: nat)
    requires Conserves(h) && m in h.s.queues && n in h.s.queues && i < |h.s.queues[m]| && j < |h.s.queues[n]|
    requires h.s.queues[m][i].id == h.s.queues[n][j].id
    ensures m == n && i == j
    ensures h.s.queues[m][i].id < h.s.nextId
  {
    QueuedIsEnqueued(h, m, i);
    QueuedIsEnqueued(h, n, j);
    DistinctInQueue(h, n);
    assert m == n && Ids(h.s.queues[n])[i] == Ids(h.s.queues[n])[j];
  }

  lemma {:induction false} DistinctInQueue(h: History, n: string)
    requires Conserves(h) && n in h.s.queues
    ensures Distinct(Ids(h.s.queues[n]))
  {
    assert ConservesAt(At(h.enqueued, n), h.removed, At(h.settled, n), QueuedIds(h.s.queues, n));
    KeptMembers(At(h.enqueued, n), h.removed);
    DistinctTail(At(h.settled, n), Ids(h.s.queues[n]));
  }

  lemma {:induction false} DistinctTail(a: seq<nat>, b: seq<nat>)
    requires Distinct(a + b)
    ensures Distinct(b)
  {
    forall i, j | 0 <= i < j < |b|
      ensures b[i] != b[j]
    {
      assert (a + b)[|a| + i] == b[i] && (a + b)[|a| + j] == b[j];
    }
  }

  lemma {:induction false} QueuedIsEnqueued(h: History, n: string, i: nat)
    requires Conserves(h) && n in h.s.queues && i < |h.s.queues[n]|
    ensures h.s.queues[n][i].id in At(h.enqueued, n)
  {
    assert ConservesAt(At(h.enqueued, n), h.removed, At(h.settled, n), QueuedIds(h.s.queues, n));
    KeptMembers(At(h.enqueued, n), h.removed);
    var settled, queued := At(h.settled, n), Ids(h.s.queues[n]);
    assert (settled + queued)[|settled| + i] == h.s.queues[n][i].id;
  }

  lemma {:induction false} HeadIsUnique(h: History, c: Continuation)
    requires Conserves(h) && c.Sending? && ForHead(h.s, c)
    ensures forall n, i :: n in h.s.queues && 0 <= i < |h.s.queues[n]| && h.s.queues[n][i].id == c.entry.id ==> n == c.name && i == 0
    ensures c.entry.id < h.s.nextId
  {
    forall n, i | n in h.s.queues && 0 <= i < |h.s.queues[n]| && h.s.queues[n][i].id == c.entry.id
      ensures n == c.name && i == 0
    {
      QueuedOnce(h, n, i, c.name, 0);
    }
    QueuedOnce(h, c.name, 0, c.name, 0);
  }

  lemma {:induction false} CountFailureHead(q: seq<Entry>)
    requires q != [] && forall i :: 0 < i < |q| ==> q[i].id != q[0].id
    ensures CountFailure(q, q[0].id) == [q[0].(attempts := q[0].attempts + 1)] + q[1..]
  {
    CountFailureAt(q, q[0].id);
  }

  /** A history in which one entry's request has completed; it may have been put off by the server,
      or made to wait. */
  ghost predicate Completes(h: History, h': History, e: Entry, limited: bool, wait: int) {
    && h'.tries == h.tries[e.id := Tries(h, e.id) + 1]
    && h'.limited == (if limited then h.limited[e.id := Limited(h, e.id) + 1] else h.limited)
    && h'.waited == (if wait == 0 then h.waited else h.waited[e.id := Waited(h, e.id) + wait])
    && h'.s.nextId == h.s.nextId
  }

  /** How long an ordinary failure makes an entry wait; otherwise that is not counted. */
  ghost predicate AsLong(e: Entry, limited: bool, wait: int) {
    wait == 0 || (!limited && e.attempts <= 3 && wait == 1000 * TwoTo(e.attempts + 1))
  }

  lemma {:induction false} IdsStayBounded(h: History, h': History, e: Entry, limited: bool, wait: int)
    requires (forall id :: IdBounded(h, id)) && EntryBounded(h, e) && e.id < h.s.nextId
    requires Completes(h, h', e, limited, wait) && AsLong(e, limited, wait)
    ensures forall id :: IdBounded(h', id)
  {
    MostWaitStep(e.attempts);
    forall id
      ensures IdBounded(h', id)
    {
      assert IdBounded(h, id);
    }
  }

  /** The head's request is over and it leaves the queue. */
  lemma {:induction false} SettleIsBounded(h: History, h': History, c: Continuation)
    requires Conserves(h) && QueuesBounded(h, h.s.queues) && c.Sending? && ForHead(h.s, c)
    requires Completes(h, h', c.entry, false, 0)
    ensures QueuesBounded(h', Shifted(h.s.queues, c.name))
  {
    HeadIsUnique(h, c);
    var queues := Shifted(h.s.queues, c.name);
    forall n, i | n in queues && 0 <= i < |queues[n]|
      ensures EntryBounded(h', queues[n][i])
    {
      var j := if n == c.name then i + 1 else i;
      assert queues[n][i] == h.s.queues[n][j];
      assert EntryBounded(h, h.s.queues[n][j]);
    }
  }

  /** The head's request failed and it will be tried again. */
  lemma {:induction false} RetryIsBounded(h: History, h': History, c: Continuation, q: seq<Entry>, limited: bool, wait: int)
    requires Conserves(h) && QueuesBounded(h, h.s.queues) && c.Sending? && ForHead(h.s, c)
    requires Completes(h, h', c.entry, limited, wait) && AsLong(c.entry, limited, wait) && (limited || wait > 0)
    requires q == [c.entry.(attempts := c.entry.attempts + 1)] + h.s.queues[c.name][1..]
    ensures QueuesBounded(h', h.s.queues[c.name := q])
  {
    HeadIsUnique(h, c);
    assert EntryBounded(h, h.s.queues[c.name][0]);
    MostWaitStep(c.entry.attempts);
    var queues := h.s.queues[c.name := q];
    forall n, i | n in queues && 0 <= i < |queues[n]|
      ensures EntryBounded(h', queues[n][i])
    {
      if n != c.name || i > 0 {
        assert queues[n][i] == h.s.queues[n][i];
        assert EntryBounded(h, h.s.queues[n][i]);
      }
    }
  }

  /** A failure that does not settle arms a timer for as long as the algorithm says. */
  lemma {:induction false} RetryArms(a: Algorithms, s: Sched, op: Op)
    requires Enabled(s, op) && op.Fail? && Wait(a, s, op) != -1
    ensures ArmedWait(Step(a, s, op).pending, s.pending[op.i].name) == Wait(a, s, op)
  {
    var c, pending := s.pending[op.i], Step(a, s, op).pending;
    assert pending[|pending| - 1] == Waiting(c.name, Wait(a, s, op));
  }

  lemma {:induction false} DefaultWait(a: Algorithms, s: Sched, op: Op)
    requires a == DEFAULT_ALGORITHMS && Enabled(s, op) && op.Fail?
    ensures var k := s.pending[op.i].entry.attempts + 1;
            Wait(a, s, op) == -1 || !Ordinary(op) || (k <= 4 && Wait(a, s, op) == 1000 * TwoTo(k) && Wait(a, s, op) > 0)
  {
    TwoToIsPositive(s.pending[op.i].entry.attempts + 1);
  }

  lemma {:induction false} TwoToIsPositive(n: nat)
    ensures TwoTo(n) >= 1
  {
    if n > 0 { TwoToIsPositive(n - 1); }
  }

  /** With the default algorithm, every step keeps the bound: an event's requests complete at most
      5 times, not counting those that the server put off, and back-off takes at most 30000 ms. */
  lemma {:induction false} RecordIsBounded(a: Algorithms, h: History, op: Op)
    requires a == DEFAULT_ALGORITHMS
    requires Inv(h.s) && Conserves(h) && Bounded(h) && Enabled(h.s, op)
    ensures Bounded(Record(a, h, op))
  {
    StepQueues(a, h.s, op);
    match op {
      case Succeed(i) => SuccessIsBounded(a, h, op);
      case Fail(_, _) => FailIsBounded(a, h, op);
      case _ => OthersAreBounded(a, h, op);
    }
  }

  lemma {:induction false} SuccessIsBounded(a: Algorithms, h: History, op: Op)
    requires Inv(h.s) && Conserves(h) && Bounded(h) && Enabled(h.s, op) && op.Succeed?
    ensures Bounded(Record(a, h, op))
  {
    SuccessCompletes(a, h, op);
    assert ForHead(h.s, h.s.pending[op.i]);
    SettledIsBounded(h, Record(a, h, op), h.s.pending[op.i]);
  }

  lemma {:induction false} SuccessCompletes(a: Algorithms, h: History, op: Op)
    requires Enabled(h.s, op) && op.Succeed?
    ensures Completes(h, Record(a, h, op), h.s.pending[op.i].entry, false, 0)
    ensures Record(a, h, op).s.queues == Shifted(h.s.queues, h.s.pending[op.i].name)
  {
    StepQueues(a, h.s, op);
  }

  lemma {:induction false} SettledIsBounded(h: History, h': History, c: Continuation)
    requires Conserves(h) && Bounded(h) && c.Sending? && ForHead(h.s, c)
    requires Completes(h, h', c.entry, false, 0) && h'.s.queues == Shifted(h.s.queues, c.name)
    ensures Bounded(h')
  {
    HeadIsUnique(h, c);
    assert EntryBounded(h, h.s.queues[c.name][0]);
    SettleIsBounded(h, h', c);
    IdsStayBounded(h, h', c.entry, false, 0);
  }

  lemma {:induction false} FailIsBounded(a: Algorithms, h: History, op: Op)
    requires a == DEFAULT_ALGORITHMS
    requires Inv(h.s) && Conserves(h) && Bounded(h) && Enabled(h.s, op) && op.Fail?
    requires Record(a, h, op).s.queues == QueuesAfter(a, h.s, op) && Record(a, h, op).s.nextId == h.s.nextId
    ensures Bounded(Record(a, h, op))
  {
    assert ForHead(h.s, h.s.pending[op.i]);
    FailedHead(h, op.i);
    if Wait(a, h.s, op) == -1 { GiveUpIsBounded(a, h, op); } else { TryAgainIsBounded(a, h, op); }
  }

  lemma {:induction false} GiveUpIsBounded(a: Algorithms, h: History, op: Op)
    requires Conserves(h) && Bounded(h) && Enabled(h.s, op) && op.Fail? && ForHead(h.s, h.s.pending[op.i])
    requires Wait(a, h.s, op) == -1
    requires Failed(h.s, op.i).queues == HeadFailed(h.s.queues, h.s.pending[op.i])
    requires Record(a, h, op).s.queues == QueuesAfter(a, h.s, op) && Record(a, h, op).s.nextId == h.s.nextId
    ensures Bounded(Record(a, h, op))
  {
    var c := h.s.pending[op.i];
    ShiftedTail(h.s.queues, c.name, c.entry.(attempts := c.entry.attempts + 1));
    SettledIsBounded(h, Record(a, h, op), c);
  }

  lemma {:induction false} TryAgainIsBounded(a: Algorithms, h: History, op: Op)
    requires a == DEFAULT_ALGORITHMS
    requires Conserves(h) && Bounded(h) && Enabled(h.s, op) && op.Fail? && ForHead(h.s, h.s.pending[op.i])
    requires Wait(a, h.s, op) != -1
    requires Failed(h.s, op.i).queues == HeadFailed(h.s.queues, h.s.pending[op.i])
    requires Record(a, h, op).s.queues == QueuesAfter(a, h.s, op) && Record(a, h, op).s.nextId == h.s.nextId
    ensures Bounded(Record(a, h, op))
  {
    DefaultWait(a, h.s, op);
    RetryArms(a, h.s, op);
    RetryKeepsBound(h, Record(a, h, op), h.s.pending[op.i], !Ordinary(op), if Ordinary(op) then Wait(a, h.s, op) else 0);
  }

  /** The queues after the head of c's queue has failed once more. */
  ghost function HeadFailed(queues: map<string, seq<Entry>>, c: Continuation): map<string, seq<Entry>>
    requires c.Sending? && c.name in queues && queues[c.name] != []
  {
    queues[c.name := [c.entry.(attempts := c.entry.attempts + 1)] + queues[c.name][1..]]
  }

  lemma {:induction false} FailedHead(h: History, i: nat)
    requires Conserves(h) && i < |h.s.pending| && h.s.pending[i].Sending? && ForHead(h.s, h.s.pending[i])
    ensures Failed(h.s, i).queues == HeadFailed(h.s.queues, h.s.pending[i])
  {
    HeadIsUnique(h, h.s.pending[i]);
    CountFailureHead(h.s.queues[h.s.pending[i].name]);
  }

  lemma {:induction false} RetryKeepsBound(h: History, h': History, c: Continuation, limited: bool, wait: int)
    requires Conserves(h) && Bounded(h) && c.Sending? && ForHead(h.s, c)
    requires Completes(h, h', c.entry, limited, wait) && AsLong(c.entry, limited, wait) && (limited || wait > 0)
    requires h'.s.queues == HeadFailed(h.s.queues, c)
    ensures Bounded(h')
  {
    HeadIsUnique(h, c);
    assert EntryBounded(h, h.s.queues[c.name][0]);
    RetryIsBounded(h, h', c, h'.s.queues[c.name], limited, wait);
    IdsStayBounded(h, h', c.entry, limited, wait);
  }

  lemma {:induction false} ShiftedTail(queues: map<string, seq<Entry>>, name: string, head: Entry)
    requires name in queues && queues[name] != []
    ensures Shifted(queues[name := [head] + queues[name][1..]], name) == Shifted(queues, name)
  {
    assert ([head] + queues[name][1..])[1..] == queues[name][1..];
  }

  lemma {:induction false} OthersAreBounded(a: Algorithms, h: History, op: Op)
    requires Bounded(h) && Enabled(h.s, op) && !op.Succeed? && !op.Fail?
    requires Record(a, h, op).s.queues == QueuesAfter(a, h.s, op)
    requires Record(a, h, op).s.nextId == if op.Enqueue? && QueueName(a, op.event).Some? then h.s.nextId + 1 else h.s.nextId
    ensures Bounded(Record(a, h, op))
  {
    var h' := Record(a, h, op);
    forall id
      ensures IdBounded(h', id)
    {
      assert IdBounded(h, id);
    }
    forall n, i | n in h'.s.queues && 0 <= i < |h'.s.queues[n]|
      ensures EntryBounded(h', h'.s.queues[n][i])
    {
      SameOrNew(a, h.s, op, n, i);
      var e := h'.s.queues[n][i];
      if e == Entry(h.s.nextId, e.event, 0) {
        assert IdBounded(h, e.id);
        MostWaitStep(0);
      } else {
        var j :| 0 <= j < |h.s.queues[n]| && h.s.queues[n][j] == e;
        assert EntryBounded(h, h.s.queues[n][j]);
      }
    }
  }

  lemma {:induction false} SameOrNew(a: Algorithms, s: Sched, op: Op, n: string, i: nat)
    requires Enabled(s, op) && !op.Succeed? && !op.Fail?
    requires n in QueuesAfter(a, s, op) && i < |QueuesAfter(a, s, op)[n]|
    ensures var e := QueuesAfter(a, s, op)[n][i];
            e == Entry(s.nextId, e.event, 0) || (n in s.queues && exists j :: 0 <= j < |s.queues[n]| && s.queues[n][j] == e)
  {
    if op.Remove? {
      var q := s.queues[n];
      var k := IndexOfEvent(q, op.event.eventId);
      if QueueName(a, op.event) == Some(n) && k < |q| && i >= k {
        assert DropAt(q, k)[i] == q[i + 1];
      } else {
        assert QueuesAfter(a, s, op)[n][i] == q[i];
      }
    }
  }

  ghost predicate OrdinaryRun(ops: seq<Op>) {
    forall i :: 0 <= i < |ops| ==> Ordinary(ops[i])
  }

  /** Over every run with the default algorithm, at most 5 requests are made for an event, the one in
      flight included, on top of those that the server put off with a positive retry_after_ms; and
      its other retries wait at most 30000 ms in all. */
  lemma {:induction false} RetriesAreBounded(ops: seq<Op>, id: nat)
    requires Run(DEFAULT_ALGORITHMS, ops).Some?
    ensures var h := Run(DEFAULT_ALGORITHMS, ops).value;
            && Tries(h, id) + (if InFlight(h.s, id) then 1 else 0) <= 5 + Limited(h, id)
            && Waited(h, id) <= 30000
            && (OrdinaryRun(ops) ==> Limited(h, id) == 0)
  {
    RunsAreBounded(ops);
    RunsConserve(DEFAULT_ALGORITHMS, ops);
    var h := Run(DEFAULT_ALGORITHMS, ops).value;
    assert IdBounded(h, id);
    if InFlight(h.s, id) {
      var i :| 0 <= i < |h.s.pending| && h.s.pending[i].Sending? && h.s.pending[i].entry.id == id;
      var c := h.s.pending[i];
      assert ForHead(h.s, c);
      assert EntryBounded(h, h.s.queues[c.name][0]);
    }
    if OrdinaryRun(ops) { OrdinaryIsNotLimited(ops); }
  }

  lemma {:induction false} OrdinaryIsNotLimited(ops: seq<Op>)
    requires Run(DEFAULT_ALGORITHMS, ops).Some? && OrdinaryRun(ops)
    ensures Run(DEFAULT_ALGORITHMS, ops).value.limited == map[]
  {
    if ops != [] {
      OrdinaryIsNotLimited(ops[..|ops| - 1]);
      assert Ordinary(ops[|ops| - 1]);
    }
  }

  ghost predicate InFlight(s: Sched, id: nat) {
    exists i :: 0 <= i < |s.pending| && s.pending[i].Sending? && s.pending[i].entry.id == id
  }

  lemma {:induction false} RunsAreBounded(ops: seq<Op>)
    requires Run(DEFAULT_ALGORITHMS, ops).Some?
    ensures Bounded(Run(DEFAULT_ALGORITHMS, ops).value)
  {
    if ops == [] {
      assert forall id :: IdBounded(NO_HISTORY, id);
    } else {
      var before, op := ops[..|ops| - 1], ops[|ops| - 1];
      RunsAreBounded(before);
      RunsConserve(DEFAULT_ALGORITHMS, before);
      RecordIsBounded(DEFAULT_ALGORITHMS, Run(DEFAULT_ALGORITHMS, before).value, op);
    }
  }

  // ----- Removing the event whose request is in flight

  /** In any reachable state, a removal keeps the invariant exactly when it does not take the entry
      whose request is in flight. */
  lemma {:induction false} RemoveKeepsInvIff(a: Algorithms, h: History, event: Event)
    requires Inv(h.s) && Conserves(h)
    ensures Inv(Step(a, h.s, Remove(event))) <==> SafeRemove(a, h.s, event)
  {
    if SafeRemove(a, h.s, event) {
      RemoveKeeps(a, h.s, event);
    } else {
      var name := QueueName(a, event).value;
      var q := h.s.queues[name];
      var i :| 0 <= i < |h.s.pending| && h.s.pending[i].Sending? && h.s.pending[i].name == name && IndexOfEvent(q, event.eventId) == 0;
      assert ForHead(h.s, h.s.pending[i]);
      HeadIsUnique(h, h.s.pending[i]);
      var s' := Step(a, h.s, Remove(event));
      RemoveHead(a, h.s, event, name);
      assert !ForHead(s', s'.pending[i]);
    }
  }

  lemma {:induction false} RemoveHead(a: Algorithms, s: Sched, event: Event, name: string)
    requires QueueName(a, event) == Some(name) && name in s.queues && s.queues[name] != []
    requires IndexOfEvent(s.queues[name], event.eventId) == 0
    ensures Step(a, s, Remove(event)) == s.(queues := s.queues[name := s.queues[name][1..]])
  {
    assert s.queues[name][..0] + s.queues[name][1..] == s.queues[name][1..];
  }

  /** What goes wrong otherwise: when the removed event's request succeeds, the event behind it is
      lost. It has been enqueued, and is neither queued nor resolved nor rejected nor removed. */
  lemma {:induction false} RemovalInFlightLosesNext(a: Algorithms, h: History, event: Event, i: nat)
    requires Inv(h.s) && Conserves(h) && Outcomes(h) && LosesNext(a, h.s, event, i)
    ensures var name, lost := h.s.pending[i].name, h.s.queues[h.s.pending[i].name][1].id;
            var h' := Record(a, Record(a, h, Remove(event)), Succeed(i));
            && lost in At(h'.enqueued, name) && lost !in QueuedIds(h'.s.queues, name)
            && lost !in h'.resolved && lost !in h'.rejected && lost !in h'.removed
  {
    LostQueue(a, h.s, event, i);
    SecondIsAlone(h, h.s.pending[i].name);
  }

  lemma {:induction false} LostQueue(a: Algorithms, s: Sched, event: Event, i: nat)
    requires Inv(s) && LosesNext(a, s, event, i)
    ensures ForHead(s, s.pending[i])
    ensures var name, s1 := s.pending[i].name, Step(a, s, Remove(event));
            && s1.pending == s.pending && Enabled(s1, Succeed(i))
            && Removes(a, s, Remove(event)) == Some(s.queues[name][0].id)
            && name in Step(a, s1, Succeed(i)).queues && Step(a, s1, Succeed(i)).queues[name] == s.queues[name][2..]
  {
    var name := s.pending[i].name;
    assert ForHead(s, s.pending[i]);
    RemoveHead(a, s, event, name);
    StepQueues(a, Step(a, s, Remove(event)), Succeed(i));
    assert s.queues[name][1..][1..] == s.queues[name][2..];
  }

  /** The removal takes the entry whose request is pending[i], and there is another one behind it. */
  ghost predicate LosesNext(a: Algorithms, s: Sched, event: Event, i: nat) {
    && Enabled(s, Succeed(i)) && QueueName(a, event) == Some(s.pending[i].name) && s.pending[i].name in s.queues
    && |s.queues[s.pending[i].name]| >= 2 && IndexOfEvent(s.queues[s.pending[i].name], event.eventId) == 0
  }

  lemma {:induction false} SecondIsAlone(h: History, name: string)
    requires Conserves(h) && Outcomes(h) && name in h.s.queues && |h.s.queues[name]| >= 2
    ensures var q, lost := h.s.queues[name], h.s.queues[name][1].id;
            && lost in At(h.enqueued, name) && lost != q[0].id && lost !in Ids(q[2..])
            && lost !in h.resolved && lost !in h.rejected && lost !in h.removed
  {
    var q := h.s.queues[name];
    QueuedIsEnqueued(h, name, 1);
    assert Ids(q)[1] == q[1].id;
    InExactlyOnePlace(h, name, q[1].id);
    forall j | 0 <= j < |q| && q[j].id == q[1].id
      ensures j == 1
    {
      QueuedOnce(h, name, j, name, 1);
    }
  }

  const FIRST := Event("$1", "m.room.message", false)
  const SECOND := Event("$2", "m.room.message", false)
  const TWO_QUEUED := [SetProc(true), Enqueue(FIRST), Enqueue(SECOND)]

  const ONE_SENT := Sched(map["message" := [Entry(0, FIRST, 0)]], ["message"], ["message"], true,
                          [Sending("message", Entry(0, FIRST, 0))], 1)
  const TWO_THERE := ONE_SENT.(queues := map["message" := [Entry(0, FIRST, 0), Entry(1, SECOND, 0)]], nextId := 2)

  lemma {:induction false} OneQueue(s: Sched)
    requires s.names == ["message"] && s.hasProc
    ensures StartProcessing(s) == if "message" !in s.active && QueueOf(s, "message") != [] then StartOne(s, "message") else s
  {
    var names := ["message"];
    assert names[..0] == [] && Inactive(s, []) == [];
    assert Inactive(s, names) == Inactive(s, names[..0]) + if "message" !in s.active && QueueOf(s, "message") != [] then names else [];
    assert StartAll(s, []) == s && StartAll(s, names) == StartOne(StartAll(s, names[..0]), names[0]);
  }

  lemma {:induction false} FirstIsSent()
    ensures Step(DEFAULT_ALGORITHMS, INITIAL.(hasProc := true), Enqueue(FIRST)) == ONE_SENT
  {
    var s := Push(INITIAL.(hasProc := true), "message", FIRST);
    assert QueueOf(INITIAL.(hasProc := true), "message") + [Entry(0, FIRST, 0)] == [Entry(0, FIRST, 0)];
    assert s.queues == map["message" := [Entry(0, FIRST, 0)]];
    OneQueue(s);
  }

  lemma {:induction false} SecondWaits()
    ensures Step(DEFAULT_ALGORITHMS, ONE_SENT, Enqueue(SECOND)) == TWO_THERE
  {
    var s := Push(ONE_SENT, "message", SECOND);
    assert QueueOf(ONE_SENT, "message") + [Entry(1, SECOND, 0)] == [Entry(0, FIRST, 0), Entry(1, SECOND, 0)];
    assert s.queues == map["message" := [Entry(0, FIRST, 0), Entry(1, SECOND, 0)]];
    OneQueue(s);
  }

  lemma {:induction false} RunSnoc(a: Algorithms, ops: seq<Op>, op: Op)
    requires Run(a, ops).Some? && Allowed(a, Run(a, ops).value.s, op)
    ensures Run(a, ops + [op]).Some? && Run(a, ops + [op]).value.s == Step(a, Run(a, ops).value.s, op)
  {
    assert (ops + [op])[..|ops|] == ops;
  }

  lemma {:induction false} ProcIsSet()
    ensures Run(DEFAULT_ALGORITHMS, [SetProc(true)]).Some?
    ensures Run(DEFAULT_ALGORITHMS, [SetProc(true)]).value.s == INITIAL.(hasProc := true)
  {
    NothingToStart();
    RunSnoc(DEFAULT_ALGORITHMS, [], SetProc(true));
    assert [] + [SetProc(true)] == [SetProc(true)];
  }

  lemma {:induction false} NothingToStart()
    ensures Step(DEFAULT_ALGORITHMS, INITIAL, SetProc(true)) == INITIAL.(hasProc := true)
  {
    assert Inactive(INITIAL.(hasProc := true), []) == [];
  }

  lemma {:induction false} FirstIsQueued()
    ensures Run(DEFAULT_ALGORITHMS, [SetProc(true), Enqueue(FIRST)]).Some?
    ensures Run(DEFAULT_ALGORITHMS, [SetProc(true), Enqueue(FIRST)]).value.s == ONE_SENT
  {
    ProcIsSet();
    FirstIsSent();
    RunSnoc(DEFAULT_ALGORITHMS, [SetProc(true)], Enqueue(FIRST));
    assert [SetProc(true)] + [Enqueue(FIRST)] == [SetProc(true), Enqueue(FIRST)];
  }

  /** Such a state is reached by queueing two messages. */
  lemma {:induction false} LossIsReachable()
    ensures Run(DEFAULT_ALGORITHMS, TWO_QUEUED).Some?
    ensures Run(DEFAULT_ALGORITHMS, TWO_QUEUED).value.s == TWO_THERE
  {
    FirstIsQueued();
    SecondWaits();
    RunSnoc(DEFAULT_ALGORITHMS, [SetProc(true), Enqueue(FIRST)], Enqueue(SECOND));
    assert [SetProc(true), Enqueue(FIRST)] + [Enqueue(SECOND)] == TWO_QUEUED;
  }

  lemma {:induction false} FirstOfTwoLosesNext()
    ensures LosesNext(DEFAULT_ALGORITHMS, TWO_THERE, FIRST, 0)
  {
  }

  /** The concrete run: the second message is lost. */
  lemma {:induction false} SecondMessageIsLost()
    ensures Run(DEFAULT_ALGORITHMS, TWO_QUEUED).Some?
    ensures var a, h := DEFAULT_ALGORITHMS, Run(DEFAULT_ALGORITHMS, TWO_QUEUED).value;
            && Enabled(h.s, Remove(FIRST)) && Enabled(Record(a, h, Remove(FIRST)).s, Succeed(0))
            && var h' := Record(a, Record(a, h, Remove(FIRST)), Succeed(0));
            && 1 in At(h'.enqueued, "message") && 1 !in QueuedIds(h'.s.queues, "message")
            && 1 !in h'.resolved && 1 !in h'.rejected && 1 !in h'.removed
  {
    LossIsReachable();
    FirstOfTwoLosesNext();
    RunsConserve(DEFAULT_ALGORITHMS, TWO_QUEUED);
    var h := Run(DEFAULT_ALGORITHMS, TWO_QUEUED).value;
    RemoveHead(DEFAULT_ALGORITHMS, h.s, FIRST, "message");
    RemovalInFlightLosesNext(DEFAULT_ALGORITHMS, h, FIRST, 0);
  }
}
