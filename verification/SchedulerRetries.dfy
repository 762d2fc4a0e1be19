/** What is sent, and what comes of every failure (src/scheduler.ts:66-110, 175-268), in terms of the
    events that were queued and of the timers that are armed. */
module SchedulerRetries {
  import opened Common
  import opened Scheduler
  import opened SchedulerRuns

  // ----- Entries carry what was queued

  /** The entry carries the event that was queued under its id, in the event's own queue, and counts
      the requests that have completed for it. */
  ghost predicate EntryTrue(a: Algorithms, h: History, n: string, e: Entry) {
    && e.id in h.events && h.events[e.id] == e.event && QueueName(a, e.event) == Some(n)
    && e.attempts == Tries(h, e.id)
  }

  ghost predicate QueuesTrue(a: Algorithms, h: History, queues: map<string, seq<Entry>>) {
    forall n, i :: n in queues && 0 <= i < |queues[n]| ==> EntryTrue(a, h, n, queues[n][i])
  }

  ghost predicate NewAreUntried(h: History) {
    forall id: nat :: id >= h.s.nextId ==> Tries(h, id) == 0
  }

  ghost predicate AllTrue(a: Algorithms, h: History) {
    QueuesTrue(a, h, h.s.queues) && NewAreUntried(h)
  }

  /** One request has completed, for the entry c.entry. */
  ghost predicate Tried(h: History, h': History, c: Continuation) {
    && c.Sending? && h'.tries == h.tries[c.entry.id := Tries(h, c.entry.id) + 1]
    && h'.events == h.events && h'.s.nextId == h.s.nextId
  }

  lemma {:induction false} OthersStayTrue(a: Algorithms, h: History, h': History, c: Continuation, n: string, i: nat)
    requires Conserves(h) && AllTrue(a, h) && Tried(h, h', c) && ForHead(h.s, c)
    requires n in h.s.queues && i < |h.s.queues[n]| && (n != c.name || i > 0)
    ensures EntryTrue(a, h', n, h.s.queues[n][i])
  {
    HeadIsUnique(h, c);
    assert EntryTrue(a, h, n, h.s.queues[n][i]);
  }

  lemma {:induction false} NewStayUntried(h: History, h': History, c: Continuation)
    requires Conserves(h) && NewAreUntried(h) && Tried(h, h', c) && ForHead(h.s, c)
    ensures NewAreUntried(h')
  {
    HeadIsUnique(h, c);
    forall id: nat | id >= h'.s.nextId
      ensures Tries(h', id) == 0
    {
      assert Tries(h, id) == 0;
    }
  }

  lemma {:induction false} SettledStaysTrue(a: Algorithms, h: History, h': History, c: Continuation)
    requires Conserves(h) && AllTrue(a, h) && Tried(h, h', c) && ForHead(h.s, c)
    requires h'.s.queues == Shifted(h.s.queues, c.name)
    ensures AllTrue(a, h')
  {
    NewStayUntried(h, h', c);
    forall n, i | n in h'.s.queues && 0 <= i < |h'.s.queues[n]|
      ensures EntryTrue(a, h', n, h'.s.queues[n][i])
    {
      OthersStayTrue(a, h, h', c, n, if n == c.name then i + 1 else i);
    }
  }

  lemma {:induction false} RetriedStaysTrue(a: Algorithms, h: History, h': History, c: Continuation)
    requires Conserves(h) && AllTrue(a, h) && Tried(h, h', c) && ForHead(h.s, c)
    requires h'.s.queues == HeadFailed(h.s.queues, c)
    ensures AllTrue(a, h')
  {
    NewStayUntried(h, h', c);
    assert EntryTrue(a, h, c.name, h.s.queues[c.name][0]);
    forall n, i | n in h'.s.queues && 0 <= i < |h'.s.queues[n]|
      ensures EntryTrue(a, h', n, h'.s.queues[n][i])
    {
      if n != c.name || i > 0 { OthersStayTrue(a, h, h', c, n, i); }
    }
  }

  lemma {:induction false} RestStaysTrue(a: Algorithms, h: History, op: Op)
    requires Conserves(h) && AllTrue(a, h) && Enabled(h.s, op) && !op.Succeed? && !op.Fail?
    ensures AllTrue(a, Record(a, h, op))
  {
    var h' := Record(a, h, op);
    StepQueues(a, h.s, op);
    forall id: nat | id >= h'.s.nextId
      ensures Tries(h', id) == 0
    {
      assert Tries(h, id) == 0;
    }
    forall n, i | n in h'.s.queues && 0 <= i < |h'.s.queues[n]|
      ensures EntryTrue(a, h', n, h'.s.queues[n][i])
    {
      OldOrQueued(a, h.s, op, n, i);
      var e := h'.s.queues[n][i];
      if n in h.s.queues && e in h.s.queues[n] {
        var j :| 0 <= j < |h.s.queues[n]| && h.s.queues[n][j] == e;
        assert EntryTrue(a, h, n, h.s.queues[n][j]);
        QueuedOnce(h, n, j, n, j);
      } else {
        assert Tries(h, h.s.nextId) == 0;
      }
    }
  }

  /** An entry in a queue was there before, or is the one that has just been queued. */
  lemma {:induction false} OldOrQueued(a: Algorithms, s: Sched, op: Op, n: string, i: nat)
    requires Enabled(s, op) && !op.Succeed? && !op.Fail?
    requires n in QueuesAfter(a, s, op) && i < |QueuesAfter(a, s, op)[n]|
    ensures var e := QueuesAfter(a, s, op)[n][i];
            || (n in s.queues && e in s.queues[n])
            || (op.Enqueue? && QueueName(a, op.event) == Some(n) && e == Entry(s.nextId, op.event, 0))
  {
    if op.Enqueue? && QueueName(a, op.event) == Some(n) {
      var q := QueueOf(s, n);
      if i < |q| { assert s.queues[n][i] == QueuesAfter(a, s, op)[n][i]; }
    } else if op.Remove? {
      KeptOnRemoval(a, s, op.event, n, i);
    } else {
      assert s.queues[n][i] == QueuesAfter(a, s, op)[n][i];
    }
  }

  lemma {:induction false} KeptOnRemoval(a: Algorithms, s: Sched, event: Event, n: string, i: nat)
    requires n in Step(a, s, Remove(event)).queues && i < |Step(a, s, Remove(event)).queues[n]|
    ensures n in s.queues && Step(a, s, Remove(event)).queues[n][i] in s.queues[n]
  {
    var q := s.queues[n];
    if QueueName(a, event) == Some(n) {
      DropIn(q, IndexOfEvent(q, event.eventId), i);
    } else {
      assert q[i] == Step(a, s, Remove(event)).queues[n][i];
    }
  }

  lemma {:induction false} DropIn(q: seq<Entry>, k: nat, i: nat)
    requires i < |DropAt(q, k)|
    ensures DropAt(q, k)[i] in q
  {
    assert DropAt(q, k)[i] == q[if k < |q| && i >= k then i + 1 else i];
  }

  lemma {:induction false} FailStaysTrue(a: Algorithms, h: History, op: Op)
    requires Inv(h.s) && Conserves(h) && AllTrue(a, h) && Enabled(h.s, op) && op.Fail?
    ensures AllTrue(a, Record(a, h, op))
  {
    var c := h.s.pending[op.i];
    assert ForHead(h.s, c);
    RequestTried(a, h, op);
    QueuesAfterFailure(a, h, op);
    if Wait(a, h.s, op) == -1 {
      SettledStaysTrue(a, h, Record(a, h, op), c);
    } else {
      RetriedStaysTrue(a, h, Record(a, h, op), c);
    }
  }

  lemma {:induction false} QueuesAfterFailure(a: Algorithms, h: History, op: Op)
    requires Conserves(h) && Enabled(h.s, op) && op.Fail? && ForHead(h.s, h.s.pending[op.i])
    ensures var c := h.s.pending[op.i];
            Record(a, h, op).s.queues == if Wait(a, h.s, op) == -1 then Shifted(h.s.queues, c.name) else HeadFailed(h.s.queues, c)
  {
    var c := h.s.pending[op.i];
    StepQueues(a, h.s, op);
    FailedHead(h, op.i);
    ShiftedTail(h.s.queues, c.name, c.entry.(attempts := c.entry.attempts + 1));
  }

  lemma {:induction false} SuccessStaysTrue(a: Algorithms, h: History, op: Op)
    requires Inv(h.s) && Conserves(h) && AllTrue(a, h) && Enabled(h.s, op) && op.Succeed?
    ensures AllTrue(a, Record(a, h, op))
  {
    assert ForHead(h.s, h.s.pending[op.i]);
    QueuesAreSettled(a, h, op);
    RequestTried(a, h, op);
    SettledStaysTrue(a, h, Record(a, h, op), h.s.pending[op.i]);
  }

  lemma {:induction false} QueuesAreSettled(a: Algorithms, h: History, op: Op)
    requires Enabled(h.s, op) && op.Succeed?
    ensures Record(a, h, op).s.queues == Shifted(h.s.queues, h.s.pending[op.i].name)
  {
    StepQueues(a, h.s, op);
  }

  lemma {:induction false} RequestTried(a: Algorithms, h: History, op: Op)
    requires Enabled(h.s, op) && (op.Succeed? || op.Fail?)
    ensures Tried(h, Record(a, h, op), h.s.pending[op.i])
  {
    StepQueues(a, h.s, op);
  }

  lemma {:induction false} RecordStaysTrue(a: Algorithms, h: History, op: Op)
    requires Inv(h.s) && Conserves(h) && AllTrue(a, h) && Enabled(h.s, op)
    ensures AllTrue(a, Record(a, h, op))
  {
    if op.Succeed? {
      SuccessStaysTrue(a, h, op);
    } else if op.Fail? {
      FailStaysTrue(a, h, op);
    } else {
      RestStaysTrue(a, h, op);
    }
  }

  lemma {:induction false} RunsStayTrue(a: Algorithms, ops: seq<Op>)
    requires Run(a, ops).Some?
    ensures AllTrue(a, Run(a, ops).value)
  {
    if ops != [] {
      RunsStayTrue(a, ops[..|ops| - 1]);
      RunsConserve(a, ops[..|ops| - 1]);
      RecordStaysTrue(a, Run(a, ops[..|ops| - 1]).value, ops[|ops| - 1]);
    }
  }

  /** Over every run, what is being sent is the event that was queued under that id: the one that has
      waited longest in its own queue, with as many attempts as requests have completed for it. */
  lemma {:induction false} WhatIsSent(a: Algorithms, ops: seq<Op>, i: nat)
    requires Run(a, ops).Some? && i < |Run(a, ops).value.s.pending| && Run(a, ops).value.s.pending[i].Sending?
    ensures var h := Run(a, ops).value;
            var c := h.s.pending[i];
            && QueueOf(h.s, c.name) != [] && c.entry == QueueOf(h.s, c.name)[0]
            && c.entry.id in At(h.enqueued, c.name) && EntryTrue(a, h, c.name, c.entry)
  {
    var h := Run(a, ops).value;
    RunsStayTrue(a, ops);
    RunsConserve(a, ops);
    assert ForHead(h.s, h.s.pending[i]);
    QueuedIsEnqueued(h, h.s.pending[i].name, 0);
    assert EntryTrue(a, h, h.s.pending[i].name, h.s.queues[h.s.pending[i].name][0]);
  }

  // ----- What comes of a failure

  /** The queue has nothing outstanding but a timer of that many milliseconds. */
  ghost predicate OnlyWaits(pending: seq<Continuation>, name: string, ms: int) {
    && Waiting(name, ms) in pending
    && forall c :: c in pending && c.name == name ==> c == Waiting(name, ms)
  }

  ghost predicate NeverWaits(pending: seq<Continuation>, name: string) {
    forall c :: c in pending && c.name == name ==> c.Sending?
  }

  /** After a failure the queue waits for exactly as long as the algorithm says, which is asked with
      the event, the number of attempts with this one, and the error; or it does not wait at all. */
  lemma {:induction false} FailureArms(a: Algorithms, s: Sched, op: Op)
    requires Inv(s) && Enabled(s, op) && op.Fail?
    ensures var c := s.pending[op.i];
            var ms := a.retry(c.entry.event, c.entry.attempts + 1, op.err);
            if ms == -1 then NeverWaits(Step(a, s, op).pending, c.name) else OnlyWaits(Step(a, s, op).pending, c.name, ms)
  {
    var c, rest, pending := s.pending[op.i], DropAt(s.pending, op.i), Step(a, s, op).pending;
    DropContinuation(s.pending, op.i);
    if Wait(a, s, op) == -1 {
      assert forall x :: x in pending && x !in rest ==> x.Sending?;
    } else {
      assert pending == rest + [Waiting(c.name, Wait(a, s, op))];
    }
  }

  predicate Hopeless(err: SendError) {
    err.httpStatus in {400, 401, 403} || err.cors == "rejected" || err.name == "M_TOO_LARGE"
  }

  predicate IsPutOff(err: SendError) {
    err.name == "M_LIMIT_EXCEEDED" && err.retryAfterMs > 0
  }

  /** With the default algorithm, over every run: a failure of the k-th request for an event gives up
      at once if trying again is hopeless; waits exactly as long as a rate limit asks; and otherwise
      waits 2, 4, 8 and 16 seconds after the first four, and gives up after that. */
  lemma {:induction false} WhatComesOfFailure(ops: seq<Op>, i: nat, err: SendError)
    requires Run(DEFAULT_ALGORITHMS, ops).Some? && Enabled(Run(DEFAULT_ALGORITHMS, ops).value.s, Fail(i, err))
    ensures var h := Run(DEFAULT_ALGORITHMS, ops).value;
            var c, k := h.s.pending[i], Tries(h, h.s.pending[i].entry.id) + 1;
            Comes(Record(DEFAULT_ALGORITHMS, h, Fail(i, err)), c, k, err)
  {
    RunsConserve(DEFAULT_ALGORITHMS, ops);
    WhatIsSent(DEFAULT_ALGORITHMS, ops, i);
    FailureComes(Run(DEFAULT_ALGORITHMS, ops).value, i, err);
  }

  lemma {:induction false} FailureComes(h: History, i: nat, err: SendError)
    requires Inv(h.s) && Conserves(h) && Outcomes(h) && Enabled(h.s, Fail(i, err))
    ensures Comes(Record(DEFAULT_ALGORITHMS, h, Fail(i, err)), h.s.pending[i], h.s.pending[i].entry.attempts + 1, err)
  {
    var a, op := DEFAULT_ALGORITHMS, Fail(i, err);
    DefaultRetries(h.s.pending[i].entry.event, h.s.pending[i].entry.attempts + 1, err);
    if Wait(a, h.s, op) == -1 { GivesUp(a, h, op); } else { StaysQueued(a, h, op); }
  }

  /** What has come, in h, of a failure of the k-th request for c.entry. */
  ghost predicate Comes(h: History, c: Continuation, k: nat, err: SendError)
    requires c.Sending?
  {
    if Hopeless(err) || (!IsPutOff(err) && k >= 5) then IsGivenUp(h, c)
    else WaitsQueued(h, c, if IsPutOff(err) then err.retryAfterMs else BackOff(k))
  }

  /** The event is rejected and out of its queue, which does not wait. */
  ghost predicate IsGivenUp(h: History, c: Continuation)
    requires c.Sending?
  {
    c.entry.id in h.rejected && c.entry.id !in QueuedIds(h.s.queues, c.name) && NeverWaits(h.s.pending, c.name)
  }

  /** The event is still in its queue, which waits for that long. */
  ghost predicate WaitsQueued(h: History, c: Continuation, ms: int)
    requires c.Sending?
  {
    c.entry.id in QueuedIds(h.s.queues, c.name) && OnlyWaits(h.s.pending, c.name, ms)
  }

  function BackOff(k: nat): int {
    if k == 1 then 2000 else if k == 2 then 4000 else if k == 3 then 8000 else 16000
  }

  lemma {:induction false} DefaultRetries(event: Event, k: nat, err: SendError)
    requires k >= 1
    ensures var ms := DEFAULT_ALGORITHMS.retry(event, k, err);
            if Hopeless(err) || (!IsPutOff(err) && k >= 5) then ms == -1
            else ms == (if IsPutOff(err) then err.retryAfterMs else BackOff(k)) && ms != -1
  {
    assert TwoTo(1) == 2 && TwoTo(2) == 4 && TwoTo(3) == 8 && TwoTo(4) == 16;
  }

  lemma {:induction false} GivesUp(a: Algorithms, h: History, op: Op)
    requires Inv(h.s) && Conserves(h) && Outcomes(h) && Enabled(h.s, op) && op.Fail? && Wait(a, h.s, op) == -1
    ensures IsGivenUp(Record(a, h, op), h.s.pending[op.i])
  {
    ArmsNothing(a, h, op);
    LeavesQueue(a, h, op);
  }

  lemma {:induction false} ArmsNothing(a: Algorithms, h: History, op: Op)
    requires Inv(h.s) && Enabled(h.s, op) && op.Fail? && Wait(a, h.s, op) == -1
    ensures NeverWaits(Record(a, h, op).s.pending, h.s.pending[op.i].name)
  {
    FailureArms(a, h.s, op);
  }

  lemma {:induction false} LeavesQueue(a: Algorithms, h: History, op: Op)
    requires Inv(h.s) && Conserves(h) && Outcomes(h) && Enabled(h.s, op) && op.Fail? && Wait(a, h.s, op) == -1
    ensures var c, h' := h.s.pending[op.i], Record(a, h, op);
            c.entry.id in h'.rejected && c.entry.id !in QueuedIds(h'.s.queues, c.name)
  {
    IsRejected(a, h, op);
    RecordConserves(a, h, op);
    RecordKeepsOutcomes(a, h, op);
    RejectedIsNotQueued(Record(a, h, op), h.s.pending[op.i].name, h.s.pending[op.i].entry.id);
  }

  lemma {:induction false} IsRejected(a: Algorithms, h: History, op: Op)
    requires Inv(h.s) && Conserves(h) && Enabled(h.s, op) && op.Fail? && Wait(a, h.s, op) == -1
    ensures var c, h' := h.s.pending[op.i], Record(a, h, op); c.entry.id in At(h'.enqueued, c.name) && c.entry.id in h'.rejected
  {
    assert ForHead(h.s, h.s.pending[op.i]);
    QueuedIsEnqueued(h, h.s.pending[op.i].name, 0);
  }

  lemma {:induction false} RejectedIsNotQueued(h: History, name: string, id: nat)
    requires Conserves(h) && Outcomes(h) && id in At(h.enqueued, name) && id in h.rejected
    ensures id !in QueuedIds(h.s.queues, name)
  {
    InExactlyOnePlace(h, name, id);
  }

  lemma {:induction false} StaysQueued(a: Algorithms, h: History, op: Op)
    requires Inv(h.s) && Enabled(h.s, op) && op.Fail? && Wait(a, h.s, op) != -1
    ensures WaitsQueued(Record(a, h, op), h.s.pending[op.i], Wait(a, h.s, op))
  {
    FailureArms(a, h.s, op);
    var c := h.s.pending[op.i];
    StepQueues(a, h.s, op);
    FailKeepsIds(h.s, op.i);
    assert Ids(h.s.queues[c.name])[0] == c.entry.id;
  }

  // ----- Which events are queued, and whether they are sent

  /** With the default algorithm, room messages and events that associate with another one go to the
      one queue, and all others are not queued. */
  lemma {:induction false} DefaultQueues(event: Event)
    ensures QueueName(DEFAULT_ALGORITHMS, event) ==
            if event.kind == "m.room.message" || event.hasAssociation then Some("message") else None
  {
  }

  lemma {:induction false} StartKeepsProc(s: Sched, ns: seq<string>)
    ensures StartAll(s, ns).hasProc == s.hasProc
  {
    if ns != [] { StartKeepsProc(s, ns[..|ns| - 1]); }
  }

  /** Over every run there is a process function exactly when the last one given was one. */
  lemma {:induction false} ProcIsLastGiven(a: Algorithms, ops: seq<Op>, i: nat)
    requires Run(a, ops).Some?
    requires i < |ops| && ops[i].SetProc? && forall j :: i < j < |ops| ==> !ops[j].SetProc?
    ensures Run(a, ops).value.s.hasProc == ops[i].given
  {
    var n := |ops| - 1;
    var s := Run(a, ops[..n]).value.s;
    if i < n {
      assert ops[..n][i] == ops[i];
      ProcIsLastGiven(a, ops[..n], i);
    }
    OnlySetProcSets(a, s, ops[n]);
  }

  lemma {:induction false} OnlySetProcSets(a: Algorithms, s: Sched, op: Op)
    requires Enabled(s, op)
    ensures Step(a, s, op).hasProc == if op.SetProc? then op.given else s.hasProc
  {
    match op {
      case Enqueue(event) =>
        if QueueName(a, event).Some? {
          var s' := Push(s, QueueName(a, event).value, event);
          StartKeepsProc(s', Inactive(s', s'.names));
        }
      case SetProc(given) =>
        StartKeepsProc(s.(hasProc := given), Inactive(s.(hasProc := given), s.names));
      case _ =>
    }
  }

  // ----- The order in which queues are started

  lemma {:induction false} EmptyNameIsNoQueue(a: Algorithms, event: Event)
    ensures QueueName(a, event).None? <==> a.queue(event).None? || a.queue(event).value == ""
    ensures QueueName(a, event).Some? ==> QueueName(a, event) == a.queue(event)
  {
  }

  /** The requests for the heads of these queues, in order. */
  ghost function Heads(s: Sched, ns: seq<string>): seq<Continuation>
    requires forall n :: n in ns ==> QueueOf(s, n) != []
  {
    seq(|ns|, i requires 0 <= i < |ns| => Sending(ns[i], QueueOf(s, ns[i])[0]))
  }

  lemma {:induction false} StartsInTurn(s: Sched, ns: seq<string>)
    requires forall n :: n in ns ==> QueueOf(s, n) != []
    ensures StartAll(s, ns) == s.(active := s.active + ns, pending := s.pending + Heads(s, ns))
  {
    if ns == [] {
      assert s.active + [] == s.active && s.pending + [] == s.pending;
    } else {
      var n := |ns| - 1;
      assert ns == ns[..n] + [ns[n]];
      StartsInTurn(s, ns[..n]);
      assert Heads(s, ns) == Heads(s, ns[..n]) + [Sending(ns[n], QueueOf(s, ns[n])[0])];
      assert s.active + ns == s.active + ns[..n] + [ns[n]];
      assert s.pending + Heads(s, ns) == s.pending + Heads(s, ns[..n]) + [Sending(ns[n], QueueOf(s, ns[n])[0])];
    }
  }

  ghost predicate IsPlaces(xs: seq<string>, ys: seq<string>, at: seq<nat>) {
    && |at| == |xs| && (forall i :: 0 <= i < |xs| ==> at[i] < |ys| && ys[at[i]] == xs[i])
    && (forall i, j :: 0 <= i < j < |xs| ==> at[i] < at[j])
  }

  /** xs lists some of the elements of ys, in their order. */
  ghost predicate InOrderOf(xs: seq<string>, ys: seq<string>) {
    exists at: seq<nat> :: IsPlaces(xs, ys, at)
  }

  lemma {:induction false} PlacesSnoc(xs: seq<string>, ys: seq<string>, at: seq<nat>, y: string)
    requires IsPlaces(xs, ys, at)
    ensures IsPlaces(xs, ys + [y], at) && IsPlaces(xs + [y], ys + [y], at + [|ys|])
  {
  }

  lemma {:induction false} InactiveInOrder(s: Sched, names: seq<string>)
    ensures InOrderOf(Inactive(s, names), names)
  {
    if names == [] {
      assert IsPlaces([], [], []);
    } else {
      var n := |names| - 1;
      var front := Inactive(s, names[..n]);
      InactiveInOrder(s, names[..n]);
      var at :| IsPlaces(front, names[..n], at);
      PlacesSnoc(front, names[..n], at, names[n]);
      InactiveSnoc(s, names);
      assert names == names[..n] + [names[n]];
    }
  }

  lemma {:induction false} InactiveSnoc(s: Sched, names: seq<string>)
    requires names != []
    ensures var n := |names| - 1;
            Inactive(s, names) == Inactive(s, names[..n]) || Inactive(s, names) == Inactive(s, names[..n]) + [names[n]]
  {
    assert Inactive(s, names[..|names| - 1]) + [] == Inactive(s, names[..|names| - 1]);
  }

  /** With a process function, exactly the inactive queues with events are started, in the order in
      which they were created, each with a request for its head. */
  lemma {:induction false} QueuesStartInOrder(s: Sched) returns (ns: seq<string>)
    requires Distinct(s.names)
    ensures InOrderOf(ns, s.names) && forall n :: n in ns <==> s.hasProc && n in s.names && n !in s.active && QueueOf(s, n) != []
    ensures StartProcessing(s) == s.(active := s.active + ns, pending := s.pending + Heads(s, ns))
  {
    if s.hasProc {
      ns := Inactive(s, s.names);
      InactiveAre(s, s.names);
      InactiveInOrder(s, s.names);
      StartsInTurn(s, ns);
    } else {
      ns := [];
      assert IsPlaces(ns, s.names, []);
      assert s.active + [] == s.active && s.pending + [] == s.pending;
    }
  }
}
