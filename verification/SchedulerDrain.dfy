/** Draining (src/scheduler.ts:55-92, 223-268): with no new events, and every request and timer
    completing, every queue of the event scheduler empties. */
module SchedulerDrain {
  import opened Common
  import opened Scheduler
  import opened SchedulerRuns

  // ----- The measure

  /** How many more times an entry can fail in an ordinary way; once is enough after the fifth attempt. */
  function Left(e: Entry): int {
    if e.attempts <= 4 then 5 - e.attempts else 1
  }

  /** Each failure takes a request and a timer. */
  function Work(q: seq<Entry>): int {
    if q == [] then 0 else Work(q[..|q| - 1]) + 2 * Left(q[|q| - 1])
  }

  function AllWork(names: seq<string>, queues: map<string, seq<Entry>>): int {
    if names == [] then 0
    else AllWork(names[..|names| - 1], queues) + if names[|names| - 1] in queues then Work(queues[names[|names| - 1]]) else 0
  }

  function Timers(pending: seq<Continuation>): nat {
    if pending == [] then 0
    else Timers(pending[..|pending| - 1]) + if pending[|pending| - 1].Waiting? then 1 else 0
  }

  function Measure(s: Sched): int {
    AllWork(s.names, s.queues) + Timers(s.pending)
  }

  lemma {:induction false} WorkConcat(a: seq<Entry>, b: seq<Entry>)
    ensures Work(a + b) == Work(a) + Work(b)
  {
    if b == [] {
      assert a + b == a;
    } else {
      assert (a + b)[..|a + b| - 1] == a + b[..|b| - 1];
      WorkConcat(a, b[..|b| - 1]);
    }
  }

  lemma {:induction false} WorkHead(q: seq<Entry>)
    requires q != []
    ensures Work(q) == 2 * Left(q[0]) + Work(q[1..])
  {
    WorkConcat([q[0]], q[1..]);
    assert [q[0]] + q[1..] == q && [q[0]][..0] == [];
    assert Work([q[0]]) == 2 * Left(q[0]);
  }

  lemma {:induction false} WorkIsNatural(q: seq<Entry>)
    ensures Work(q) >= 2 * |q|
  {
    if q != [] { WorkIsNatural(q[..|q| - 1]); }
  }

  lemma {:induction false} AllWorkIsNatural(names: seq<string>, queues: map<string, seq<Entry>>)
    ensures AllWork(names, queues) >= 0
  {
    if names != [] {
      AllWorkIsNatural(names[..|names| - 1], queues);
      if names[|names| - 1] in queues { WorkIsNatural(queues[names[|names| - 1]]); }
    }
  }

  /** Changing one queue changes the total by the difference. */
  lemma {:induction false} WorkUpdate(names: seq<string>, queues: map<string, seq<Entry>>, n: string, q: seq<Entry>)
    requires Distinct(names) && n in queues
    ensures AllWork(names, queues[n := q]) == AllWork(names, queues) + if n in names then Work(q) - Work(queues[n]) else 0
  {
    if names != [] {
      var k := |names| - 1;
      assert names == names[..k] + [names[k]];
      WorkUpdate(names[..k], queues, n, q);
      if names[k] == n { assert n !in names[..k]; }
    }
  }

  lemma {:induction false} TimersConcat(a: seq<Continuation>, b: seq<Continuation>)
    ensures Timers(a + b) == Timers(a) + Timers(b)
  {
    if b == [] {
      assert a + b == a;
    } else {
      assert (a + b)[..|a + b| - 1] == a + b[..|b| - 1];
      TimersConcat(a, b[..|b| - 1]);
    }
  }

  lemma {:induction false} TimersOne(c: Continuation)
    ensures Timers([c]) == if c.Waiting? then 1 else 0
  {
    assert [c][..0] == [];
  }

  lemma {:induction false} TimersDrop(pending: seq<Continuation>, i: nat)
    requires i < |pending|
    ensures Timers(DropAt(pending, i)) == Timers(pending) - if pending[i].Waiting? then 1 else 0
  {
    assert pending == pending[..i] + ([pending[i]] + pending[i + 1..]);
    TimersConcat(pending[..i], [pending[i]] + pending[i + 1..]);
    TimersConcat([pending[i]], pending[i + 1..]);
    TimersConcat(pending[..i], pending[i + 1..]);
    TimersOne(pending[i]);
  }

  // ----- Each completion decreases it

  lemma {:induction false} ProcessIsFree(s: Sched, name: string)
    ensures Timers(ProcessQueue(s, name).pending) == Timers(s.pending)
    ensures ProcessQueue(s, name).queues == s.queues && ProcessQueue(s, name).names == s.names
  {
    if QueueOf(s, name) != [] {
      var c := Sending(name, QueueOf(s, name)[0]);
      TimersConcat(s.pending, [c]);
      TimersOne(c);
    }
  }

  lemma {:induction false} ShiftLowers(s: Sched, name: string)
    requires Distinct(s.names) && name in s.names && name in s.queues && s.queues[name] != []
    ensures Measure(ShiftAndProcess(s, name)) <= Measure(s) - 2
  {
    var q := s.queues[name];
    WorkHead(q);
    WorkUpdate(s.names, s.queues, name, q[1..]);
    ProcessIsFree(s.(queues := s.queues[name := q[1..]]), name);
  }

  lemma {:induction false} SettledLowers(s: Sched, i: nat)
    requires Inv(s) && i < |s.pending| && s.pending[i].Sending?
    ensures var s1 := s.(pending := DropAt(s.pending, i));
            && Measure(ShiftAndProcess(s1, s.pending[i].name)) <= Measure(s) - 2
  {
    assert ForHead(s, s.pending[i]);
    TimersDrop(s.pending, i);
    ShiftLowers(s.(pending := DropAt(s.pending, i)), s.pending[i].name);
  }

  lemma {:induction false} TimerLowers(s: Sched, i: nat)
    requires Inv(s) && i < |s.pending| && s.pending[i].Waiting?
    ensures var s' := ProcessQueue(s.(pending := DropAt(s.pending, i)), s.pending[i].name);
            Measure(s') == Measure(s) - 1 && s'.queues == s.queues
  {
    TimersDrop(s.pending, i);
    ProcessIsFree(s.(pending := DropAt(s.pending, i)), s.pending[i].name);
  }

  /** The queue after its head has failed once more. */
  ghost function Blamed(q: seq<Entry>): seq<Entry>
    requires q != []
  {
    [q[0].(attempts := q[0].attempts + 1)] + q[1..]
  }

  /** Trying again lowers the measure, unless it is so late that the failure must have been put off. */
  lemma {:induction false} RetryLowers(s: Sched, i: nat, wait: int)
    requires Inv(s) && i < |s.pending| && s.pending[i].Sending?
    requires ForHead(s, s.pending[i])
    ensures var c := s.pending[i];
            var s' := s.(queues := s.queues[c.name := Blamed(s.queues[c.name])],
                         pending := DropAt(s.pending, i) + [Waiting(c.name, wait)]);
            Measure(s') == if c.entry.attempts <= 3 then Measure(s) - 1 else Measure(s) + 1
  {
    var c := s.pending[i];
    var q := s.queues[c.name];
    TimersDrop(s.pending, i);
    TimersConcat(DropAt(s.pending, i), [Waiting(c.name, wait)]);
    TimersOne(Waiting(c.name, wait));
    WorkHead(q);
    WorkHead(Blamed(q));
    assert Blamed(q)[1..] == q[1..];
    WorkUpdate(s.names, s.queues, c.name, Blamed(q));
  }

  lemma {:induction false} GiveUpLowers(s: Sched, i: nat)
    requires Inv(s) && i < |s.pending| && s.pending[i].Sending? && ForHead(s, s.pending[i])
    ensures var name := s.pending[i].name;
            var s1 := s.(queues := s.queues[name := Blamed(s.queues[name])], pending := DropAt(s.pending, i));
            && Measure(ShiftAndProcess(s1, name)) <= Measure(s) - 2
  {
    SettledLowers(s, i);
    ShiftForgetsHead(s.(pending := DropAt(s.pending, i)), s.pending[i].name);
  }

  lemma {:induction false} ShiftForgetsHead(s: Sched, name: string)
    requires name in s.queues && s.queues[name] != []
    ensures ShiftAndProcess(s.(queues := s.queues[name := Blamed(s.queues[name])]), name) == ShiftAndProcess(s, name)
  {
    var q := s.queues[name];
    assert Blamed(q)[1..] == q[1..];
    assert s.queues[name := Blamed(q)][name := q[1..]] == s.queues[name := q[1..]];
  }

  /** Every completion, with the default algorithm, lowers the measure; only a failure that the server
      puts off may raise it, by 1. */
  lemma {:induction false} CompletionLowers(h: History, op: Op)
    requires Inv(h.s) && Conserves(h)
    requires IsCompletion(op) && Enabled(h.s, op)
    ensures var s' := Step(DEFAULT_ALGORITHMS, h.s, op);
            Measure(s') <= if Ordinary(op) then Measure(h.s) - 1 else Measure(h.s) + 1
  {
    match op {
      case Succeed(i) => SettledLowers(h.s, i);
      case TimerFires(i) => TimerLowers(h.s, i);
      case Fail(_, _) => FailLowers(h, op);
    }
  }

  lemma {:induction false} FailLowers(h: History, op: Op)
    requires Inv(h.s) && Conserves(h)
    requires op.Fail? && Enabled(h.s, op)
    ensures var s' := Step(DEFAULT_ALGORITHMS, h.s, op);
            Measure(s') <= if Ordinary(op) then Measure(h.s) - 1 else Measure(h.s) + 1
  {
    var c, wait := h.s.pending[op.i], Wait(DEFAULT_ALGORITHMS, h.s, op);
    assert ForHead(h.s, c);
    FailedHead(h, op.i);
    DefaultWait(DEFAULT_ALGORITHMS, h.s, op);
    assert Failed(h.s, op.i) == h.s.(queues := h.s.queues[c.name := Blamed(h.s.queues[c.name])], pending := DropAt(h.s.pending, op.i));
    if wait == -1 {
      GiveUpLowers(h.s, op.i);
    } else {
      RetryLowers(h.s, op.i, wait);
    }
  }

  // ----- Whole runs

  ghost function Continue(h: History, ops: seq<Op>): Option<History> {
    if ops == [] then Some(h)
    else
      var before, op := Continue(h, ops[..|ops| - 1]), ops[|ops| - 1];
      if before.Some? && IsCompletion(op) && Enabled(before.value.s, op) then
        Some(Record(DEFAULT_ALGORITHMS, before.value, op))
      else None
  }

  /** How many of the failures ask for a positive rate-limit wait. */
  function PutOffs(ops: seq<Op>): nat {
    if ops == [] then 0 else PutOffs(ops[..|ops| - 1]) + if Ordinary(ops[|ops| - 1]) then 0 else 1
  }

  /** From any reachable state, completions alone can only go on for as long as the measure says, and
      two more for each time that the server puts a request off. */
  lemma {:induction false} CompletionsRunOut(h: History, ops: seq<Op>)
    requires Inv(h.s) && Conserves(h) && Continue(h, ops).Some?
    ensures var h' := Continue(h, ops).value;
            && Inv(h'.s) && Conserves(h') && h'.s.hasProc == h.s.hasProc
            && |ops| <= Measure(h.s) - Measure(h'.s) + 2 * PutOffs(ops)
  {
    if ops != [] {
      var before, op := ops[..|ops| - 1], ops[|ops| - 1];
      CompletionsRunOut(h, before);
      CompletionStep(Continue(h, before).value, op);
    }
  }

  lemma {:induction false} CompletionStep(h: History, op: Op)
    requires Inv(h.s) && Conserves(h) && IsCompletion(op) && Enabled(h.s, op)
    ensures var h' := Record(DEFAULT_ALGORITHMS, h, op);
            && Inv(h'.s) && Conserves(h') && h'.s.hasProc == h.s.hasProc
            && Measure(h'.s) <= if Ordinary(op) then Measure(h.s) - 1 else Measure(h.s) + 1
  {
    CompletionLowers(h, op);
    StepKeepsInv(DEFAULT_ALGORITHMS, h.s, op);
    RecordConserves(DEFAULT_ALGORITHMS, h, op);
  }

  lemma {:induction false} EmptyOrMember(xs: seq<string>)
    ensures xs == [] || xs[0] in xs
  {
  }

  /** Draining: after any run with the default algorithm that has set a process function, completions
      alone stop after at most Measure steps and two for each time that the server puts a request
      off, and they can only stop with every queue empty and inactive. */
  lemma {:induction false} QueuesDrain(before: seq<Op>, ops: seq<Op>)
    requires Run(DEFAULT_ALGORITHMS, before).Some?
    requires Run(DEFAULT_ALGORITHMS, before).value.s.hasProc && Continue(Run(DEFAULT_ALGORITHMS, before).value, ops).Some?
    ensures |ops| <= Measure(Run(DEFAULT_ALGORITHMS, before).value.s) + 2 * PutOffs(ops)
    ensures var s' := Continue(Run(DEFAULT_ALGORITHMS, before).value, ops).value.s;
            (forall op :: IsCompletion(op) ==> !Enabled(s', op)) <==> Drained(s')
  {
    var h := Run(DEFAULT_ALGORITHMS, before).value;
    RunsConserve(DEFAULT_ALGORITHMS, before);
    CompletionsRunOut(h, ops);
    var s' := Continue(h, ops).value.s;
    AllWorkIsNatural(s'.names, s'.queues);
    StoppedIffDrained(s');
  }

  ghost predicate Drained(s: Sched) {
    s.active == [] && forall n :: n in s.queues ==> s.queues[n] == []
  }

  lemma {:induction false} StoppedIffDrained(s: Sched)
    requires Inv(s) && s.hasProc
    ensures (forall op :: IsCompletion(op) ==> !Enabled(s, op)) <==> Drained(s)
  {
    if s.pending != [] {
      var c := s.pending[0];
      assert Enabled(s, if c.Sending? then Succeed(0) else TimerFires(0));
      assert Serves(s.pending, c.name);
      assert c.name in s.active;
    } else {
      forall n
        ensures n !in s.active
      {
        assert !Serves(s.pending, n);
      }
      EmptyOrMember(s.active);
    }
  }
}
