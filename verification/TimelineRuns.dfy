/** Runs of a timeline window: every interleaving of loads, extensions, trimming and growth of the
    chain at its open ends moves a pair of positions over the flattened list of events. */
module TimelineRuns {
  import opened Common
  import opened TimelineWindow

  /** A timeline as it is found when something is loaded or joined. */
  datatype Piece = Piece(events: seq<Event>, baseIndex: nat)

  /** Load goes to a timeline of the current chain, or of another one if elsewhere is given. */
  datatype Op =
    | Load(elsewhere: Option<seq<Piece>>, timeline: nat, initialEventId: Option<string>, initialWindowSize: nat)
    | Extend(direction: Direction, size: nat)
    | Unpaginate(delta: int, startOfTimeline: bool)
    | Append(event: Event)
    | Prepend(event: Event)
    | GainAfter(pieces: seq<Piece>)
    | GainBefore(pieces: seq<Piece>)

  function Texts(pieces: seq<Piece>): (ts: seq<seq<Event>>)
    ensures |ts| == |pieces|
    ensures forall i :: 0 <= i < |ts| ==> ts[i] == pieces[i].events
  {
    seq(|pieces|, i requires 0 <= i < |pieces| => pieces[i].events)
  }

  /** The timelines of the chain, and where in their flattened events the window starts and ends.
      There are none before the first load. */
  datatype Sliding = Sliding(texts: seq<seq<Event>>, lo: int, hi: int) {
    ghost predicate InBounds() {
      0 <= lo <= hi <= |AllEvents(texts)|
    }

    ghost function View(): seq<Event>
      requires InBounds()
    {
      AllEvents(texts)[lo..hi]
    }
  }

  /** Loading from the k-th timeline of the chain with the events ts; nothing changes if that timeline
      does not exist or does not have the event. */
  ghost predicate Loads(s: Sliding, ts: seq<seq<Event>>, k: nat, id: Option<string>, size: nat, s': Sliding) {
    if k < |ts| && (id.None? || IndexOfId(ts[k], id.value) < |ts[k]|)
    then s'.texts == ts && IsInitialRange(ts[k], id, size, s'.lo - |Flat(ts, k)|, s'.hi - |Flat(ts, k)|)
    else s' == s
  }

  /** What one operation may do to the positions. */
  ghost predicate Slides(limit: nat, s: Sliding, op: Op, s': Sliding) {
    match op
    case Load(elsewhere, k, id, size) =>
      Loads(s, if elsewhere.Some? then Texts(elsewhere.value) else s.texts, k, id, size, s')
    case Extend(Backward, size) =>
      && s'.texts == s.texts && Max(0, s.lo - size) <= s'.lo <= s.lo && GoesAsFar(s.texts, -(size as int), s.lo, s'.lo)
      && s'.hi == (if s'.lo == s.lo then s.hi else Min(s.hi, s'.lo + limit))
      && (s'.lo == s.lo ==> size == 0 || s.lo == 0)
    case Extend(Forward, size) =>
      && s'.texts == s.texts && s.hi <= s'.hi <= Min(|AllEvents(s.texts)|, s.hi + size) && GoesAsFar(s.texts, size, s.hi, s'.hi)
      && s'.lo == (if s'.hi == s.hi then s.lo else Max(s.lo, s'.hi - limit))
      && (s'.hi == s.hi ==> size == 0 || s.hi == |AllEvents(s.texts)|)
    case Unpaginate(delta, startOfTimeline) =>
      s' == if !(0 <= delta <= s.hi - s.lo) then s
            else if startOfTimeline then s.(lo := s.lo + delta)
            else s.(hi := s.hi - delta)
    case _ =>
      if s.texts == [] then s' == s
      else
        match op
        case Append(e) => s' == s.(texts := s.texts[|s.texts| - 1 := s.texts[|s.texts| - 1] + [e]])
        case Prepend(e) => s' == Sliding(s.texts[0 := [e] + s.texts[0]], s.lo + 1, s.hi + 1)
        case GainAfter(ps) => s' == s.(texts := s.texts + Texts(ps))
        case GainBefore(ps) =>
          var gained := |AllEvents(Texts(ps))|;
          s' == Sliding(Texts(ps) + s.texts, s.lo + gained, s.hi + gained)
  }

  function Max(a: int, b: int): int {
    if a < b then b else a
  }

  predicate IsGrowth(op: Op) {
    op.Append? || op.Prepend? || op.GainAfter? || op.GainBefore?
  }

  /** trace lists the positions before, between and after the operations. */
  ghost predicate IsRun(limit: nat, trace: seq<Sliding>, ops: seq<Op>) {
    if ops == [] then |trace| == 1
    else |trace| == |ops| + 1 && Slides(limit, trace[0], ops[0], trace[1]) && IsRun(limit, trace[1..], ops[1..])
  }

  lemma {:induction false} RunSlides(limit: nat, trace: seq<Sliding>, ops: seq<Op>, i: nat)
    requires IsRun(limit, trace, ops) && i < |ops|
    ensures |trace| == |ops| + 1 && Slides(limit, trace[i], ops[i], trace[i + 1])
  {
    if i > 0 { RunSlides(limit, trace[1..], ops[1..], i - 1); }
  }

  lemma {:induction false} OneStep(limit: nat, s: Sliding, op: Op, s': Sliding)
    requires Slides(limit, s, op, s')
    ensures IsRun(limit, [s, s'], [op])
  {
    assert [s, s'][1..] == [s'] && [op][1..] == [];
  }

  lemma {:induction false} StepThenRun(limit: nat, s: Sliding, ops: seq<Op>, rest: seq<Sliding>)
    requires ops != [] && IsRun(limit, rest, ops[1..]) && rest != [] && IsRun(limit, [s, rest[0]], [ops[0]])
    ensures IsRun(limit, [s] + rest, ops)
    ensures |rest| == |ops| && ([s] + rest)[0] == s && ([s] + rest)[|ops|] == rest[|ops[1..]|]
  {
    RunSlides(limit, [s, rest[0]], [ops[0]], 0);
    assert ([s] + rest)[1..] == rest;
  }

  // ----- Every operation of the class is such a step

  ghost function Positions(w: Window): (s: Sliding)
    requires w.Valid()
    reads w, w.start, w.end, w.chain, w.Timelines()
    ensures s.InBounds() && s.View() == w.View()
  {
    if w.start == null then Sliding([], 0, 0)
    else
      w.EndInside();
      Sliding(w.texts, w.start.pos, w.end.pos)
  }

  method NewTimeline(piece: Piece) returns (t: EventTimeline)
    ensures fresh(t) && t.events == piece.events && t.baseIndex == piece.baseIndex
    ensures t.prevTimeline == null && t.nextTimeline == null
  {
    t := new EventTimeline();
    t.events, t.baseIndex := piece.events, piece.baseIndex;
  }

  method NewChain(pieces: seq<Piece>) returns (c: seq<EventTimeline>)
    requires pieces != []
    ensures IsChain(c) && Spells(c, Texts(pieces))
    ensures forall i :: 0 <= i < |c| ==> fresh(c[i])
  {
    var t := NewTimeline(pieces[0]);
    c := [t];
    for n := 1 to |pieces|
      invariant |c| == n && IsChain(c) && Spells(c, Texts(pieces[..n]))
      invariant forall i :: 0 <= i < |c| ==> fresh(c[i])
    {
      t := NewTimeline(pieces[n]);
      LinkChains(c[n - 1], t, c, [t], Texts(pieces[..n]), [pieces[n].events]);
      c := c + [t];
      assert Texts(pieces[..n]) + [pieces[n].events] == Texts(pieces[..n + 1]);
    }
    assert pieces[..|pieces|] == pieces;
  }

  /** Loads from the k-th timeline of the chain c; the chain stays what it was if that fails. */
  method LoadFrom(w: Window, timelines: seq<EventTimeline>, c: seq<EventTimeline>, ghost ts: seq<seq<Event>>, op: Op) returns (now: seq<EventTimeline>)
    requires op.Load? && w.Valid() && timelines == w.chain
    requires IsChain(c) && Spells(c, ts) && op.timeline < |c|
    modifies w
    ensures w.Valid() && now == w.chain && (now == timelines || now == c)
    ensures w.start == old(w.start) || fresh(w.start)
    ensures w.end == old(w.end) || fresh(w.end)
    ensures Loads(old(Positions(w)), ts, op.timeline, op.initialEventId, op.initialWindowSize, Positions(w))
  {
    var found := w.InitFields(c[op.timeline], op.initialEventId, op.initialWindowSize, c, ts, op.timeline);
    now := if found then c else timelines;
  }

  method PerformLoad(w: Window, timelines: seq<EventTimeline>, op: Op) returns (now: seq<EventTimeline>)
    requires op.Load? && w.Valid() && timelines == w.chain
    modifies w
    ensures w.Valid() && now == w.chain
    ensures forall i :: 0 <= i < |now| ==> now[i] in timelines || fresh(now[i])
    ensures w.start == old(w.start) || fresh(w.start)
    ensures w.end == old(w.end) || fresh(w.end)
    ensures Slides(w.windowLimit, old(Positions(w)), op, Positions(w))
  {
    if op.elsewhere.Some? {
      now := LoadElsewhere(w, timelines, op);
    } else {
      now := timelines;
      if op.timeline < |timelines| {
        now := LoadFrom(w, timelines, timelines, w.texts, op);
      }
    }
  }

  method LoadElsewhere(w: Window, timelines: seq<EventTimeline>, op: Op) returns (now: seq<EventTimeline>)
    requires op.Load? && op.elsewhere.Some? && w.Valid() && timelines == w.chain
    modifies w
    ensures w.Valid() && now == w.chain
    ensures now == timelines || forall i :: 0 <= i < |now| ==> fresh(now[i])
    ensures w.start == old(w.start) || fresh(w.start)
    ensures w.end == old(w.end) || fresh(w.end)
    ensures Slides(w.windowLimit, old(Positions(w)), op, Positions(w))
  {
    now := timelines;
    if op.timeline < |op.elsewhere.value| {
      var c := NewChain(op.elsewhere.value);
      now := LoadFrom(w, timelines, c, Texts(op.elsewhere.value), op);
    }
  }

  method PerformExtend(w: Window, op: Op)
    requires op.Extend? && w.Valid()
    modifies w.start, w.end, w`eventCount
    ensures w.Valid()
    ensures Slides(w.windowLimit, old(Positions(w)), op, Positions(w))
  {
    ghost var s := Positions(w);
    var extended, moved := w.Extend(op.direction, op.size);
    ghost var s' := Positions(w);
    ExtendSlides(w.windowLimit, s, op, s', moved);
  }

  lemma {:induction false} ExtendSlides(limit: nat, s: Sliding, op: Op, s': Sliding, moved: int)
    requires op.Extend? && s.InBounds() && s'.InBounds() && s'.texts == s.texts && 0 <= moved <= op.size
    requires if op.direction == Backward then s'.lo == s.lo - moved else s'.hi == s.hi + moved
    requires s'.hi - s'.lo == if moved > 0 && s.hi - s.lo + moved > limit then limit else s.hi - s.lo + moved
    requires moved == 0 && op.size > 0 ==> if op.direction == Backward then s.lo == 0 else s.hi == |AllEvents(s.texts)|
    requires if op.direction == Backward then GoesAsFar(s.texts, -(op.size as int), s.lo, s'.lo) else GoesAsFar(s.texts, op.size, s.hi, s'.hi)
    ensures Slides(limit, s, op, s')
  {
  }

  method PerformUnpaginate(w: Window, op: Op)
    requires op.Unpaginate? && w.Valid()
    modifies w.start, w.end, w`eventCount
    ensures w.Valid()
    ensures Slides(w.windowLimit, old(Positions(w)), op, Positions(w))
  {
    ghost var s := Positions(w);
    var ok := w.Unpaginate(op.delta, op.startOfTimeline);
    UnpaginateSlides(w.windowLimit, s, op, Positions(w), ok);
  }

  lemma {:induction false} UnpaginateSlides(limit: nat, s: Sliding, op: Op, s': Sliding, ok: bool)
    requires op.Unpaginate? && s'.texts == s.texts && (ok <==> 0 <= op.delta <= s.hi - s.lo)
    requires s'.hi - s'.lo == if ok then s.hi - s.lo - op.delta else s.hi - s.lo
    requires if op.startOfTimeline then s'.hi == s.hi else s'.lo == s.lo
    ensures Slides(limit, s, op, s')
  {
  }

  /** What an event at one of the open ends does to the positions. */
  lemma {:induction false} AddSlides(limit: nat, s: Sliding, op: Op, s': Sliding)
    requires s.texts != []
    requires op.Append? ==> s' == s.(texts := s.texts[|s.texts| - 1 := s.texts[|s.texts| - 1] + [op.event]])
    requires op.Prepend? ==> s' == Sliding(s.texts[0 := [op.event] + s.texts[0]], s.lo + 1, s.hi + 1)
    requires op.Append? || op.Prepend?
    ensures Slides(limit, s, op, s')
  {
  }

  method PerformAppend(w: Window, timelines: seq<EventTimeline>, op: Op)
    requires op.Append? && w.Valid() && w.start != null && timelines == w.chain
    modifies w`chain, w`texts, w.start, w.end, timelines
    ensures w.Valid() && w.start != null && w.chain == old(w.chain)
    ensures Slides(w.windowLimit, old(Positions(w)), op, Positions(w))
  {
    ghost var s := Positions(w);
    AppendEvent(w, timelines[|timelines| - 1], op.event);
    AddSlides(w.windowLimit, s, op, Positions(w));
  }

  method PerformPrepend(w: Window, timelines: seq<EventTimeline>, op: Op)
    requires op.Prepend? && w.Valid() && w.start != null && timelines == w.chain
    modifies w`chain, w`texts, w.start, w.end, timelines
    ensures w.Valid() && w.start != null && w.chain == old(w.chain)
    ensures Slides(w.windowLimit, old(Positions(w)), op, Positions(w))
  {
    ghost var s := Positions(w);
    PrependEvent(w, timelines[0], op.event);
    AddSlides(w.windowLimit, s, op, Positions(w));
  }

  method PerformJoinAfter(w: Window, timelines: seq<EventTimeline>, d: seq<EventTimeline>, op: Op) returns (grown: seq<EventTimeline>)
    requires op.GainAfter? && w.Valid() && w.start != null && timelines == w.chain
    requires IsChain(d) && Spells(d, Texts(op.pieces)) && Apart(timelines, d)
    modifies w`chain, w`texts, w.start, w.end, timelines, d
    ensures w.Valid() && w.start != null && grown == w.chain == timelines + d
    ensures Slides(w.windowLimit, old(Positions(w)), op, Positions(w))
  {
    grown := timelines + d;
    JoinAfter(w, timelines[|timelines| - 1], d[0], d, Texts(op.pieces));
  }

  method PerformJoinBefore(w: Window, timelines: seq<EventTimeline>, d: seq<EventTimeline>, op: Op) returns (grown: seq<EventTimeline>)
    requires op.GainBefore? && w.Valid() && w.start != null && timelines == w.chain
    requires IsChain(d) && Spells(d, Texts(op.pieces)) && Apart(d, timelines)
    modifies w`chain, w`texts, w.start, w.end, timelines, d
    ensures w.Valid() && w.start != null && grown == w.chain == d + timelines
    ensures Slides(w.windowLimit, old(Positions(w)), op, Positions(w))
  {
    grown := d + timelines;
    JoinBefore(w, timelines[0], d[|d| - 1], d, Texts(op.pieces));
  }

  lemma {:induction false} NothingGained(limit: nat, s: Sliding, op: Op)
    requires (op.GainAfter? || op.GainBefore?) && op.pieces == []
    ensures Slides(limit, s, op, s)
  {
    assert Texts(op.pieces) == [] && s.texts + [] == s.texts && [] + s.texts == s.texts;
  }

  method PerformOnEnds(w: Window, timelines: seq<EventTimeline>, op: Op) returns (grown: seq<EventTimeline>)
    requires IsGrowth(op) && w.Valid() && w.start != null && timelines == w.chain
    modifies w`chain, w`texts, w.start, w.end, timelines
    ensures w.Valid() && w.start != null && grown == w.chain
    ensures forall i :: 0 <= i < |grown| ==> grown[i] in timelines || fresh(grown[i])
    ensures Slides(w.windowLimit, old(Positions(w)), op, Positions(w))
  {
    grown := timelines;
    match op
    case Append(_) => PerformAppend(w, timelines, op);
    case Prepend(_) => PerformPrepend(w, timelines, op);
    case GainAfter(_) => grown := PerformGainAfter(w, timelines, op);
    case GainBefore(_) => grown := PerformGainBefore(w, timelines, op);
  }

  method PerformGainAfter(w: Window, timelines: seq<EventTimeline>, op: Op) returns (grown: seq<EventTimeline>)
    requires op.GainAfter? && w.Valid() && w.start != null && timelines == w.chain
    modifies w`chain, w`texts, w.start, w.end, timelines
    ensures w.Valid() && w.start != null && grown == w.chain
    ensures forall i :: 0 <= i < |grown| ==> grown[i] in timelines || fresh(grown[i])
    ensures Slides(w.windowLimit, old(Positions(w)), op, Positions(w))
  {
    grown := timelines;
    if op.pieces == [] {
      NothingGained(w.windowLimit, Positions(w), op);
    } else {
      var d := NewChain(op.pieces);
      grown := PerformJoinAfter(w, timelines, d, op);
    }
  }

  method PerformGainBefore(w: Window, timelines: seq<EventTimeline>, op: Op) returns (grown: seq<EventTimeline>)
    requires op.GainBefore? && w.Valid() && w.start != null && timelines == w.chain
    modifies w`chain, w`texts, w.start, w.end, timelines
    ensures w.Valid() && w.start != null && grown == w.chain
    ensures forall i :: 0 <= i < |grown| ==> grown[i] in timelines || fresh(grown[i])
    ensures Slides(w.windowLimit, old(Positions(w)), op, Positions(w))
  {
    grown := timelines;
    if op.pieces == [] {
      NothingGained(w.windowLimit, Positions(w), op);
    } else {
      var d := NewChain(op.pieces);
      grown := PerformJoinBefore(w, timelines, d, op);
    }
  }

  method Perform(w: Window, timelines: seq<EventTimeline>, op: Op) returns (now: seq<EventTimeline>)
    requires w.Valid() && timelines == w.chain
    modifies w, w.start, w.end, timelines
    ensures w.Valid() && now == w.chain
    ensures forall i :: 0 <= i < |now| ==> now[i] in timelines || fresh(now[i])
    ensures w.start == old(w.start) || fresh(w.start)
    ensures w.end == old(w.end) || fresh(w.end)
    ensures Slides(w.windowLimit, old(Positions(w)), op, Positions(w))
  {
    if IsGrowth(op) {
      now := PerformGrowth(w, timelines, op);
    } else if op.Load? {
      now := PerformLoad(w, timelines, op);
    } else {
      PerformMove(w, op);
      now := timelines;
    }
  }

  method PerformGrowth(w: Window, timelines: seq<EventTimeline>, op: Op) returns (now: seq<EventTimeline>)
    requires IsGrowth(op) && w.Valid() && timelines == w.chain
    modifies w`chain, w`texts, w.start, w.end, timelines
    ensures w.Valid() && now == w.chain
    ensures forall i :: 0 <= i < |now| ==> now[i] in timelines || fresh(now[i])
    ensures Slides(w.windowLimit, old(Positions(w)), op, Positions(w))
  {
    now := timelines;
    if w.start != null {
      now := PerformOnEnds(w, timelines, op);
    }
  }

  method PerformMove(w: Window, op: Op)
    requires (op.Extend? || op.Unpaginate?) && w.Valid()
    modifies w.start, w.end, w`eventCount
    ensures w.Valid()
    ensures Slides(w.windowLimit, old(Positions(w)), op, Positions(w))
  {
    if op.Extend? {
      PerformExtend(w, op);
    } else {
      PerformUnpaginate(w, op);
    }
  }

  method PerformNext(w: Window, timelines: seq<EventTimeline>, op: Op) returns (now: seq<EventTimeline>, ghost s: Sliding)
    requires w.Valid() && timelines == w.chain
    modifies w, w.start, w.end, timelines
    ensures w.Valid() && now == w.chain
    ensures forall i :: 0 <= i < |now| ==> now[i] in timelines || fresh(now[i])
    ensures w.start == old(w.start) || fresh(w.start)
    ensures w.end == old(w.end) || fresh(w.end)
    ensures s == old(Positions(w)) && IsRun(w.windowLimit, [s, Positions(w)], [op])
  {
    s := Positions(w);
    now := Perform(w, timelines, op);
    OneStep(w.windowLimit, s, op, Positions(w));
  }

  method PerformAll(w: Window, timelines: seq<EventTimeline>, ops: seq<Op>) returns (ghost trace: seq<Sliding>)
    requires w.Valid() && timelines == w.chain
    modifies w, w.start, w.end, timelines
    ensures w.Valid()
    ensures IsRun(w.windowLimit, trace, ops) && |trace| == |ops| + 1
    ensures trace[0] == old(Positions(w)) && trace[|ops|] == Positions(w)
    decreases |ops|
  {
    if ops == [] { return [Positions(w)]; }
    var now, s := PerformNext(w, timelines, ops[0]);
    ghost var rest := PerformAll(w, now, ops[1..]);
    StepThenRun(w.windowLimit, s, ops, rest);
    trace := [s] + rest;
  }

  /** Any interleaving of operations, from before the first load on, is such a run, and getEvents
      then returns the slice. */
  method Run(w: Window, timelines: seq<EventTimeline>, ops: seq<Op>) returns (shown: seq<Event>, ghost trace: seq<Sliding>)
    requires w.Valid() && timelines == w.chain
    modifies w, w.start, w.end, timelines
    ensures w.Valid()
    ensures IsRun(w.windowLimit, trace, ops) && |trace| == |ops| + 1
    ensures trace[0] == old(Positions(w)) && trace[|ops|] == Positions(w)
    ensures trace[|ops|].InBounds() && shown == trace[|ops|].View()
  {
    trace := PerformAll(w, timelines, ops);
    shown := w.GetEvents();
  }

  // ----- What every run keeps

  lemma {:induction false} Shifted(s: Sliding, s': Sliding, before: seq<Event>, after: seq<Event>)
    requires s.InBounds() && AllEvents(s'.texts) == before + AllEvents(s.texts) + after
    requires s'.lo == s.lo + |before| && s'.hi == s.hi + |before|
    ensures s'.InBounds() && s'.View() == s.View()
  {
    SliceStays(AllEvents(s.texts), before, after, s.lo, s.hi);
  }

  lemma {:induction false} AddKeepsView(limit: nat, s: Sliding, op: Op, s': Sliding)
    requires s.InBounds() && s.texts != [] && Slides(limit, s, op, s') && (op.Append? || op.Prepend?)
    ensures s'.InBounds() && s'.View() == s.View()
  {
    var all, e, n := AllEvents(s.texts), op.event, |s.texts|;
    if op.Append? {
      FlatAppend(s.texts, s'.texts, e, n);
      assert all + [e] == [] + all + [e];
      Shifted(s, s', [], [e]);
    } else {
      FlatPrepend(s.texts, s'.texts, e, n);
      assert [e] + all == [e] + all + [];
      Shifted(s, s', [e], []);
    }
  }

  lemma {:induction false} JoinKeepsView(limit: nat, s: Sliding, op: Op, s': Sliding)
    requires s.InBounds() && s.texts != [] && Slides(limit, s, op, s') && (op.GainAfter? || op.GainBefore?)
    ensures s'.InBounds() && s'.View() == s.View()
  {
    var ds := Texts(op.pieces);
    if op.GainAfter? {
      AllConcat(s.texts, ds);
      Shifted(s, s', [], AllEvents(ds));
    } else {
      AllConcat(ds, s.texts);
      Shifted(s, s', AllEvents(ds), []);
    }
  }

  /** The window stays within the flattened list, and growth never changes what it shows. */
  lemma {:induction false} SlideKeepsBounds(limit: nat, s: Sliding, op: Op, s': Sliding)
    requires limit >= 1 && s.InBounds() && Slides(limit, s, op, s')
    ensures s'.InBounds()
    ensures IsGrowth(op) ==> s'.View() == s.View()
  {
    match op
    case Load(_, k, _, _) =>
      if k < |s'.texts| { FlatBeyond(s'.texts, k, |s'.texts|); }
    case Extend(_, _) =>
    case Unpaginate(_, _) =>
    case Append(_) => if s.texts != [] { AddKeepsView(limit, s, op, s'); }
    case Prepend(_) => if s.texts != [] { AddKeepsView(limit, s, op, s'); }
    case _ => if s.texts != [] { JoinKeepsView(limit, s, op, s'); }
  }

  lemma {:induction false} RunKeepsBounds(limit: nat, trace: seq<Sliding>, ops: seq<Op>, i: nat)
    requires limit >= 1 && IsRun(limit, trace, ops) && |trace| == |ops| + 1 && trace[0].InBounds() && i <= |ops|
    ensures trace[i].InBounds()
  {
    if i > 0 {
      RunKeepsBounds(limit, trace, ops, i - 1);
      RunSlides(limit, trace, ops, i - 1);
      SlideKeepsBounds(limit, trace[i - 1], ops[i - 1], trace[i]);
    }
  }

  /** As long as nothing larger than the limit is loaded, the window never holds more than its limit. */
  lemma {:induction false} RunKeepsLimit(limit: nat, trace: seq<Sliding>, ops: seq<Op>, i: nat)
    requires limit >= 1 && IsRun(limit, trace, ops) && |trace| == |ops| + 1 && trace[0].InBounds() && i <= |ops|
    requires trace[0].hi - trace[0].lo <= limit
    requires forall op {:trigger op in ops} :: op in ops && op.Load? ==> op.initialWindowSize <= limit
    ensures trace[i].hi - trace[i].lo <= limit
  {
    if i > 0 {
      RunKeepsLimit(limit, trace, ops, i - 1);
      RunSlides(limit, trace, ops, i - 1);
      assert ops[i - 1] in ops;
    }
  }

  /** In a single timeline, one extension gains all that it asks for, as far as there are events. */
  lemma {:induction false} ExtendGainsAll(limit: nat, s: Sliding, direction: Direction, size: nat, s': Sliding)
    requires |s.texts| == 1 && s.InBounds() && Slides(limit, s, Extend(direction, size), s')
    ensures direction == Backward ==> s'.lo == Max(0, s.lo - size)
    ensures direction == Forward ==> s'.hi == Min(|AllEvents(s.texts)|, s.hi + size)
  {
    OneTimeline(s.texts);
  }

  lemma {:induction false} OneTimeline(ts: seq<seq<Event>>)
    requires |ts| == 1
    ensures forall p :: IsBoundary(ts, p) ==> p == 0 || p == |AllEvents(ts)|
  {
    forall p | IsBoundary(ts, p)
      ensures p == 0 || p == |AllEvents(ts)|
    {
      var k: nat :| k <= |ts| && |Flat(ts, k)| == p;
      assert k == 0 || k == 1;
    }
  }

  /** In any chain, how far an extension goes is determined: by its size, or to the first boundary. */
  lemma {:induction false} ExtendIsDetermined(limit: nat, s: Sliding, direction: Direction, size: nat, s1: Sliding, s2: Sliding)
    requires s.InBounds() && Slides(limit, s, Extend(direction, size), s1) && Slides(limit, s, Extend(direction, size), s2)
    ensures s1 == s2
  {
    if direction == Backward {
      SameReach(s.texts, s.lo, s1.lo, s2.lo, size);
      SameReach(s.texts, s.lo, s2.lo, s1.lo, size);
    } else {
      SameReachForward(s.texts, s.hi, s1.hi, s2.hi, size);
      SameReachForward(s.texts, s.hi, s2.hi, s1.hi, size);
    }
  }

  lemma {:induction false} SameReach(ts: seq<seq<Event>>, from: int, near: int, far: int, size: nat)
    requires GoesAsFar(ts, -(size as int), from, near) && GoesAsFar(ts, -(size as int), from, far) && from - size <= near <= from && from - size <= far <= from
    requires near == from ==> size == 0 || from == 0
    requires 0 <= near && 0 <= far
    ensures near <= far
  {
  }

  lemma {:induction false} SameReachForward(ts: seq<seq<Event>>, from: int, near: int, far: int, size: nat)
    requires GoesAsFar(ts, size, from, near) && GoesAsFar(ts, size, from, far) && from <= near <= from + size && from <= far <= from + size
    requires near == from ==> size == 0 || from == |AllEvents(ts)|
    requires near <= |AllEvents(ts)| && far <= |AllEvents(ts)|
    ensures far <= near
  {
  }

  /** Extending backwards n times, each time by at least one event, reaches the very first event if
      no more than n events come before the window; in the same way forwards. */
  lemma {:induction false} PagingReachesTheEnd(limit: nat, trace: seq<Sliding>, ops: seq<Op>, direction: Direction, i: nat)
    requires limit >= 1 && IsRun(limit, trace, ops) && |trace| == |ops| + 1 && trace[0].InBounds() && i <= |ops|
    requires forall op {:trigger op in ops} :: op in ops ==> op.Extend? && op.direction == direction && op.size >= 1
    ensures trace[i].texts == trace[0].texts
    ensures direction == Backward ==> trace[i].lo <= Max(0, trace[0].lo - i)
    ensures direction == Forward ==> trace[i].hi >= Min(|AllEvents(trace[0].texts)|, trace[0].hi + i)
  {
    if i > 0 {
      PagingReachesTheEnd(limit, trace, ops, direction, i - 1);
      RunSlides(limit, trace, ops, i - 1);
      assert ops[i - 1] in ops;
    }
  }
}
