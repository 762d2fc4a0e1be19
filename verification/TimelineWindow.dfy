/** A bounded window over a chain of timelines (src/timeline-window.ts). Indexes are relative to a
    timeline's base index, which grows as events are prepended, and may be negative. */
module TimelineWindow {
  import opened Common

  datatype Event = Event(id: string)
  datatype Direction = Backward | Forward

  // ----- The flattened chain

  /** The events of the first k timelines. */
  function Flat(ts: seq<seq<Event>>, k: nat): seq<Event>
    requires k <= |ts|
  {
    if k == 0 then [] else Flat(ts, k - 1) + ts[k - 1]
  }

  function AllEvents(ts: seq<seq<Event>>): seq<Event> {
    Flat(ts, |ts|)
  }

  lemma {:induction false} FlatStep(ts: seq<seq<Event>>, k: nat)
    requires k < |ts|
    ensures |Flat(ts, k + 1)| == |Flat(ts, k)| + |ts[k]|
  {
  }

  lemma {:induction false} FlatPrefix(ts: seq<seq<Event>>, j: nat, k: nat)
    requires j <= k <= |ts|
    ensures Flat(ts, j) <= Flat(ts, k)
  {
    if j < k { FlatPrefix(ts, j, k - 1); }
  }

  /** A later timeline begins where an earlier one ends, or later. */
  lemma {:induction false} FlatBeyond(ts: seq<seq<Event>>, j: nat, k: nat)
    requires j < k <= |ts|
    ensures |Flat(ts, j)| + |ts[j]| <= |Flat(ts, k)|
  {
    FlatPrefix(ts, j + 1, k);
  }

  lemma {:induction false} FlatLocal(ts: seq<seq<Event>>, ts': seq<seq<Event>>, k: nat)
    requires k <= |ts| && k <= |ts'| && ts[..k] == ts'[..k]
    ensures Flat(ts, k) == Flat(ts', k)
  {
    if k > 0 {
      assert ts[k - 1] == ts[..k][k - 1] && ts'[k - 1] == ts'[..k][k - 1];
      assert ts[..k - 1] == ts[..k][..k - 1] && ts'[..k - 1] == ts'[..k][..k - 1];
      FlatLocal(ts, ts', k - 1);
    }
  }

  /** p is the place where a timeline of the chain begins, or where the last one ends. */
  ghost predicate IsBoundary(ts: seq<seq<Event>>, p: int) {
    exists k: nat :: k <= |ts| && |Flat(ts, k)| == p
  }

  ghost predicate Unbroken(ts: seq<seq<Event>>, lo: int, hi: int) {
    forall k: nat :: k <= |ts| ==> !(lo < |Flat(ts, k)| < hi)
  }

  /** A move by delta goes all the way, or as far as the first boundary. */
  ghost predicate GoesAsFar(ts: seq<seq<Event>>, delta: int, from: int, to: int) {
    && (to - from == delta || IsBoundary(ts, to))
    && Unbroken(ts, if from < to then from else to, if from < to then to else from)
  }

  lemma {:induction false} WithinOne(ts: seq<seq<Event>>, k: nat, lo: nat, hi: nat)
    requires k < |ts| && |Flat(ts, k)| <= lo <= hi <= |Flat(ts, k)| + |ts[k]|
    ensures Unbroken(ts, lo, hi)
  {
    forall j: nat | j <= |ts|
      ensures !(lo < |Flat(ts, j)| < hi)
    {
      if j <= k { FlatPrefix(ts, j, k); } else { FlatBeyond(ts, k, j); }
    }
  }

  lemma {:induction false} MovedWithin(ts: seq<seq<Event>>, k: nat, delta: int, from: nat, to: nat)
    requires k < |ts| && |Flat(ts, k)| <= from <= |Flat(ts, k)| + |ts[k]| && |Flat(ts, k)| <= to <= |Flat(ts, k)| + |ts[k]|
    requires to - from == delta || to == |Flat(ts, k)| || to == |Flat(ts, k)| + |ts[k]|
    ensures GoesAsFar(ts, delta, from, to)
  {
    WithinOne(ts, k, if from < to then from else to, if from < to then to else from);
    FlatStep(ts, k);
  }

  // ----- Timelines

  class EventTimeline {
    var events: seq<Event>
    var baseIndex: nat
    var prevTimeline: EventTimeline?
    var nextTimeline: EventTimeline?

    constructor ()
      ensures events == [] && baseIndex == 0 && prevTimeline == null && nextTimeline == null
    {
      events, baseIndex, prevTimeline, nextTimeline := [], 0, null, null;
    }

    /** The base index counts the events that were added at the start. */
    method AddEvent(event: Event, atStart: bool)
      modifies this`events, this`baseIndex
      ensures events == if atStart then [event] + old(events) else old(events) + [event]
      ensures baseIndex == if atStart then old(baseIndex) + 1 else old(baseIndex)
    {
      if atStart {
        events := [event] + events;
        baseIndex := baseIndex + 1;
      } else {
        events := events + [event];
      }
    }

    /** The result is false when the source throws, because there is a neighbour on that side already. */
    method SetNeighbour(neighbour: EventTimeline, direction: Direction) returns (ok: bool)
      modifies this`prevTimeline, this`nextTimeline
      ensures ok <==> old(NeighbouringTimeline(direction)) == null
      ensures prevTimeline == if ok && direction == Backward then neighbour else old(prevTimeline)
      ensures nextTimeline == if ok && direction == Forward then neighbour else old(nextTimeline)
    {
      if NeighbouringTimeline(direction) != null { return false; }
      if direction == Backward {
        prevTimeline := neighbour;
      } else {
        nextTimeline := neighbour;
      }
      return true;
    }

    function NeighbouringTimeline(direction: Direction): EventTimeline?
      reads this
    {
      if direction == Backward then prevTimeline else nextTimeline
    }
  }

  /** The timelines are linked both ways in this order, and to nothing else. */
  ghost predicate IsChain(c: seq<EventTimeline>)
    reads c
  {
    && c != []
    && (forall i, j :: 0 <= i < j < |c| ==> c[i] != c[j])
    && c[0].prevTimeline == null && c[|c| - 1].nextTimeline == null
    && (forall i {:trigger c[i].nextTimeline} :: 0 <= i < |c| - 1 ==> c[i].nextTimeline == c[i + 1])
    && (forall i {:trigger c[i].prevTimeline} :: 0 < i < |c| ==> c[i].prevTimeline == c[i - 1])
  }

  /** ts are the events of the timelines of c. */
  ghost predicate Spells(c: seq<EventTimeline>, ts: seq<seq<Event>>)
    reads c
  {
    |ts| == |c| && forall i {:trigger c[i].events} :: 0 <= i < |c| ==> c[i].events == ts[i]
  }

  // ----- Indexes into the chain

  class TimelineIndex {
    var timeline: EventTimeline
    var index: int
    // which timeline of the chain this is, and the position in the flattened chain
    ghost var at: nat
    ghost var pos: nat

    constructor (timeline: EventTimeline, index: int, ghost at: nat, ghost pos: nat)
      ensures this.timeline == timeline && this.index == index && this.at == at && this.pos == pos
    {
      this.timeline, this.index, this.at, this.pos := timeline, index, at, pos;
    }

    /** A place within a timeline of the chain c, whose events are ts. */
    ghost predicate In(c: seq<EventTimeline>, ts: seq<seq<Event>>)
      reads this, timeline`events, timeline`baseIndex
    {
      && at < |c| && at < |ts| && c[at] == timeline && timeline.events == ts[at]
      && 0 <= Local() <= |ts[at]| && pos == |Flat(ts, at)| + Local()
    }

    /** How many events of the current timeline come before the index. */
    ghost function Local(): int
      reads this, timeline`baseIndex
    {
      index + timeline.baseIndex
    }

    function MinIndex(): int
      reads this, timeline
    {
      0 - timeline.baseIndex
    }

    function MaxIndex(): int
      reads this, timeline
    {
      |timeline.events| - timeline.baseIndex
    }

    /** Moves as far as there is room in the current timeline. */
    method MoveWithin(delta: int) returns (moved: int)
      requires MinIndex() <= index <= MaxIndex() && pos >= Local()
      modifies `index, `pos
      ensures index == old(index) + moved && pos == old(pos) + moved && MinIndex() <= index <= MaxIndex()
      ensures if delta >= 0 then 0 <= moved <= delta else delta <= moved <= 0
      ensures moved == delta || index == if delta >= 0 then MaxIndex() else MinIndex()
    {
      moved := 0;
      if delta < 0 {
        var room := MinIndex() - index;
        moved := if delta > room then delta else room;
      } else {
        var room := MaxIndex() - index;
        moved := if delta < room then delta else room;
      }
      index := index + moved;
      pos := pos + moved;
    }

    /** Switches to the near end of the neighbouring timeline, if there is one. */
    method EnterNeighbour(forward: bool, ghost c: seq<EventTimeline>, ghost ts: seq<seq<Event>>) returns (entered: bool)
      requires IsChain(c) && Spells(c, ts) && In(c, ts) && index == if forward then MaxIndex() else MinIndex()
      modifies `timeline, `index, `at
      ensures In(c, ts)
      ensures entered ==> at == if forward then old(at) + 1 else old(at) - 1
      ensures !entered ==> unchanged(this) && at == if forward then |c| - 1 else 0
    {
      FlatStep(ts, at);
      if at > 0 { FlatStep(ts, at - 1); }
      var neighbour := timeline.NeighbouringTimeline(if forward then Forward else Backward);
      entered := neighbour != null;
      assert 0 < at ==> c[at].prevTimeline == c[at - 1];
      assert at < |c| - 1 ==> c[at].nextTimeline == c[at + 1];
      if neighbour != null {
        timeline := neighbour;
        at := if forward then at + 1 else at - 1;
        index := if forward then MinIndex() else MaxIndex();
      }
    }

    /** Moves within the current timeline, or failing that into the neighbouring one. The global
        position moves by exactly the result: by delta, or as far as the end of the timeline that has
        events in that direction, and not at all only when nothing is left there. */
    method Advance(delta: int, ghost c: seq<EventTimeline>, ghost ts: seq<seq<Event>>) returns (moved: int)
      requires IsChain(c) && Spells(c, ts) && In(c, ts)
      modifies this
      ensures In(c, ts) && pos == old(pos) + moved
      ensures GoesAsFar(ts, delta, old(pos), pos)
      ensures if delta >= 0 then 0 <= moved <= delta else delta <= moved <= 0
      ensures moved == 0 && delta > 0 ==> pos == |AllEvents(ts)|
      ensures moved == 0 && delta < 0 ==> pos == 0
      ensures delta >= 0 ==> old(at) <= at
      ensures delta <= 0 ==> at <= old(at)
      ensures moved > 0 ==> Local() > 0
      ensures moved < 0 ==> Local() < |ts[at]|
      decreases if delta < 0 then at else |c| - at
    {
      MovedWithin(ts, at, 0, pos, pos);
      if delta == 0 { return 0; }
      ghost var from := pos;
      moved := MoveWithin(delta);
      MovedWithin(ts, at, delta, from, pos);
      if moved == 0 {
        // the index is already at the start or end of the current timeline
        var entered := EnterNeighbour(delta > 0, c, ts);
        if entered {
          moved := Advance(delta, c, ts);
        } else {
          FlatStep(ts, at);
        }
      }
    }

    /** The mirror image of Advance. */
    method Retreat(delta: int, ghost c: seq<EventTimeline>, ghost ts: seq<seq<Event>>) returns (moved: int)
      requires IsChain(c) && Spells(c, ts) && In(c, ts)
      modifies this
      ensures In(c, ts) && pos == old(pos) - moved
      ensures GoesAsFar(ts, -delta, old(pos), pos)
      ensures if delta >= 0 then 0 <= moved <= delta else delta <= moved <= 0
      ensures moved == 0 && delta > 0 ==> pos == 0
      ensures moved == 0 && delta < 0 ==> pos == |AllEvents(ts)|
      ensures delta >= 0 ==> at <= old(at)
      ensures delta <= 0 ==> old(at) <= at
      ensures moved > 0 ==> Local() < |ts[at]|
      ensures moved < 0 ==> Local() > 0
    {
      moved := Advance(-delta, c, ts);
      moved := -moved;
    }
  }

  // ----- How the flattened chain grows

  lemma {:induction false} FlatAppend(ts: seq<seq<Event>>, ts': seq<seq<Event>>, e: Event, k: nat)
    requires 0 < |ts| == |ts'| && k <= |ts|
    requires ts' == ts[|ts| - 1 := ts[|ts| - 1] + [e]]
    ensures Flat(ts', k) == if k < |ts| then Flat(ts, k) else Flat(ts, k) + [e]
  {
    if k > 0 { FlatAppend(ts, ts', e, k - 1); }
  }

  lemma {:induction false} FlatPrepend(ts: seq<seq<Event>>, ts': seq<seq<Event>>, e: Event, k: nat)
    requires 0 < |ts| == |ts'| && k <= |ts|
    requires ts' == ts[0 := [e] + ts[0]]
    ensures Flat(ts', k) == if k == 0 then [] else [e] + Flat(ts, k)
  {
    if k == 1 {
      assert Flat(ts', 0) == [] && Flat(ts, 0) == [];
    } else if k > 1 {
      FlatPrepend(ts, ts', e, k - 1);
      assert ts'[k - 1] == ts[k - 1];
    }
  }

  lemma {:induction false} FlatPush(ts: seq<seq<Event>>, more: seq<seq<Event>>, k: nat)
    requires k <= |ts|
    ensures Flat(ts + more, k) == Flat(ts, k)
  {
    if k > 0 { FlatPush(ts, more, k - 1); }
  }

  lemma {:induction false} FlatConcat(ts: seq<seq<Event>>, more: seq<seq<Event>>, k: nat)
    requires k <= |more|
    ensures Flat(ts + more, |ts| + k) == AllEvents(ts) + Flat(more, k)
  {
    if k == 0 {
      FlatPush(ts, more, |ts|);
    } else {
      FlatConcat(ts, more, k - 1);
      assert (ts + more)[|ts| + k - 1] == more[k - 1];
    }
  }

  lemma {:induction false} AllConcat(ts: seq<seq<Event>>, more: seq<seq<Event>>)
    ensures AllEvents(ts + more) == AllEvents(ts) + AllEvents(more)
    ensures AllEvents(ts + more) == [] + AllEvents(ts) + AllEvents(more)
    ensures AllEvents(ts + more) == AllEvents(ts) + AllEvents(more) + []
  {
    FlatConcat(ts, more, |more|);
    assert [] + AllEvents(ts) == AllEvents(ts);
  }

  // ----- Facts about positions

  lemma {:induction false} PlaceInside(ts: seq<seq<Event>>, k: nat, local: nat)
    requires k < |ts| && local <= |ts[k]|
    ensures |Flat(ts, k)| + local <= |AllEvents(ts)|
  {
    FlatBeyond(ts, k, |ts|);
  }

  /** A place inside a timeline, past its first event, is not at or before a place in an earlier timeline. */
  lemma {:induction false} PlacesInOrder(ts: seq<seq<Event>>, j: nat, a: nat, k: nat, b: nat)
    requires j < |ts| && k < |ts| && a <= |ts[j]| && b <= |ts[k]|
    requires |Flat(ts, j)| + a <= |Flat(ts, k)| + b
    requires a > 0 || b < |ts[k]|
    ensures j <= k
  {
    if k < j { FlatBeyond(ts, k, j); }
  }

  lemma {:induction false} FlatSlice(ts: seq<seq<Event>>, k: nat, lo: nat, hi: nat)
    requires k < |ts| && lo <= hi <= |ts[k]|
    ensures |Flat(ts, k)| + hi <= |AllEvents(ts)|
    ensures AllEvents(ts)[|Flat(ts, k)| + lo..|Flat(ts, k)| + hi] == ts[k][lo..hi]
  {
    FlatPrefix(ts, k + 1, |ts|);
    var n, all := |Flat(ts, k)|, AllEvents(ts);
    assert Flat(ts, k + 1)[n..] == ts[k];
    assert forall i :: n <= i < |Flat(ts, k + 1)| ==> all[i] == Flat(ts, k + 1)[i];
  }

  lemma {:induction false} ExtendSlice(ts: seq<seq<Event>>, from: nat, k: nat, lo: nat, hi: nat)
    requires k < |ts| && lo <= hi <= |ts[k]| && from <= |Flat(ts, k)| + lo
    ensures |Flat(ts, k)| + hi <= |AllEvents(ts)|
    ensures AllEvents(ts)[from..|Flat(ts, k)| + lo] + ts[k][lo..hi] == AllEvents(ts)[from..|Flat(ts, k)| + hi]
  {
    FlatSlice(ts, k, lo, hi);
    var all, n := AllEvents(ts), |Flat(ts, k)|;
    assert all[from..n + lo] + all[n + lo..n + hi] == all[from..n + hi];
  }

  // ----- The window

  class Window {
    const windowLimit: nat
    var start: TimelineIndex?
    var end: TimelineIndex?
    var eventCount: int
    // the chain of timelines and their events
    ghost var chain: seq<EventTimeline>
    ghost var texts: seq<seq<Event>>

    ghost function Timelines(): set<EventTimeline>
      reads `start, `end, start, end
    {
      (if start == null then {} else {start.timeline}) + (if end == null then {} else {end.timeline})
    }

    /** Both ends sit at places of the chain. */
    ghost predicate Placed()
      reads `start, `end, `chain, `texts, start, end, chain, Timelines()
    {
      && start != null && end != null && start != end
      && IsChain(chain) && Spells(chain, texts)
      && start.In(chain, texts) && end.In(chain, texts)
    }

    /** Once loaded, the two ends sit in the chain in order, and eventCount is the distance between them. */
    ghost predicate Valid()
      reads this, start, end, chain, Timelines()
    {
      && windowLimit >= 1
      && (start == null <==> end == null)
      && (start != null ==> Placed() && start.at <= end.at && eventCount >= 0 && start.pos + eventCount == end.pos)
      && (start == null ==> eventCount == 0 && chain == [] && texts == [])
    }

    /** The slice of the flattened chain that the window stands for. */
    ghost function View(): (r: seq<Event>)
      requires Valid()
      ensures |r| == eventCount
      reads this, start, end, chain, Timelines()
    {
      if start == null then []
      else
        EndInside();
        AllEvents(texts)[start.pos..end.pos]
    }

    lemma {:induction false} EndInside()
      requires Placed()
      ensures end.pos <= |AllEvents(texts)|
    {
      PlaceInside(texts, end.at, end.Local());
    }

    constructor (windowLimit: nat)
      ensures Valid() && start == null
      ensures this.windowLimit == if windowLimit == 0 then 1000 else windowLimit
    {
      this.windowLimit := if windowLimit == 0 then 1000 else windowLimit;
      start, end, eventCount := null, null, 0;
      chain, texts := [], [];
    }

    /** The ends cannot have passed each other as long as their positions have not. */
    lemma {:induction false} InOrder()
      requires Placed() && start.pos <= end.pos
      requires start.Local() > 0 || end.Local() < |texts[end.at]|
      ensures start.at <= end.at
    {
      PlacesInOrder(texts, start.at, start.Local(), end.at, end.Local());
    }

    /** Moves the start by at most delta, leaving the end in its place. */
    method MoveStart(delta: int) returns (moved: int)
      requires Placed()
      modifies start
      ensures Placed() && start.pos == old(start.pos) + moved && GoesAsFar(texts, delta, old(start.pos), start.pos)
      ensures if delta >= 0 then 0 <= moved <= delta else delta <= moved <= 0
      ensures moved == 0 && delta > 0 ==> start.pos == |AllEvents(texts)|
      ensures moved == 0 && delta < 0 ==> start.pos == 0
      ensures delta <= 0 ==> start.at <= old(start.at)
      ensures moved > 0 ==> start.Local() > 0
    {
      moved := start.Advance(delta, chain, texts);
    }

    /** Moves the end by at most delta, leaving the start in its place. */
    method MoveEnd(delta: int) returns (moved: int)
      requires Placed()
      modifies end
      ensures Placed() && end.pos == old(end.pos) + moved && GoesAsFar(texts, delta, old(end.pos), end.pos)
      ensures if delta >= 0 then 0 <= moved <= delta else delta <= moved <= 0
      ensures moved == 0 && delta > 0 ==> end.pos == |AllEvents(texts)|
      ensures moved == 0 && delta < 0 ==> end.pos == 0
      ensures delta >= 0 ==> old(end.at) <= end.at
      ensures moved < 0 ==> end.Local() < |texts[end.at]|
    {
      if delta >= 0 {
        moved := end.Advance(delta, chain, texts);
      } else {
        moved := end.Retreat(-delta, chain, texts);
        moved := -moved;
      }
    }

    /** One round of unpaginate's loop at the start; it always makes progress. */
    method DropFirst(delta: int) returns (count: int)
      requires Valid() && 0 < delta <= eventCount
      modifies start, `eventCount
      ensures Valid() && 0 < count <= delta
      ensures eventCount == old(eventCount) - count && end.pos == old(end.pos)
    {
      EndInside();
      count := MoveStart(delta);
      InOrder();
      eventCount := eventCount - count;
    }

    /** One round of unpaginate's loop at the end. */
    method DropLast(delta: int) returns (count: int)
      requires Valid() && 0 < delta <= eventCount
      modifies end, `eventCount
      ensures Valid() && 0 < count <= delta
      ensures eventCount == old(eventCount) - count && start.pos == old(start.pos)
    {
      count := MoveEnd(-delta);
      count := -count;
      InOrder();
      eventCount := eventCount - count;
    }

    /** Drops events from one end. The result is false when the source throws, which leaves the
        window as it is; the loop never gets stuck. */
    method Unpaginate(delta: int, startOfTimeline: bool) returns (ok: bool)
      requires Valid()
      modifies start, end, `eventCount
      ensures Valid()
      ensures ok <==> 0 <= delta <= old(eventCount)
      ensures eventCount == if ok then old(eventCount) - delta else old(eventCount)
      ensures start != null ==>
                if startOfTimeline then end.pos == old(end.pos) else start.pos == old(start.pos)
      ensures ok ==> View() == if startOfTimeline then old(View())[delta..] else old(View())[..old(eventCount) - delta]
    {
      if delta > eventCount || delta < 0 { return false; }
      ok := true;
      if start == null { return; }
      EndInside();
      TrimSlice(AllEvents(texts), start.pos, end.pos, delta);
      DropMany(delta, startOfTimeline);
    }

    /** unpaginate's loop. */
    method DropMany(delta: nat, startOfTimeline: bool)
      requires Valid() && start != null && delta <= eventCount
      modifies start, end, `eventCount
      ensures Valid() && eventCount == old(eventCount) - delta
      ensures if startOfTimeline then end.pos == old(end.pos) else start.pos == old(start.pos)
    {
      var rest := delta;
      while rest > 0
        invariant 0 <= rest <= delta && Valid() && rest <= eventCount
        invariant eventCount == old(eventCount) - (delta - rest)
        invariant if startOfTimeline then end.pos == old(end.pos) else start.pos == old(start.pos)
      {
        var count;
        if startOfTimeline {
          count := DropFirst(rest);
        } else {
          count := DropLast(rest);
        }
        rest := rest - count;
      }
    }

    /** Extends the window one way, and trims it at the other end if it has grown past its limit.
        moved is how many events were gained. A negative size moves the end inwards; the ends stay
        in order as long as there are that many events in the window. */
    method Extend(direction: Direction, size: int) returns (extended: bool, ghost moved: int)
      requires Valid()
      modifies start, end, `eventCount
      ensures -old(eventCount) <= size ==> Valid()
      ensures start != null ==> Placed() && start.pos + eventCount == end.pos
      ensures extended <==> moved != 0
      ensures start == null ==> !extended
      ensures if size >= 0 then 0 <= moved <= size else size <= moved <= 0
      ensures start != null && moved == 0 && size > 0 ==>
                if direction == Backward then start.pos == 0 else end.pos == |AllEvents(texts)|
      ensures start != null && moved == 0 && size < 0 ==>
                if direction == Backward then start.pos == |AllEvents(texts)| else end.pos == 0
      ensures eventCount == if extended && old(eventCount) + moved > windowLimit then windowLimit else old(eventCount) + moved
      ensures start != null ==>
                if direction == Backward then start.pos == old(start.pos) - moved else end.pos == old(end.pos) + moved
      ensures start != null ==>
                if direction == Backward then GoesAsFar(texts, -size, old(start.pos), start.pos)
                else GoesAsFar(texts, size, old(end.pos), end.pos)
    {
      moved := 0;
      if start == null { return false, 0; }
      var count;
      if direction == Backward {
        count := GrowBackward(size);
      } else {
        count := GrowForward(size);
      }
      moved := count;
      if count == 0 { return false, 0; }
      Trim(direction);
      return true, moved;
    }

    /** Removes what is too much at the end opposite to the one that was extended. */
    method Trim(direction: Direction)
      requires windowLimit >= 1 && start != null && Placed() && start.pos + eventCount == end.pos
      requires eventCount >= 0 ==> Valid()
      modifies start, end, `eventCount
      ensures old(eventCount) >= 0 ==> Valid()
      ensures Placed() && start.pos + eventCount == end.pos
      ensures eventCount == if old(eventCount) > windowLimit then windowLimit else old(eventCount)
      ensures if direction == Backward then start.pos == old(start.pos) else end.pos == old(end.pos)
    {
      var excess := eventCount - windowLimit;
      if excess > 0 {
        var ok := Unpaginate(excess, direction != Backward);
      }
    }

    method GrowBackward(size: int) returns (count: int)
      requires Valid() && start != null
      modifies start, `eventCount
      ensures Placed() && start.pos + eventCount == end.pos && eventCount == old(eventCount) + count
      ensures start.pos == old(start.pos) - count && end.pos == old(end.pos)
      ensures GoesAsFar(texts, -size, old(start.pos), start.pos)
      ensures if size >= 0 then 0 <= count <= size else size <= count <= 0
      ensures eventCount >= 0 && (count != 0 || -old(eventCount) <= size) ==> Valid()
      ensures count == 0 && size > 0 ==> start.pos == 0
      ensures count == 0 && size < 0 ==> start.pos == |AllEvents(texts)|
    {
      EndInside();
      var moved := MoveStart(-size);
      count := -moved;
      eventCount := eventCount + count;
      if eventCount >= 0 && moved > 0 { InOrder(); }
    }

    method GrowForward(size: int) returns (count: int)
      requires Valid() && start != null
      modifies end, `eventCount
      ensures Placed() && start.pos + eventCount == end.pos && eventCount == old(eventCount) + count
      ensures end.pos == old(end.pos) + count && start.pos == old(start.pos)
      ensures GoesAsFar(texts, size, old(end.pos), end.pos)
      ensures if size >= 0 then 0 <= count <= size else size <= count <= 0
      ensures eventCount >= 0 && (count != 0 || -old(eventCount) <= size) ==> Valid()
      ensures count == 0 && size > 0 ==> end.pos == |AllEvents(texts)|
      ensures count == 0 && size < 0 ==> end.pos == 0
    {
      count := MoveEnd(size);
      eventCount := eventCount + count;
      if eventCount >= 0 && count < 0 { InOrder(); }
    }

    /** Points the window at the event, or at the end of the timeline when none is given. The result
        is false when the source throws because the timeline does not have the event. */
    method InitFields(timeline: EventTimeline, initialEventId: Option<string>, initialWindowSize: nat,
                      ghost c: seq<EventTimeline>, ghost ts: seq<seq<Event>>, ghost k: nat) returns (found: bool)
      requires Valid() && IsChain(c) && Spells(c, ts) && k < |c| && c[k] == timeline
      modifies this
      ensures Valid()
      ensures found <==> initialEventId.None? || IndexOfId(ts[k], initialEventId.value) < |ts[k]|
      ensures !found ==> unchanged(this)
      ensures found ==>
                && start != null && fresh(start) && fresh(end) && chain == c && texts == ts
                && IsInitialRange(ts[k], initialEventId, initialWindowSize, start.pos - |Flat(ts, k)|, end.pos - |Flat(ts, k)|)
    {
      var range := InitialRange(timeline.events, initialEventId, initialWindowSize);
      found := range.Some?;
      if found {
        PlaceAt(timeline, range.value.0, range.value.1, c, ts, k);
      }
    }

    method PlaceAt(timeline: EventTimeline, startIndex: nat, endIndex: nat, ghost c: seq<EventTimeline>, ghost ts: seq<seq<Event>>, ghost k: nat)
      requires windowLimit >= 1 && IsChain(c) && Spells(c, ts) && k < |c| && c[k] == timeline
      requires startIndex <= endIndex <= |ts[k]|
      modifies this
      ensures Valid() && start != null && fresh(start) && fresh(end) && chain == c && texts == ts
      ensures start.pos == |Flat(ts, k)| + startIndex && end.pos == |Flat(ts, k)| + endIndex
    {
      start := new TimelineIndex(timeline, startIndex - timeline.baseIndex, k, |Flat(ts, k)| + startIndex);
      end := new TimelineIndex(timeline, endIndex - timeline.baseIndex, k, |Flat(ts, k)| + endIndex);
      eventCount, chain, texts := endIndex - startIndex, c, ts;
    }

    /** The part of the k-th timeline that lies in the window. */
    ghost function Lo(k: nat): nat
      requires Placed()
      reads `start, `end, `chain, `texts, start, end, chain, Timelines()
    {
      if k == start.at then start.Local() else 0
    }

    ghost function Hi(k: nat): nat
      requires Placed() && k < |texts|
      reads `start, `end, `chain, `texts, start, end, chain, Timelines()
    {
      if k == end.at then end.Local() else |texts[k]|
    }

    lemma {:induction false} PartOfWindow(k: nat)
      requires Valid() && start != null && start.at <= k <= end.at
      ensures k < |texts| && Lo(k) <= Hi(k) <= |texts[k]|
      ensures start.pos <= |Flat(texts, k)| + Lo(k) && |Flat(texts, k)| + Hi(k) <= end.pos
      ensures k < end.at ==> |Flat(texts, k)| + Hi(k) == |Flat(texts, k + 1)| + Lo(k + 1)
    {
      if start.at < k { FlatBeyond(texts, start.at, k); }
      if k < end.at { FlatBeyond(texts, k, end.at); FlatStep(texts, k); }
    }

    /** The events of the window in the flattened chain before position p. */
    ghost function Read(p: nat): seq<Event>
      requires Placed() && start.pos <= p <= end.pos
      reads `start, `end, `chain, `texts, start, end, chain, Timelines()
    {
      EndInside();
      AllEvents(texts)[start.pos..p]
    }

    /** One round of getEvents' loop. */
    method ReadTimeline(timeline: EventTimeline, before: seq<Event>, ghost k: nat, ghost p: nat) returns (after: seq<Event>, ghost q: nat)
      requires Valid() && start != null && start.at <= k <= end.at && timeline == chain[k]
      requires p == |Flat(texts, k)| + Lo(k) && start.pos <= p <= end.pos && before == Read(p)
      ensures start.pos <= q <= end.pos && after == Read(q)
      ensures if k == end.at then q == end.pos else q == |Flat(texts, k + 1)| + Lo(k + 1)
    {
      PartOfWindow(k);
      assert timeline == start.timeline <==> k == start.at;
      assert timeline == end.timeline <==> k == end.at;
      var startIndex := if timeline == start.timeline then start.index + timeline.baseIndex else 0;
      var endIndex := if timeline == end.timeline then end.index + timeline.baseIndex else |timeline.events|;
      var part := CopyEvents(timeline.events, startIndex, endIndex);
      ExtendSlice(texts, start.pos, k, startIndex, endIndex);
      after := before + part;
      q := |Flat(texts, k)| + endIndex;
    }

    /** The events in the window, from first to last: exactly the slice it stands for. */
    method GetEvents() returns (result: seq<Event>)
      requires Valid()
      ensures result == View()
    {
      if start == null { return []; }
      result := [];
      var timeline := start.timeline;
      ghost var k := start.at;
      ghost var p := start.pos;
      EndInside();
      assert AllEvents(texts)[p..p] == [];
      while true
        invariant start.at <= k <= end.at && timeline == chain[k]
        invariant p == |Flat(texts, k)| + Lo(k) && start.pos <= p <= end.pos
        invariant result == Read(p)
        decreases end.at - k
      {
        result, p := ReadTimeline(timeline, result, k, p);
        if timeline == end.timeline {
          break;
        }
        timeline := timeline.nextTimeline;
        k := k + 1;
      }
    }
  }

  // ----- Growth of the chain at its open ends

  /** What a window may rely on when the chain has grown to c, with events ts: an end that was at
      (at, pos) is now at (at + dAt, pos + dPos), its timeline and index being the same. */
  ghost predicate Regrown(i: TimelineIndex, c: seq<EventTimeline>, ts: seq<seq<Event>>, dAt: nat, dPos: nat)
    reads i, i.timeline`baseIndex
  {
    && i.at + dAt < |c| && i.at + dAt < |ts| && c[i.at + dAt] == i.timeline
    && 0 <= i.Local() <= |ts[i.at + dAt]| && i.pos + dPos == |Flat(ts, i.at + dAt)| + i.Local()
  }

  lemma {:induction false} InExtended(i: TimelineIndex, c: seq<EventTimeline>, ts: seq<seq<Event>>, ts': seq<seq<Event>>, e: Event)
    requires i.In(c, ts) && |ts| == |c| && ts' == ts[|ts| - 1 := ts[|ts| - 1] + [e]]
    ensures Regrown(i, c, ts', 0, 0)
  {
    FlatAppend(ts, ts', e, i.at);
  }

  lemma {:induction false} InAppended(i: TimelineIndex, c: seq<EventTimeline>, ts: seq<seq<Event>>, d: seq<EventTimeline>, ds: seq<seq<Event>>)
    requires i.In(c, ts)
    ensures Regrown(i, c + d, ts + ds, 0, 0)
  {
    FlatPush(ts, ds, i.at);
  }

  lemma {:induction false} InPrepended(i: TimelineIndex, c: seq<EventTimeline>, ts: seq<seq<Event>>, d: seq<EventTimeline>, ds: seq<seq<Event>>)
    requires i.In(c, ts) && |d| == |ds|
    ensures Regrown(i, d + c, ds + ts, |d|, |AllEvents(ds)|)
  {
    FlatConcat(ds, ts, i.at);
  }

  /** A window in order whose two ends can be carried over to the grown chain. */
  ghost predicate Carried(w: Window, c: seq<EventTimeline>, ts: seq<seq<Event>>, dAt: nat, dPos: nat)
    reads w`start, w`end, w`eventCount, w.start, w.end
    reads if w.start == null then {} else {w.start.timeline}`baseIndex
    reads if w.end == null then {} else {w.end.timeline}`baseIndex
  {
    && w.windowLimit >= 1 && w.start != null && w.end != null && w.start != w.end
    && w.start.at <= w.end.at && w.eventCount >= 0 && w.start.pos + w.eventCount == w.end.pos
    && Regrown(w.start, c, ts, dAt, dPos) && Regrown(w.end, c, ts, dAt, dPos)
  }

  ghost method Rebase(i: TimelineIndex, c: seq<EventTimeline>, ts: seq<seq<Event>>, dAt: nat, dPos: nat)
    requires Spells(c, ts) && Regrown(i, c, ts, dAt, dPos)
    modifies i`at, i`pos
    ensures i.In(c, ts) && i.at == old(i.at) + dAt && i.pos == old(i.pos) + dPos
  {
    i.at, i.pos := i.at + dAt, i.pos + dPos;
  }

  ghost method Refresh(w: Window, c: seq<EventTimeline>, ts: seq<seq<Event>>, dAt: nat, dPos: nat)
    requires IsChain(c) && Spells(c, ts) && Carried(w, c, ts, dAt, dPos)
    modifies w`chain, w`texts, w.start`at, w.start`pos, w.end`at, w.end`pos
    ensures w.Valid() && w.chain == c && w.texts == ts
    ensures w.start.pos == old(w.start.pos) + dPos && w.end.pos == old(w.end.pos) + dPos
  {
    Rebase(w.start, c, ts, dAt, dPos);
    Rebase(w.end, c, ts, dAt, dPos);
    w.chain, w.texts := c, ts;
    InPlace(w);
  }

  /** Carries the window over to a chain with new events before and after the old ones, which does
      not change what it shows. */
  ghost method CarryOver(w: Window, c: seq<EventTimeline>, ts: seq<seq<Event>>, dAt: nat, all: seq<Event>, before: seq<Event>, after: seq<Event>)
    requires IsChain(c) && Spells(c, ts) && Carried(w, c, ts, dAt, |before|)
    requires w.end.pos <= |all| && AllEvents(ts) == before + all + after
    modifies w`chain, w`texts, w.start`at, w.start`pos, w.end`at, w.end`pos
    ensures w.Valid() && w.chain == c && w.texts == ts
    ensures w.start.pos == old(w.start.pos) + |before| && w.end.pos == old(w.end.pos) + |before|
    ensures w.View() == all[old(w.start.pos)..old(w.end.pos)]
  {
    SliceStays(all, before, after, w.start.pos, w.end.pos);
    Refresh(w, c, ts, dAt, |before|);
  }

  lemma {:induction false} InPlace(w: Window)
    requires w.windowLimit >= 1 && w.start != null && w.end != null && w.start != w.end
    requires IsChain(w.chain) && Spells(w.chain, w.texts) && w.start.In(w.chain, w.texts) && w.end.In(w.chain, w.texts)
    requires w.start.at <= w.end.at && w.eventCount >= 0 && w.start.pos + w.eventCount == w.end.pos
    ensures w.Valid()
  {
  }

  /** A chain grown at its ends has the old events in the middle, so a window moved along shows the same. */
  lemma {:induction false} SliceStays(all: seq<Event>, before: seq<Event>, after: seq<Event>, from: nat, to: nat)
    requires from <= to <= |all|
    ensures (before + all + after)[|before| + from..|before| + to] == all[from..to]
  {
  }

  lemma {:induction false} TrimSlice(all: seq<Event>, from: nat, to: nat, delta: nat)
    requires from + delta <= to <= |all|
    ensures all[from..to][delta..] == all[from + delta..to]
    ensures all[from..to][..to - from - delta] == all[from..to - delta]
  {
  }

  method AddToChain(timeline: EventTimeline, e: Event, atStart: bool, ghost c: seq<EventTimeline>, ghost ts: seq<seq<Event>>, ghost k: nat)
    requires IsChain(c) && Spells(c, ts) && k < |c| && c[k] == timeline
    modifies timeline`events, timeline`baseIndex
    ensures IsChain(c) && Spells(c, ts[k := if atStart then [e] + ts[k] else ts[k] + [e]])
    ensures timeline.baseIndex == if atStart then old(timeline.baseIndex) + 1 else old(timeline.baseIndex)
  {
    timeline.AddEvent(e, atStart);
  }

  ghost predicate Apart(c: seq<EventTimeline>, d: seq<EventTimeline>) {
    forall i, j :: 0 <= i < |c| && 0 <= j < |d| ==> c[i] != d[j]
  }

  /** Two chains are linked end to end. */
  method LinkChains(last: EventTimeline, first: EventTimeline, ghost c: seq<EventTimeline>, ghost d: seq<EventTimeline>,
                    ghost ts: seq<seq<Event>>, ghost ds: seq<seq<Event>>)
    requires IsChain(c) && Spells(c, ts) && IsChain(d) && Spells(d, ds) && Apart(c, d)
    requires last == c[|c| - 1] && first == d[0]
    modifies last`nextTimeline, last`prevTimeline, first`nextTimeline, first`prevTimeline
    ensures IsChain(c + d) && Spells(c + d, ts + ds)
  {
    var forth := last.SetNeighbour(first, Forward);
    var back := first.SetNeighbour(last, Backward);
  }

  /** An event arrives at the end of the last timeline. */
  method AppendEvent(w: Window, last: EventTimeline, e: Event)
    requires w.Valid() && w.start != null && last == w.chain[|w.chain| - 1]
    modifies last`events, last`baseIndex, w`chain, w`texts, w.start`at, w.start`pos, w.end`at, w.end`pos
    ensures w.Valid() && w.chain == old(w.chain)
    ensures w.start.pos == old(w.start.pos) && w.end.pos == old(w.end.pos)
    ensures w.View() == old(w.View())
    ensures w.texts == var ts := old(w.texts); ts[|ts| - 1 := ts[|ts| - 1] + [e]]
    ensures AllEvents(w.texts) == old(AllEvents(w.texts)) + [e]
  {
    w.EndInside();
    ghost var all := AllEvents(w.texts);
    ghost var ts, n := w.texts, |w.texts| - 1;
    ghost var ts' := ts[n := ts[n] + [e]];
    CarriedAppended(w, ts', e);
    AllAppended(ts, ts', e);
    AddToChain(last, e, false, w.chain, ts, n);
    CarryOver(w, w.chain, ts', 0, all, [], [e]);
  }

  /** An older event is put in front of the first timeline, whose base index goes up. */
  method PrependEvent(w: Window, first: EventTimeline, e: Event)
    requires w.Valid() && w.start != null && first == w.chain[0]
    modifies first`events, first`baseIndex, w`chain, w`texts, w.start`at, w.start`pos, w.end`at, w.end`pos
    ensures w.Valid() && w.chain == old(w.chain)
    ensures w.start.pos == old(w.start.pos) + 1 && w.end.pos == old(w.end.pos) + 1
    ensures w.View() == old(w.View())
    ensures w.texts == var ts := old(w.texts); ts[0 := [e] + ts[0]]
    ensures AllEvents(w.texts) == [e] + old(AllEvents(w.texts))
  {
    w.EndInside();
    ghost var all := AllEvents(w.texts);
    ghost var ts := w.texts;
    ghost var ts' := ts[0 := [e] + ts[0]];
    FlatPrepend(ts, ts', e, w.start.at);
    FlatPrepend(ts, ts', e, w.end.at);
    FlatPrepend(ts, ts', e, |ts|);
    AddToChain(first, e, true, w.chain, ts, 0);
    CarryOver(w, w.chain, ts', 0, all, [e], []);
  }

  lemma {:induction false} CarriedAppended(w: Window, ts: seq<seq<Event>>, e: Event)
    requires w.Valid() && w.start != null && ts == w.texts[|w.texts| - 1 := w.texts[|w.texts| - 1] + [e]]
    ensures Carried(w, w.chain, ts, 0, 0)
  {
    InExtended(w.start, w.chain, w.texts, ts, e);
    InExtended(w.end, w.chain, w.texts, ts, e);
  }

  lemma {:induction false} AllAppended(ts: seq<seq<Event>>, ts': seq<seq<Event>>, e: Event)
    requires ts != [] && ts' == ts[|ts| - 1 := ts[|ts| - 1] + [e]]
    ensures AllEvents(ts') == AllEvents(ts) + [e]
    ensures AllEvents(ts') == [] + AllEvents(ts) + [e]
  {
    FlatAppend(ts, ts', e, |ts|);
    assert [] + AllEvents(ts) == AllEvents(ts);
  }

  lemma {:induction false} CarriedAfter(w: Window, d: seq<EventTimeline>, ds: seq<seq<Event>>)
    requires w.Valid() && w.start != null
    ensures Carried(w, w.chain + d, w.texts + ds, 0, 0)
  {
    InAppended(w.start, w.chain, w.texts, d, ds);
    InAppended(w.end, w.chain, w.texts, d, ds);
  }

  lemma {:induction false} CarriedBefore(w: Window, d: seq<EventTimeline>, ds: seq<seq<Event>>)
    requires w.Valid() && w.start != null && |d| == |ds|
    ensures Carried(w, d + w.chain, ds + w.texts, |d|, |AllEvents(ds)|)
  {
    InPrepended(w.start, w.chain, w.texts, d, ds);
    InPrepended(w.end, w.chain, w.texts, d, ds);
  }

  /** The last timeline joins up with the first one of a later chain d. */
  method JoinAfter(w: Window, last: EventTimeline, t: EventTimeline, ghost d: seq<EventTimeline>, ghost ds: seq<seq<Event>>)
    requires w.Valid() && w.start != null && last == w.chain[|w.chain| - 1]
    requires IsChain(d) && Spells(d, ds) && Apart(w.chain, d) && t == d[0]
    modifies last`nextTimeline, last`prevTimeline, t`nextTimeline, t`prevTimeline
    modifies w`chain, w`texts, w.start`at, w.start`pos, w.end`at, w.end`pos
    ensures w.Valid() && w.chain == old(w.chain) + d && w.texts == old(w.texts) + ds
    ensures w.start.pos == old(w.start.pos) && w.end.pos == old(w.end.pos)
    ensures w.View() == old(w.View())
    ensures AllEvents(w.texts) == old(AllEvents(w.texts)) + AllEvents(ds)
  {
    w.EndInside();
    ghost var all, ts := AllEvents(w.texts), w.texts;
    AllConcat(ts, ds);
    CarriedAfter(w, d, ds);
    LinkChains(last, t, w.chain, d, ts, ds);
    CarryOver(w, w.chain + d, ts + ds, 0, all, [], AllEvents(ds));
  }

  /** The first timeline joins up with the last one of an earlier chain d. */
  method JoinBefore(w: Window, first: EventTimeline, t: EventTimeline, ghost d: seq<EventTimeline>, ghost ds: seq<seq<Event>>)
    requires w.Valid() && w.start != null && first == w.chain[0]
    requires IsChain(d) && Spells(d, ds) && Apart(d, w.chain) && t == d[|d| - 1]
    modifies first`nextTimeline, first`prevTimeline, t`nextTimeline, t`prevTimeline
    modifies w`chain, w`texts, w.start`at, w.start`pos, w.end`at, w.end`pos
    ensures w.Valid() && w.chain == d + old(w.chain) && w.texts == ds + old(w.texts)
    ensures w.start.pos == old(w.start.pos) + |AllEvents(ds)| && w.end.pos == old(w.end.pos) + |AllEvents(ds)|
    ensures w.View() == old(w.View())
    ensures AllEvents(w.texts) == AllEvents(ds) + old(AllEvents(w.texts))
  {
    w.EndInside();
    ghost var all, ts := AllEvents(w.texts), w.texts;
    AllConcat(ds, ts);
    CarriedBefore(w, d, ds);
    LinkChains(t, first, d, w.chain, ds, ts);
    CarryOver(w, d + w.chain, ds + ts, |d|, all, AllEvents(ds), []);
  }

  function Min(a: int, b: int): int {
    if a < b then a else b
  }

  function IndexOfId(events: seq<Event>, id: string): (i: nat)
    ensures i <= |events|
    ensures i < |events| ==> events[i].id == id
    ensures forall j :: 0 <= j < i ==> events[j].id != id
  {
    if events == [] || events[0].id == id then 0 else 1 + IndexOfId(events[1..], id)
  }

  method FindEvent(events: seq<Event>, id: string) returns (i: nat)
    ensures i == IndexOfId(events, id)
  {
    i := 0;
    while i < |events| && events[i].id != id
      invariant i <= |events| && forall j :: 0 <= j < i ==> events[j].id != id
    {
      i := i + 1;
    }
  }

  /** lo..hi is the last stretch of at most `size` events, or the stretch around the event asked for,
      with half of the window from that event on unless the timeline ends before. */
  ghost predicate IsInitialRange(events: seq<Event>, initialEventId: Option<string>, size: nat, lo: int, hi: int) {
    && 0 <= lo <= hi <= |events| && hi - lo == Min(hi, size)
    && (initialEventId.None? ==> hi == |events|)
    && (initialEventId.Some? ==>
          var i := IndexOfId(events, initialEventId.value);
          && hi == Min(|events|, i + (size + 1) / 2)
          && (size >= 1 ==> lo <= i < hi))
  }

  /** Without an event to show, the range is the last `size` events, or all of them; with one it holds
      that event, if it holds any, and `size` events unless the timeline begins or ends before. */
  lemma {:induction false} InitialRangeShows(events: seq<Event>, initialEventId: Option<string>, size: nat, lo: int, hi: int)
    requires IsInitialRange(events, initialEventId, size, lo, hi)
    ensures initialEventId.None? ==> hi == |events| && lo == if size <= |events| then |events| - size else 0
    ensures initialEventId.Some? && size >= 1 ==> exists i :: lo <= i < hi && events[i].id == initialEventId.value
    ensures 0 <= lo <= hi <= |events| && (hi - lo == size || lo == 0 < size)
  {
    if initialEventId.Some? && size >= 1 {
      var i := IndexOfId(events, initialEventId.value);
      assert lo <= i < hi && events[i].id == initialEventId.value;
    }
  }

  /** With events enough on both sides, the event asked for is in the middle. */
  lemma {:induction false} InitialRangeIsCentred(events: seq<Event>, id: string, size: nat, lo: int, hi: int)
    requires IsInitialRange(events, Some(id), size, lo, hi)
    requires var i := IndexOfId(events, id); size <= 2 * i && size <= 2 * (|events| - i)
    ensures var i := IndexOfId(events, id); hi - lo == size && 0 <= (hi - i) - (i - lo) <= 1
  {
  }

  method InitialRange(events: seq<Event>, initialEventId: Option<string>, initialWindowSize: nat) returns (range: Option<(nat, nat)>)
    ensures range.None? <==> initialEventId.Some? && IndexOfId(events, initialEventId.value) == |events|
    ensures range.Some? ==> IsInitialRange(events, initialEventId, initialWindowSize, range.value.0, range.value.1)
  {
    var eventIndex := |events|;
    if initialEventId.Some? {
      eventIndex := FindEvent(events, initialEventId.value);
      if eventIndex == |events| { return None; }
    }
    var endIndex := Min(|events|, eventIndex + (initialWindowSize + 1) / 2);
    var startIndex := if endIndex > initialWindowSize then endIndex - initialWindowSize else 0;
    range := Some((startIndex, endIndex));
  }

  method CopyEvents(events: seq<Event>, from: nat, to: nat) returns (result: seq<Event>)
    requires from <= to <= |events|
    ensures result == events[from..to]
  {
    result := [];
    for i := from to to
      invariant result == events[from..i]
    {
      result := result + [events[i]];
    }
  }
}
