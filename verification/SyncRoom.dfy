/** One joined room of the sync accumulator (src/sync-accumulator.ts): how a /sync delta is folded
    into it, and which /sync sections represent it. */
module SyncRoom {
  import opened Common

  // ----- Events and state

  /** A room event; rest stands for every field the accumulator only copies.
      prevContent and prevSender are the truthy values of unsigned.prev_content and unsigned.prev_sender. */
  datatype Event = Event(kind: string, stateKey: Option<string>, content: Json, sender: string,
                         prevContent: Option<Json>, prevSender: Option<string>, rest: Json)

  type StateKey = (string, string)
  type State = map<StateKey, Event>

  predicate IsState(e: Event) {
    e.stateKey.Some? && e.kind != ""
  }

  function KeyOf(e: Event): StateKey
    requires IsState(e)
  {
    (e.kind, e.stateKey.value)
  }

  function SetState(m: State, e: Event): State {
    if IsState(e) then m[KeyOf(e) := e] else m
  }

  /** Reading a list of events forwards: the meaning of a /sync section. */
  function Replay(m: State, es: seq<Event>): State {
    if es == [] then m else SetState(Replay(m, es[..|es| - 1]), es[|es| - 1])
  }

  /** The last event of the list for each key. */
  function Latest(es: seq<Event>): State {
    Replay(map[], es)
  }

  /** The first event of the list for each key. */
  function Earliest(es: seq<Event>): State {
    if es == [] then map[] else SetState(Earliest(es[1..]), es[0])
  }

  /** The state event that getJSON makes up for the moment just before e. */
  function PreviousOf(e: Event): Event {
    var e' := if e.prevContent.Some? then e.(content := e.prevContent.value) else e;
    if e.prevSender.Some? then e'.(sender := e.prevSender.value) else e'
  }

  /** Reverse clobbering, from the end of the timeline to its start. */
  function RollBack(es: seq<Event>): State {
    if es == [] then map[] else SetState(RollBack(es[1..]), PreviousOf(es[0]))
  }

  /** The state getJSON emits for the start of a timeline. */
  function StartState(current: State, es: seq<Event>): State {
    map k | k in current :: if k in RollBack(es) then RollBack(es)[k] else current[k]
  }

  ghost predicate WellKeyed(m: State) {
    forall k :: k in m ==> IsState(m[k]) && KeyOf(m[k]) == k
  }

  // ----- The timeline

  /** token is "" for every value the source treats as falsy. */
  datatype Entry = Entry(event: Event, token: string)

  function Events(t: seq<Entry>): (es: seq<Event>)
    ensures |es| == |t| && forall i :: 0 <= i < |t| ==> es[i] == t[i].event
  {
    seq(|t|, i requires 0 <= i < |t| => t[i].event)
  }

  /** Only the first event of a batch carries a back-pagination token. */
  function Batch(es: seq<Event>, prevBatch: string): (t: seq<Entry>)
    ensures |t| == |es|
    ensures forall i :: 0 <= i < |t| ==> t[i] == Entry(es[i], if i == 0 then prevBatch else "")
  {
    seq(|es|, i requires 0 <= i < |es| => Entry(es[i], if i == 0 then prevBatch else ""))
  }

  /** The first index from i on whose entry has a token, or the length. */
  function FirstToken(t: seq<Entry>, i: nat): (k: nat)
    requires i <= |t|
    ensures i <= k <= |t|
    ensures forall j :: i <= j < k ==> t[j].token == ""
    ensures k < |t| ==> t[k].token != ""
    decreases |t| - i
  {
    if i < |t| && t[i].token == "" then FirstToken(t, i + 1) else i
  }

  /** Cutting a timeline that is too long at the first token that makes it fit, if there is one. */
  function Prune(t: seq<Entry>, max: nat): seq<Entry> {
    if |t| <= max then t
    else
      var k := FirstToken(t, |t| - max);
      if k < |t| then t[k..] else t
  }

  /** What is emitted: everything from the first token on. */
  function Emitted(t: seq<Entry>): seq<Entry> {
    t[FirstToken(t, 0)..]
  }

  function Token(t: seq<Entry>): string {
    if t == [] then "" else t[0].token
  }

  // ----- Receipts, account data and summary

  datatype Receipt = Receipt(data: Json, eventId: string)
  type Readers = map<string, Json>

  /** One property of a receipt event's content: event id -> receipt type -> user id -> data.
      The properties of an object are kept in their order, since later ones clobber. */
  type ReceiptContent = seq<(string, map<string, Readers>)>

  datatype EphemeralEvent = EphemeralEvent(kind: string, content: Option<ReceiptContent>)
  datatype TypedEvent = TypedEvent(kind: string, content: Json)
  datatype Summary = Summary(heroes: Option<Json>, joinedCount: nat, invitedCount: nat)

  const READ := "m.read"

  function FoldReaders(receipts: map<string, Receipt>, eventId: string, readers: Readers): map<string, Receipt> {
    receipts + map u | u in readers :: Receipt(readers[u], eventId)
  }

  function FoldContent(receipts: map<string, Receipt>, content: ReceiptContent): map<string, Receipt> {
    if content == [] then receipts
    else
      var before, last := FoldContent(receipts, content[..|content| - 1]), content[|content| - 1];
      if READ in last.1 then FoldReaders(before, last.0, last.1[READ]) else before
  }

  function FoldEphemeral(receipts: map<string, Receipt>, es: seq<EphemeralEvent>): map<string, Receipt> {
    if es == [] then receipts
    else
      var before, last := FoldEphemeral(receipts, es[..|es| - 1]), es[|es| - 1];
      if last.kind != "m.receipt" || last.content.None? then before
      else FoldContent(before, last.content.value)
  }

  function Clobber(m: map<string, TypedEvent>, es: seq<TypedEvent>): map<string, TypedEvent> {
    if es == [] then m else Clobber(m, es[..|es| - 1])[es[|es| - 1].kind := es[|es| - 1]]
  }

  function MergeSummary(acc: Summary, sum: Summary): Summary {
    Summary(if sum.heroes.Some? then sum.heroes else acc.heroes,
            if sum.joinedCount != 0 then sum.joinedCount else acc.joinedCount,
            if sum.invitedCount != 0 then sum.invitedCount else acc.invitedCount)
  }

  // ----- Rooms and responses

  datatype Room = Room(currentState: State, timeline: seq<Entry>, summary: Summary,
                       accountData: map<string, TypedEvent>, unread: Json, receipts: map<string, Receipt>)

  /** The 'join' section for one room; a missing section is an empty one. */
  datatype JoinedRoom = JoinedRoom(state: seq<Event>, timeline: seq<Event>, limited: bool, prevBatch: string,
                                   ephemeral: seq<EphemeralEvent>, accountData: seq<TypedEvent>,
                                   unread: Option<Json>, summary: Option<Summary>)

  const EMPTY_ROOM := Room(map[], [], Summary(None, 0, 0), map[], "{}", map[])

  /** The old timeline that a response continues. */
  function Continued(room: Room, d: JoinedRoom): seq<Entry> {
    if d.limited then [] else room.timeline
  }

  function NewTimeline(room: Room, d: JoinedRoom, max: nat): seq<Entry> {
    Prune(Continued(room, d) + Batch(d.timeline, d.prevBatch), max)
  }

  function AccumulateJoin(room: Room, d: JoinedRoom, max: nat): Room {
    Room(Replay(Replay(room.currentState, d.state), d.timeline),
         NewTimeline(room, d, max),
         if d.summary.Some? then MergeSummary(room.summary, d.summary.value) else room.summary,
         Clobber(room.accountData, d.accountData),
         if d.unread.Some? then d.unread.value else room.unread,
         FoldEphemeral(room.receipts, d.ephemeral))
  }

  // ----- The emitted JSON

  /** es lists the values of m, each once, in some order. */
  ghost predicate ListsState(es: seq<Event>, m: State) {
    && |es| == |m|
    && (forall i :: 0 <= i < |es| ==> IsEntryOf(es[i], m))
    && (forall k :: k in m ==> m[k] in es)
  }

  ghost predicate IsEntryOf(e: Event, m: State) {
    IsState(e) && KeyOf(e) in m && m[KeyOf(e)] == e
  }

  ghost predicate ListsTyped(es: seq<TypedEvent>, m: map<string, TypedEvent>) {
    && |es| == |m|
    && (forall i :: 0 <= i < |es| ==> es[i].kind in m && m[es[i].kind] == es[i])
    && (forall k :: k in m ==> m[k] in es)
  }

  /** One property of the content lists readers of one event, at least one, as the receipts have them. */
  ghost predicate IsGroup(p: (string, map<string, Readers>), receipts: map<string, Receipt>) {
    && p.1.Keys == {READ} && p.1[READ] != map[]
    && (forall u :: u in p.1[READ] ==> u in receipts && receipts[u] == Receipt(p.1[READ][u], p.0))
  }

  ghost predicate Mentions(content: ReceiptContent, u: string) {
    exists i :: 0 <= i < |content| && READ in content[i].1 && u in content[i].1[READ]
  }

  /** content groups the receipts by the event they are for. */
  ghost predicate GroupsReceipts(content: ReceiptContent, receipts: map<string, Receipt>) {
    && (forall i, j :: 0 <= i < j < |content| ==> content[i].0 != content[j].0)
    && (forall i :: 0 <= i < |content| ==> IsGroup(content[i], receipts))
    && (forall u :: u in receipts ==> Mentions(content, u))
  }

  ghost predicate ListsReceipts(es: seq<EphemeralEvent>, receipts: map<string, Receipt>) {
    if receipts == map[] then es == []
    else |es| == 1 && es[0].kind == "m.receipt" && es[0].content.Some? && GroupsReceipts(es[0].content.value, receipts)
  }

  /** j is what getJSON emits for the room, whatever order object keys are visited in. */
  ghost predicate IsJson(room: Room, j: JoinedRoom) {
    && ListsState(j.state, StartState(room.currentState, j.timeline))
    && j.timeline == Events(Emitted(room.timeline))
    && j.prevBatch == Token(Emitted(room.timeline))
    && !j.limited
    && ListsReceipts(j.ephemeral, room.receipts)
    && ListsTyped(j.accountData, room.accountData)
    && j.unread == Some(room.unread)
    && j.summary == Some(room.summary)
  }

  /** The state a client arrives at by reading an emitted room from nothing. */
  function Meaning(j: JoinedRoom): State {
    Replay(Replay(map[], j.state), j.timeline)
  }

  // ----- The algebra of replaying

  lemma {:induction false} ReplayIsOverlay(m: State, es: seq<Event>)
    ensures Replay(m, es) == m + Latest(es)
  {
    if es != [] {
      ReplayIsOverlay(m, es[..|es| - 1]);
    }
  }

  lemma {:induction false} ReplayConcat(m: State, a: seq<Event>, b: seq<Event>)
    ensures Replay(m, a + b) == Replay(Replay(m, a), b)
  {
    if b == [] {
      assert a + b == a;
    } else {
      var n := |b| - 1;
      assert (a + b)[..|a + b| - 1] == a + b[..n];
      ReplayConcat(m, a, b[..n]);
    }
  }

  lemma {:induction false} LatestConcat(a: seq<Event>, b: seq<Event>)
    ensures Latest(a + b) == Latest(a) + Latest(b)
  {
    ReplayConcat(map[], a, b);
    ReplayIsOverlay(Latest(a), b);
  }

  lemma {:induction false} LatestIsWellKeyed(es: seq<Event>)
    ensures WellKeyed(Latest(es))
    ensures forall k :: k in Latest(es) ==> Latest(es)[k] in es
  {
    if es != [] { LatestIsWellKeyed(es[..|es| - 1]); }
  }

  /** Latest(es)[k] is the event of the highest index with key k. */
  lemma {:induction false} LatestAt(es: seq<Event>, i: nat)
    requires i < |es| && IsState(es[i])
    ensures KeyOf(es[i]) in Latest(es)
    ensures (forall j :: i < j < |es| ==> !IsState(es[j]) || KeyOf(es[j]) != KeyOf(es[i])) ==> Latest(es)[KeyOf(es[i])] == es[i]
  {
    if i < |es| - 1 { LatestAt(es[..|es| - 1], i); }
  }

  /** Earliest(es)[k] is the event of the lowest index with key k. */
  lemma {:induction false} EarliestAt(es: seq<Event>, i: nat)
    requires i < |es| && IsState(es[i])
    ensures KeyOf(es[i]) in Earliest(es)
    ensures (forall j :: 0 <= j < i ==> !IsState(es[j]) || KeyOf(es[j]) != KeyOf(es[i])) ==> Earliest(es)[KeyOf(es[i])] == es[i]
  {
    if i > 0 { EarliestAt(es[1..], i - 1); }
  }

  lemma {:induction false} EarliestIsWellKeyed(es: seq<Event>)
    ensures WellKeyed(Earliest(es))
  {
    if es != [] { EarliestIsWellKeyed(es[1..]); }
  }

  lemma {:induction false} EarliestConcat(a: seq<Event>, b: seq<Event>)
    ensures Earliest(a + b) == Earliest(b) + Earliest(a)
  {
    if a == [] {
      assert a + b == b;
    } else {
      assert (a + b)[1..] == a[1..] + b;
      EarliestConcat(a[1..], b);
    }
  }

  lemma {:induction false} SameKeys(es: seq<Event>)
    ensures Earliest(es).Keys == Latest(es).Keys
  {
    if es != [] {
      assert es == [es[0]] + es[1..];
      SameKeys(es[1..]);
      LatestConcat([es[0]], es[1..]);
      LatestOfOne(es[0]);
    }
  }

  lemma {:induction false} LatestOfOne(e: Event)
    ensures Latest([e]) == SetState(map[], e)
  {
    assert [e][..0] == [];
    assert Replay(map[], [e][..0]) == map[];
  }

  /** Reverse clobbering ends on the earliest event of each key. */
  lemma {:induction false} RollBackIsEarliest(es: seq<Event>)
    ensures RollBack(es) == map k | k in Earliest(es) :: PreviousOf(Earliest(es)[k])
  {
    if es != [] { RollBackIsEarliest(es[1..]); }
  }

  /** What getJSON emits for a key that the timeline sets is the first such event there, with what it
      says about the one before in place of its own content and sender, and all else its own. */
  lemma {:induction false} RolledBackEvent(current: State, es: seq<Event>, k: StateKey)
    requires k in current && k in Earliest(es)
    ensures var e, r := Earliest(es)[k], StartState(current, es)[k];
            && Describes(e, r)
            && r == e.(content := r.content, sender := r.sender)
  {
    RollBackIsEarliest(es);
  }

  // ----- Replay preserves meaning

  /** Every key set by the list has its last event there as the current state. */
  ghost predicate Agrees(current: State, es: seq<Event>) {
    Extends(current, Latest(es))
  }

  ghost predicate Extends(current: State, m: State) {
    forall k :: k in m ==> k in current && current[k] == m[k]
  }

  lemma {:induction false} ListReplays(es: seq<Event>, n: nat, m: State)
    requires n <= |es|
    requires forall i :: 0 <= i < |es| ==> IsEntryOf(es[i], m)
    ensures forall k :: k in Latest(es[..n]) ==> k in m && Latest(es[..n])[k] == m[k]
    ensures forall i :: 0 <= i < n ==> IsState(es[i]) && KeyOf(es[i]) in Latest(es[..n])
  {
    if n > 0 {
      ListReplays(es, n - 1, m);
      assert es[..n][..n - 1] == es[..n - 1];
    }
  }

  /** Reading a listing of a state from nothing gives the state, in whatever order it is listed. */
  lemma {:induction false} ListingReplays(es: seq<Event>, m: State)
    requires WellKeyed(m) && ListsState(es, m)
    ensures Latest(es) == m
  {
    ListReplays(es, |es|, m);
    assert es[..|es|] == es;
    forall k | k in m
      ensures k in Latest(es)
    {
      assert m[k] in es;
      var i :| 0 <= i < |es| && es[i] == m[k];
      assert KeyOf(es[i]) == k;
    }
  }

  lemma {:induction false} StartStateIsWellKeyed(current: State, es: seq<Event>)
    requires WellKeyed(current)
    ensures WellKeyed(StartState(current, es)) && StartState(current, es).Keys == current.Keys
  {
    RollBackIsEarliest(es);
    EarliestIsWellKeyed(es);
  }

  /** Replaying the emitted state and then the emitted timeline gives the current state exactly
      when the current state holds the last timeline event of every key the timeline sets. */
  lemma {:induction false} ReplayIsCurrentIff(room: Room, j: JoinedRoom)
    requires WellKeyed(room.currentState) && IsJson(room, j)
    ensures Meaning(j) == room.currentState <==> Agrees(room.currentState, j.timeline)
  {
    StartStateIsWellKeyed(room.currentState, j.timeline);
    ListingReplays(j.state, StartState(room.currentState, j.timeline));
    ReplayIsOverlay(Latest(j.state), j.timeline);
    StartThenLatestIff(room.currentState, j.timeline);
  }

  lemma {:induction false} StartThenLatestIff(current: State, es: seq<Event>)
    ensures StartState(current, es) + Latest(es) == current <==> Agrees(current, es)
  {
    var both := StartState(current, es) + Latest(es);
    RollBackIsEarliest(es);
    SameKeys(es);
    if Agrees(current, es) {
      assert both == current;
    } else {
      var k :| k in Latest(es) && !(k in current && current[k] == Latest(es)[k]);
      assert k in both && both[k] == Latest(es)[k];
    }
  }

  // ----- What one response must satisfy, and what a room keeps

  ghost predicate Aligned(t: seq<Entry>) {
    t == [] || t[0].token != ""
  }

  ghost predicate TypedKeyed(m: map<string, TypedEvent>) {
    forall k :: k in m ==> m[k].kind == k
  }

  ghost predicate RoomInv(room: Room, max: nat) {
    && WellKeyed(room.currentState)
    && TypedKeyed(room.accountData)
    && Aligned(room.timeline)
    && |room.timeline| <= max
    && Agrees(room.currentState, Events(room.timeline))
  }

  /** The old entries that are still there once the response has been folded in. */
  function Kept(room: Room, d: JoinedRoom, max: nat): seq<Entry> {
    var t := NewTimeline(room, d, max);
    if |t| >= |d.timeline| then t[..|t| - |d.timeline|] else []
  }

  /** A batch fits, and a non-empty one has a back-pagination token. */
  ghost predicate GoodBatch(d: JoinedRoom, max: nat) {
    |d.timeline| <= max && (d.timeline != [] ==> d.prevBatch != "")
  }

  /** The 'state' section does not replace an event that a surviving timeline event has set,
      unless the new timeline sets that key again. */
  ghost predicate KeepsState(room: Room, d: JoinedRoom, max: nat) {
    LeavesAlone(Latest(d.state), Latest(Events(Kept(room, d, max))), Latest(d.timeline), room.currentState)
  }

  /** Where state sets a key of kept that batch does not, it repeats the current event. */
  ghost predicate LeavesAlone(state: State, kept: State, batch: State, current: State) {
    forall k :: k in kept && k !in batch && k in state ==> k in current && state[k] == current[k]
  }

  ghost predicate GoodJoin(room: Room, d: JoinedRoom, max: nat) {
    GoodBatch(d, max) && KeepsState(room, d, max)
  }

  lemma {:induction false} EventsConcat(a: seq<Entry>, b: seq<Entry>)
    ensures Events(a + b) == Events(a) + Events(b)
  {
  }

  lemma {:induction false} EventsSplit(t: seq<Entry>, c: nat)
    requires c <= |t|
    ensures Events(t) == Events(t[..c]) + Events(t[c..])
    ensures Events(t[c..]) == Events(t)[c..]
  {
    EventsConcat(t[..c], t[c..]);
    assert t == t[..c] + t[c..];
    assert |Events(t[..c])| == c;
  }

  /** Pruning never cuts into the newest batch. */
  lemma {:induction false} PruneKeepsBatch(prior: seq<Entry>, b: seq<Entry>, max: nat) returns (c: nat)
    requires |prior| <= max && |b| <= max && Aligned(b)
    ensures c <= |prior| && Prune(prior + b, max) == prior[c..] + b
    ensures c > 0 || Aligned(prior) ==> Aligned(prior[c..] + b)
    ensures |prior[c..] + b| <= max
  {
    var t := prior + b;
    c := if |t| <= max then 0 else FirstToken(t, |t| - max);
    if |t| > max { assert t[|prior|] == b[0]; }
    assert t[c..] == prior[c..] + b;
  }

  /** Whatever the tokens and the sizes are, pruning cuts nothing off a batch. */
  lemma {:induction false} PruneKeepsAnyBatch(prior: seq<Entry>, b: seq<Entry>, max: nat) returns (c: nat)
    requires forall i :: 0 < i < |b| ==> b[i].token == ""
    ensures c <= |prior| && Prune(prior + b, max) == prior[c..] + b
  {
    var t := prior + b;
    var k := if |t| <= max then |t| else FirstToken(t, |t| - max);
    assert forall i :: |prior| < i < |t| ==> t[i].token == "";
    if k < |t| {
      c := k;
      assert t[c..] == prior[c..] + b;
    } else {
      c := 0;
      assert prior[0..] == prior;
    }
  }

  /** Any response keeps a suffix of the timeline and appends its batch. */
  lemma {:induction false} KeptIsSuffix(room: Room, d: JoinedRoom, max: nat) returns (c: nat)
    ensures c <= |room.timeline| && Kept(room, d, max) == room.timeline[c..]
    ensures Events(NewTimeline(room, d, max)) == Events(Kept(room, d, max)) + d.timeline
  {
    var prior, b := Continued(room, d), Batch(d.timeline, d.prevBatch);
    c := PruneKeepsAnyBatch(prior, b, max);
    KeptFrom(room, d, max, c);
    if d.limited { c := |room.timeline|; }
  }

  lemma {:induction false} KeptFrom(room: Room, d: JoinedRoom, max: nat, c: nat)
    requires c <= |Continued(room, d)|
    requires NewTimeline(room, d, max) == Continued(room, d)[c..] + Batch(d.timeline, d.prevBatch)
    ensures Kept(room, d, max) == Continued(room, d)[c..]
    ensures Events(NewTimeline(room, d, max)) == Events(Kept(room, d, max)) + d.timeline
  {
    FrontOfConcat(Continued(room, d)[c..], Batch(d.timeline, d.prevBatch));
    EventsOfBatch(Continued(room, d)[c..], d.timeline, d.prevBatch);
  }

  lemma {:induction false} FrontOfConcat(a: seq<Entry>, b: seq<Entry>)
    ensures (a + b)[..|a + b| - |b|] == a
  {
  }

  lemma {:induction false} EventsOfBatch(a: seq<Entry>, es: seq<Event>, prevBatch: string)
    ensures Events(a + Batch(es, prevBatch)) == Events(a) + es
  {
  }

  /** A response that continues a room keeps a suffix of its timeline and appends its batch. */
  lemma {:induction false} TimelineStep(room: Room, d: JoinedRoom, max: nat) returns (c: nat)
    requires |room.timeline| <= max && Aligned(room.timeline) && GoodBatch(d, max)
    ensures c <= |room.timeline| && Kept(room, d, max) == room.timeline[c..]
    ensures var t := NewTimeline(room, d, max);
            && t == Kept(room, d, max) + Batch(d.timeline, d.prevBatch)
            && Events(t) == Events(Kept(room, d, max)) + d.timeline
            && Aligned(t) && |t| <= max
    ensures d.limited ==> c == |room.timeline|
  {
    var prior, b := Continued(room, d), Batch(d.timeline, d.prevBatch);
    c := PruneKeepsBatch(prior, b, max);
    FrontOfConcat(prior[c..], b);
    EventsOfBatch(prior[c..], d.timeline, d.prevBatch);
    if d.limited { c := |room.timeline|; }
  }

  /** The bound on the timeline holds after a response exactly when the stored timeline and the batch
      fit together, or some entry has a token at which what follows fits. */
  lemma {:induction false} SizeBoundIff(room: Room, d: JoinedRoom, max: nat)
    ensures var t := Continued(room, d) + Batch(d.timeline, d.prevBatch);
            |AccumulateJoin(room, d, max).timeline| <= max <==>
            |t| <= max || exists i :: |t| - max <= i < |t| && t[i].token != ""
  {
  }

  /** For a batch with a token, that comes to the batch being within the bound itself. */
  lemma {:induction false} SizeBoundOfBatchIff(room: Room, d: JoinedRoom, max: nat)
    requires |room.timeline| <= max && (d.timeline != [] ==> d.prevBatch != "")
    ensures |AccumulateJoin(room, d, max).timeline| <= max <==> |d.timeline| <= max
  {
    var prior, b := Continued(room, d), Batch(d.timeline, d.prevBatch);
    if |b| <= max {
      var c := PruneKeepsBatch(prior, b, max);
    } else {
      var t := prior + b;
      forall i | |t| - max <= i < |t|
        ensures t[i].token == ""
      {
        assert t[i] == b[i - |prior|];
      }
    }
  }

  const NOTICE := Event("m.room.message", None, "hello", "@alice:example.org", None, None, "{}")

  /** A full timeline and a batch of one event without a token: one entry too many is kept. */
  lemma {:induction false} TokenlessBatchOverflows()
    ensures var full := EMPTY_ROOM.(timeline := Batch(seq(50, i => NOTICE), "t0"));
            var d := JoinedRoom([], [NOTICE], false, "", [], [], None, None);
            |full.timeline| == 50 && |AccumulateJoin(full, d, 50).timeline| == 51
  {
    var full := EMPTY_ROOM.(timeline := Batch(seq(50, i => NOTICE), "t0"));
    var d := JoinedRoom([], [NOTICE], false, "", [], [], None, None);
    var t := Continued(full, d) + Batch(d.timeline, d.prevBatch);
    assert |t| == 51 && forall i :: 1 <= i < |t| ==> t[i].token == "";
    SizeBoundIff(full, d, 50);
  }

  lemma {:induction false} SuffixLatest(t: seq<Entry>, c: nat, current: State)
    requires c <= |t| && Agrees(current, Events(t))
    ensures Agrees(current, Events(t[c..]))
    ensures Latest(Events(t[c..])).Keys <= Latest(Events(t)).Keys
  {
    assert t == t[..c] + t[c..];
    EventsConcat(t[..c], t[c..]);
    LatestConcat(Events(t[..c]), Events(t[c..]));
  }

  /** A response keeps replay faithful exactly when its 'state' section leaves alone what the
      surviving timeline has set: a condition on the response that can be checked beforehand. */
  lemma {:induction false} FaithfulIff(room: Room, d: JoinedRoom, max: nat)
    requires Agrees(room.currentState, Events(room.timeline))
    ensures var room' := AccumulateJoin(room, d, max);
            Agrees(room'.currentState, Events(room'.timeline)) <==> KeepsState(room, d, max)
  {
    var c := KeptIsSuffix(room, d, max);
    var kept := Events(Kept(room, d, max));
    SuffixLatest(room.timeline, c, room.currentState);
    LatestConcat(kept, d.timeline);
    ReplayIsOverlay(room.currentState, d.state);
    ReplayIsOverlay(room.currentState + Latest(d.state), d.timeline);
    OverlayExtendsIff(room.currentState, Latest(d.state), Latest(d.timeline), Latest(kept));
  }

  lemma {:induction false} OverlayExtendsIff(current: State, state: State, batch: State, kept: State)
    requires Extends(current, kept)
    ensures Extends(current + state + batch, kept + batch) <==> LeavesAlone(state, kept, batch, current)
  {
    var current', timeline := current + state + batch, kept + batch;
    if Extends(current', timeline) {
      forall k | k in kept && k !in batch && k in state
        ensures k in current && state[k] == current[k]
      {
        assert k in timeline;
      }
    }
  }

  lemma {:induction false} ReplayIsWellKeyed(m: State, es: seq<Event>)
    requires WellKeyed(m)
    ensures WellKeyed(Replay(m, es))
  {
    if es != [] { ReplayIsWellKeyed(m, es[..|es| - 1]); }
  }

  lemma {:induction false} ClobberIsKeyed(m: map<string, TypedEvent>, es: seq<TypedEvent>)
    requires TypedKeyed(m)
    ensures TypedKeyed(Clobber(m, es))
  {
    if es != [] { ClobberIsKeyed(m, es[..|es| - 1]); }
  }

  /** Every good response keeps the room's invariant. */
  lemma {:induction false} JoinKeepsInv(room: Room, d: JoinedRoom, max: nat)
    requires RoomInv(room, max) && GoodJoin(room, d, max)
    ensures RoomInv(AccumulateJoin(room, d, max), max)
  {
    var c := TimelineStep(room, d, max);
    FaithfulIff(room, d, max);
    ReplayIsWellKeyed(room.currentState, d.state);
    ReplayIsWellKeyed(Replay(room.currentState, d.state), d.timeline);
    ClobberIsKeyed(room.accountData, d.accountData);
  }

  const NAMED_ONE := Event("m.room.name", Some(""), "one", "@alice:example.org", None, None, "{}")
  const NAMED_TWO := NAMED_ONE.(content := "two")

  const NAMED_ROOM := EMPTY_ROOM.(currentState := map[("m.room.name", "") := NAMED_ONE], timeline := [Entry(NAMED_ONE, "t0")])
  const RENAMED_ROOM := NAMED_ROOM.(currentState := map[("m.room.name", "") := NAMED_TWO])
  const RENAMING := JoinedRoom([NAMED_TWO], [], false, "", [], [], None, None)

  /** A 'state' section that renames a room over a name in the retained timeline: what is emitted
      afterwards replays to the old name. */
  lemma {:induction false} RenamingStateIsLost(j: JoinedRoom)
    requires IsJson(RENAMED_ROOM, j)
    ensures AccumulateJoin(NAMED_ROOM, RENAMING, 50) == RENAMED_ROOM
    ensures Meaning(j) == NAMED_ROOM.currentState != RENAMED_ROOM.currentState
  {
    RenamingHappens();
    LatestOfOne(NAMED_ONE);
    assert Emitted(RENAMED_ROOM.timeline) == RENAMED_ROOM.timeline;
    assert j.timeline == [NAMED_ONE];
    RenamedRoomMeans(j);
  }

  lemma {:induction false} RenamingHappens()
    ensures AccumulateJoin(NAMED_ROOM, RENAMING, 50) == RENAMED_ROOM
  {
    LatestOfOne(NAMED_TWO);
    ReplayIsOverlay(NAMED_ROOM.currentState, [NAMED_TWO]);
    assert NAMED_ROOM.timeline + Batch([], "") == NAMED_ROOM.timeline;
  }

  lemma {:induction false} RenamedRoomMeans(j: JoinedRoom)
    requires ListsState(j.state, StartState(RENAMED_ROOM.currentState, j.timeline)) && j.timeline == [NAMED_ONE]
    ensures Meaning(j) == NAMED_ROOM.currentState
  {
    StartStateIsWellKeyed(RENAMED_ROOM.currentState, j.timeline);
    ListingReplays(j.state, StartState(RENAMED_ROOM.currentState, j.timeline));
    NamedLast(Latest(j.state));
  }

  lemma {:induction false} NamedLast(start: State)
    requires start.Keys == {("m.room.name", "")}
    ensures Replay(start, [NAMED_ONE]) == NAMED_ROOM.currentState
  {
    ReplayIsOverlay(start, [NAMED_ONE]);
    LatestOfOne(NAMED_ONE);
    OneKey(start, ("m.room.name", ""), NAMED_ONE);
  }

  lemma {:induction false} OneKey(m: State, k: StateKey, e: Event)
    requires m.Keys == {k}
    ensures m + map[k := e] == map[k := e]
  {
  }

  lemma {:induction false} EmittedOfAligned(t: seq<Entry>)
    requires Aligned(t)
    ensures Emitted(t) == t
  {
  }

  /** The current state is filed by key, and holds the last timeline event of every key. */
  ghost predicate FaithfulRoom(room: Room) {
    WellKeyed(room.currentState) && Agrees(room.currentState, Events(room.timeline))
  }

  lemma {:induction false} JoinKeepsFaithful(room: Room, d: JoinedRoom, max: nat)
    requires FaithfulRoom(room) && KeepsState(room, d, max)
    ensures FaithfulRoom(AccumulateJoin(room, d, max))
  {
    FaithfulIff(room, d, max);
    ReplayIsWellKeyed(room.currentState, d.state);
    ReplayIsWellKeyed(Replay(room.currentState, d.state), d.timeline);
  }

  /** In such a room, what is emitted means the current state; tokens and sizes do not matter. */
  lemma {:induction false} ReplayIsCurrent(room: Room, j: JoinedRoom)
    requires FaithfulRoom(room) && IsJson(room, j)
    ensures Meaning(j) == room.currentState
    ensures Aligned(room.timeline) ==> j.timeline == Events(room.timeline)
    ensures |j.timeline| <= |room.timeline|
  {
    var c := FirstToken(room.timeline, 0);
    SuffixLatest(room.timeline, c, room.currentState);
    ReplayIsCurrentIff(room, j);
    if Aligned(room.timeline) { EmittedOfAligned(room.timeline); }
  }

  lemma {:induction false} EmittedTimelineIs(room: Room, j: JoinedRoom, max: nat)
    requires RoomInv(room, max) && IsJson(room, j)
    ensures j.timeline == Events(room.timeline) && |j.timeline| <= max
    ensures if j.timeline == [] then j.prevBatch == "" else j.prevBatch == room.timeline[0].token != ""
  {
    EmittedOfAligned(room.timeline);
  }

  // ----- The longest aligned suffix

  /** t is the longest suffix of h that begins at a token and has at most max entries. */
  ghost predicate IsBestSuffix(t: seq<Entry>, h: seq<Entry>, max: nat) {
    && |t| <= |h| && t == h[|h| - |t|..]
    && Aligned(t) && |t| <= max
    && (forall p :: 0 <= p < |h| - |t| && |h| - p <= max ==> h[p].token == "")
  }

  /** The timeline stays the best suffix of everything received since the last gap, although
      only the stored part of it is ever looked at. */
  lemma {:induction false} PruneIsBestSuffix(t: seq<Entry>, h: seq<Entry>, b: seq<Entry>, max: nat)
    requires IsBestSuffix(t, h, max) && |b| <= max && Aligned(b)
    ensures IsBestSuffix(Prune(t + b, max), h + b, max)
  {
    var c := PruneKeepsBatch(t, b, max);
    var t', h' := Prune(t + b, max), h + b;
    assert t' == h'[|h'| - |t'|..];
    forall p | 0 <= p < |h'| - |t'| && |h'| - p <= max
      ensures h'[p].token == ""
    {
      if p >= |h| - |t| {
        assert h'[p] == (t + b)[p - (|h| - |t|)];
      } else {
        assert h'[p] == h[p];
      }
    }
  }

  // ----- Rolling back

  /** The event's prev_content and prev_sender describe the event that held its key before. */
  predicate Describes(e: Event, before: Event) {
    && before.content == (if e.prevContent.Some? then e.prevContent.value else e.content)
    && before.sender == (if e.prevSender.Some? then e.prevSender.value else e.sender)
  }

  /** The first timeline event of each key set at the start describes that key's event. */
  ghost predicate FirstsDescribe(start: State, es: seq<Event>) {
    forall k :: k in Earliest(es) && k in start ==> Describes(Earliest(es)[k], start[k])
  }

  /** Every timeline state event describes the state just before it. */
  ghost predicate EachDescribes(start: State, es: seq<Event>) {
    forall i :: 0 <= i < |es| && IsState(es[i]) && KeyOf(es[i]) in Replay(start, es[..i]) ==>
                  Describes(es[i], Replay(start, es[..i])[KeyOf(es[i])])
  }

  /** The emitted state has the content and the sender of every key set at the start. */
  ghost predicate ShowsStart(emitted: State, start: State) {
    forall k :: k in start ==> k in emitted && emitted[k].content == start[k].content && emitted[k].sender == start[k].sender
  }

  lemma {:induction false} EachGivesFirsts(start: State, es: seq<Event>)
    requires EachDescribes(start, es)
    ensures FirstsDescribe(start, es)
  {
    forall k | k in Earliest(es) && k in start
      ensures Describes(Earliest(es)[k], start[k])
    {
      var i := FirstIndex(es, k);
      EarliestAt(es, i);
      UntouchedKey(start, es[..i], k);
    }
  }

  lemma {:induction false} FirstIndex(es: seq<Event>, k: StateKey) returns (i: nat)
    requires k in Earliest(es)
    ensures i < |es| && IsState(es[i]) && KeyOf(es[i]) == k
    ensures forall j :: 0 <= j < i ==> !IsState(es[j]) || KeyOf(es[j]) != k
  {
    if IsState(es[0]) && KeyOf(es[0]) == k {
      i := 0;
    } else {
      i := FirstIndex(es[1..], k);
      i := i + 1;
    }
  }

  lemma {:induction false} UntouchedKey(m: State, es: seq<Event>, k: StateKey)
    requires forall j :: 0 <= j < |es| ==> !IsState(es[j]) || KeyOf(es[j]) != k
    ensures k in Replay(m, es) <==> k in m
    ensures k in m ==> Replay(m, es)[k] == m[k]
  {
    if es != [] { UntouchedKey(m, es[..|es| - 1], k); }
  }

  /** Rolling the state at the end of a timeline back recovers what was set at its start exactly
      when the first event of each such key describes what it replaced. */
  lemma {:induction false} RollBackIff(start: State, es: seq<Event>)
    ensures ShowsStart(StartState(Replay(start, es), es), start) <==> FirstsDescribe(start, es)
    ensures StartState(Replay(start, es), es).Keys == Replay(start, es).Keys
    ensures var emitted := StartState(Replay(start, es), es);
            forall k :: k in start && k !in Latest(es) ==> k in emitted && emitted[k] == start[k]
  {
    RollBackIsEarliest(es);
    SameKeys(es);
    ReplayIsOverlay(start, es);
    var emitted := StartState(Replay(start, es), es);
    if ShowsStart(emitted, start) {
      forall k | k in Earliest(es) && k in start
        ensures Describes(Earliest(es)[k], start[k])
      {
        assert emitted[k] == PreviousOf(Earliest(es)[k]);
      }
    }
  }

  // ----- Whole runs of one room

  /** A room together with what it stands for: the state at the start of its timeline, and all
      the entries received since the last gap. */
  datatype Ledger = Ledger(room: Room, start: State, history: seq<Entry>)

  /** The start of the timeline moves past the dropped events and takes in the 'state' section. */
  ghost function NextStart(start: State, dropped: seq<Event>, kept: seq<Event>, state: seq<Event>): State {
    Replay(start, dropped) + (Latest(state) - Latest(kept).Keys)
  }

  /** The old entries that are not kept. */
  ghost function Dropped(room: Room, d: JoinedRoom, max: nat): seq<Entry> {
    var kept := Kept(room, d, max);
    if |kept| <= |room.timeline| then room.timeline[..|room.timeline| - |kept|] else []
  }

  ghost function LedgerStep(l: Ledger, d: JoinedRoom, max: nat): Ledger {
    Ledger(AccumulateJoin(l.room, d, max),
           NextStart(l.start, Events(Dropped(l.room, d, max)), Events(Kept(l.room, d, max)), d.state),
           (if d.limited then [] else l.history) + Batch(d.timeline, d.prevBatch))
  }

  /** The list leads from the start to the current state, each event describing what it replaces. */
  ghost predicate LeadsTo(start: State, es: seq<Event>, current: State) {
    current == Replay(start, es) && EachDescribes(start, es)
  }

  ghost predicate LedgerInv(l: Ledger, max: nat) {
    && RoomInv(l.room, max)
    && LeadsTo(l.start, Events(l.room.timeline), l.room.currentState)
    && IsBestSuffix(l.room.timeline, l.history, max)
  }

  /** The server tells the truth about what its timeline events replaced, and its 'state' section
      repeats the current event of every key that a surviving timeline event has set. */
  ghost predicate Honest(l: Ledger, d: JoinedRoom, max: nat) {
    && EachDescribes(Replay(l.room.currentState, d.state), d.timeline)
    && LeavesAlone(Latest(d.state), Latest(Events(Kept(l.room, d, max))), map[], l.room.currentState)
  }

  lemma {:induction false} LedgerKeepsInv(l: Ledger, d: JoinedRoom, max: nat)
    requires LedgerInv(l, max) && GoodJoin(l.room, d, max) && Honest(l, d, max)
    ensures LedgerInv(LedgerStep(l, d, max), max)
  {
    JoinKeepsInv(l.room, d, max);
    HistoryStep(l, d, max);
    LedgerLeadsTo(l, d, max);
  }

  lemma {:induction false} LedgerLeadsTo(l: Ledger, d: JoinedRoom, max: nat)
    requires LedgerInv(l, max) && GoodBatch(d, max) && Honest(l, d, max)
    ensures LeadsTo(LedgerStep(l, d, max).start, Events(NewTimeline(l.room, d, max)), Replay(Replay(l.room.currentState, d.state), d.timeline))
  {
    var dropped, kept := LedgerParts(l, d, max);
    StartStep(l.start, l.room.currentState, dropped, kept, d.state, d.timeline);
  }

  lemma {:induction false} LedgerParts(l: Ledger, d: JoinedRoom, max: nat) returns (dropped: seq<Event>, kept: seq<Event>)
    requires |l.room.timeline| <= max && Aligned(l.room.timeline) && GoodBatch(d, max)
    ensures Events(l.room.timeline) == dropped + kept && kept == Events(Kept(l.room, d, max))
    ensures Events(NewTimeline(l.room, d, max)) == kept + d.timeline
    ensures LedgerStep(l, d, max).start == NextStart(l.start, dropped, kept, d.state)
  {
    var c := TimelineStep(l.room, d, max);
    DroppedIs(l.room, d, max, c);
    dropped, kept := Events(Dropped(l.room, d, max)), Events(Kept(l.room, d, max));
    EventsSplit(l.room.timeline, c);
  }

  lemma {:induction false} DroppedIs(room: Room, d: JoinedRoom, max: nat, c: nat)
    requires c <= |room.timeline| && Kept(room, d, max) == room.timeline[c..]
    ensures Dropped(room, d, max) == room.timeline[..c]
  {
    assert |room.timeline| - |Kept(room, d, max)| == c;
  }

  lemma {:induction false} HistoryStep(l: Ledger, d: JoinedRoom, max: nat)
    requires IsBestSuffix(l.room.timeline, l.history, max) && GoodBatch(d, max)
    ensures IsBestSuffix(LedgerStep(l, d, max).room.timeline, LedgerStep(l, d, max).history, max)
  {
    var b := Batch(d.timeline, d.prevBatch);
    if d.limited {
      assert IsBestSuffix([], [], max);
      PruneIsBestSuffix([], [], b, max);
    } else {
      PruneIsBestSuffix(l.room.timeline, l.history, b, max);
    }
  }

  lemma {:induction false} StartStep(start: State, current: State, dropped: seq<Event>, kept: seq<Event>, state: seq<Event>, batch: seq<Event>)
    requires LeadsTo(start, dropped + kept, current)
    requires EachDescribes(Replay(current, state), batch)
    requires LeavesAlone(Latest(state), Latest(kept), map[], current)
    ensures LeadsTo(NextStart(start, dropped, kept, state), kept + batch, Replay(Replay(current, state), batch))
  {
    var mid, start' := Replay(start, dropped), NextStart(start, dropped, kept, state);
    ReplayConcat(start, dropped, kept);
    NextStartReplays(mid, start', kept, state);
    EachSplit(start, dropped, kept);
    EachIsLocal(mid, start', kept);
    EachSplit(start', kept, batch);
    ReplayConcat(start', kept, batch);
  }

  lemma {:induction false} NextStartReplays(mid: State, start': State, kept: seq<Event>, state: seq<Event>)
    requires start' == mid + (Latest(state) - Latest(kept).Keys)
    requires LeavesAlone(Latest(state), Latest(kept), map[], Replay(mid, kept))
    ensures Replay(start', kept) == Replay(Replay(mid, kept), state)
  {
    ReplayIsOverlay(mid, kept);
    ReplayIsOverlay(mid + Latest(kept), state);
    ReplayIsOverlay(start', kept);
    OverlayFromStart(mid, Latest(kept), Latest(state));
  }

  lemma {:induction false} OverlayFromStart(mid: State, kept: State, state: State)
    requires LeavesAlone(state, kept, map[], mid + kept)
    ensures mid + kept + state == mid + (state - kept.Keys) + kept
  {
  }

  lemma {:induction false} EachSplit(start: State, a: seq<Event>, b: seq<Event>)
    ensures EachDescribes(start, a + b) <==> EachDescribes(start, a) && EachDescribes(Replay(start, a), b)
  {
    forall i | 0 <= i < |b|
      ensures Replay(start, (a + b)[..|a| + i]) == Replay(Replay(start, a), b[..i])
    {
      assert (a + b)[..|a| + i] == a + b[..i];
      ReplayConcat(start, a, b[..i]);
    }
    forall i | 0 <= i < |a|
      ensures (a + b)[..i] == a[..i] && (a + b)[i] == a[i]
    {
    }
    if EachDescribes(start, a + b) {
      forall i | 0 <= i < |b| && IsState(b[i]) && KeyOf(b[i]) in Replay(Replay(start, a), b[..i])
        ensures Describes(b[i], Replay(Replay(start, a), b[..i])[KeyOf(b[i])])
      {
        assert (a + b)[|a| + i] == b[i];
      }
    }
  }

  /** Only the keys that a list sets matter to what its events describe. */
  lemma {:induction false} EachIsLocal(m: State, m': State, es: seq<Event>)
    requires EachDescribes(m, es)
    requires forall k :: k in Latest(es) ==> (k in m <==> k in m') && (k in m ==> m[k] == m'[k])
    ensures EachDescribes(m', es)
  {
    forall i | 0 <= i < |es| && IsState(es[i]) && KeyOf(es[i]) in Replay(m', es[..i])
      ensures Describes(es[i], Replay(m', es[..i])[KeyOf(es[i])])
    {
      LatestAt(es, i);
      ReplayIsOverlay(m, es[..i]);
      ReplayIsOverlay(m', es[..i]);
    }
  }

  // ----- Runs

  ghost function Run(ds: seq<JoinedRoom>, max: nat): Ledger {
    if ds == [] then Ledger(EMPTY_ROOM, map[], [])
    else LedgerStep(Run(ds[..|ds| - 1], max), ds[|ds| - 1], max)
  }

  ghost predicate GoodRun(ds: seq<JoinedRoom>, max: nat) {
    ds == [] ||
    var l, d := Run(ds[..|ds| - 1], max), ds[|ds| - 1];
    GoodRun(ds[..|ds| - 1], max) && GoodJoin(l.room, d, max) && Honest(l, d, max)
  }

  lemma {:induction false} RunKeepsInv(ds: seq<JoinedRoom>, max: nat)
    requires GoodRun(ds, max)
    ensures LedgerInv(Run(ds, max), max)
  {
    if ds != [] {
      RunKeepsInv(ds[..|ds| - 1], max);
      LedgerKeepsInv(Run(ds[..|ds| - 1], max), ds[|ds| - 1], max);
    }
  }

  /** The main result for one room: after any run of good responses, whatever getJSON emits
      replays to the current state, shows the state at the start of its timeline, and has as its
      timeline the longest suffix of the events since the last gap that fits and begins at a
      back-pagination token, together with that token. */
  lemma {:induction false} EmittedRoomIsFaithful(ds: seq<JoinedRoom>, max: nat, j: JoinedRoom)
    requires GoodRun(ds, max) && IsJson(Run(ds, max).room, j)
    ensures var l := Run(ds, max);
            && Meaning(j) == l.room.currentState == Replay(l.start, j.timeline)
            && Latest(j.state).Keys == l.room.currentState.Keys
            && ShowsStart(Latest(j.state), l.start)
            && IsBestSuffix(l.room.timeline, l.history, max)
            && j.timeline == Events(l.room.timeline)
            && (if j.timeline == [] then j.prevBatch == "" else j.prevBatch == l.room.timeline[0].token != "")
  {
    RunKeepsInv(ds, max);
    var l := Run(ds, max);
    ReplayIsCurrent(l.room, j);
    EmittedOfAligned(l.room.timeline);
    StartStateIsWellKeyed(l.room.currentState, j.timeline);
    ListingReplays(j.state, StartState(l.room.currentState, j.timeline));
    EachGivesFirsts(l.start, j.timeline);
    RollBackIff(l.start, j.timeline);
  }
}
