/** The sync accumulator (src/sync-accumulator.ts): folds /sync responses into compact data and
    emits that data as one equivalent initial sync. */
module SyncAccumulator {
  import opened Common
  import opened SyncRoom

  // ----- Invites

  datatype Stripped = Stripped(kind: string, stateKey: string, content: Json, sender: string)

  predicate SameKey(a: Stripped, b: Stripped) {
    a.kind == b.kind && a.stateKey == b.stateKey
  }

  predicate HasKey(es: seq<Stripped>, e: Stripped) {
    exists i :: 0 <= i < |es| && SameKey(es[i], e)
  }

  /** Every stored event with e's key becomes e; e is appended if there is none. */
  function ClobberInvite(es: seq<Stripped>, e: Stripped): seq<Stripped> {
    var updated := UpdateMatching(es, e);
    if HasKey(es, e) then updated else updated + [e]
  }

  function UpdateMatching(es: seq<Stripped>, e: Stripped): (r: seq<Stripped>)
    ensures |r| == |es| && forall i :: 0 <= i < |es| ==> r[i] == if SameKey(es[i], e) then e else es[i]
  {
    if es == [] then []
    else UpdateMatching(es[..|es| - 1], e) + [if SameKey(es[|es| - 1], e) then e else es[|es| - 1]]
  }

  function MergeInvite(es: seq<Stripped>, more: seq<Stripped>): seq<Stripped> {
    if more == [] then es else ClobberInvite(MergeInvite(es, more[..|more| - 1]), more[|more| - 1])
  }

  // ----- Groups

  datatype Groups = Groups(invite: map<string, Json>, join: map<string, Json>, leave: map<string, Json>)
  datatype Category = Invite | Join | Leave

  function Without(g: Groups, ids: set<string>): Groups {
    Groups(g.invite - ids, g.join - ids, g.leave - ids)
  }

  /** Each of the groups in m moves to the given category, whatever category it was in. */
  function MoveGroups(g: Groups, category: Category, m: map<string, Json>): Groups {
    var g' := Without(g, m.Keys);
    match category
    case Invite => g'.(invite := g'.invite + m)
    case Join => g'.(join := g'.join + m)
    case Leave => g'.(leave := g'.leave + m)
  }

  // ----- Data and responses

  /** A response; the optional parts of 'rooms' and 'groups' are empty when missing.
      An invite without invite_state events is None. */
  datatype SyncResponse = SyncResponse(nextBatch: string, invite: map<string, Option<seq<Stripped>>>,
                                       join: map<string, JoinedRoom>, leave: set<string>,
                                       groups: Groups, accountData: seq<TypedEvent>)

  /** What an accumulator holds; nextBatch is "" before the first response. */
  datatype Data = Data(accountData: map<string, TypedEvent>, inviteRooms: map<string, seq<Stripped>>,
                       joinRooms: map<string, Room>, groups: Groups, nextBatch: string)

  const EMPTY_DATA := Data(map[], map[], map[], Groups(map[], map[], map[]), "")

  /** What getJSON returns. */
  datatype SyncData = SyncData(nextBatch: string, invite: map<string, seq<Stripped>>, join: map<string, JoinedRoom>,
                               groups: Groups, accountData: seq<TypedEvent>)

  function RoomOf(joinRooms: map<string, Room>, roomId: string): Room {
    if roomId in joinRooms then joinRooms[roomId] else EMPTY_ROOM
  }

  function InviteOf(inviteRooms: map<string, seq<Stripped>>, roomId: string, es: seq<Stripped>): seq<Stripped> {
    if roomId in inviteRooms then MergeInvite(inviteRooms[roomId], es) else es
  }

  /** The new data of the rooms a response invites to. */
  function Invited(inviteRooms: map<string, seq<Stripped>>, invite: map<string, Option<seq<Stripped>>>): map<string, seq<Stripped>> {
    map r | r in invite && invite[r].Some? :: InviteOf(inviteRooms, r, invite[r].value)
  }

  /** The new data of the rooms a response has in its 'join' section. */
  function Joined(joinRooms: map<string, Room>, join: map<string, JoinedRoom>, max: nat): map<string, Room> {
    map r | r in join :: AccumulateJoin(RoomOf(joinRooms, r), join[r], max)
  }

  function JoinOne(joinRooms: map<string, Room>, roomId: string, data: JoinedRoom, max: nat): map<string, Room> {
    joinRooms[roomId := AccumulateJoin(RoomOf(joinRooms, roomId), data, max)]
  }

  function AfterInvites(d: Data, invite: map<string, Option<seq<Stripped>>>): Data {
    d.(inviteRooms := d.inviteRooms + Invited(d.inviteRooms, invite))
  }

  function AfterJoins(d: Data, join: map<string, JoinedRoom>, max: nat): Data {
    d.(inviteRooms := d.inviteRooms - join.Keys, joinRooms := d.joinRooms + Joined(d.joinRooms, join, max))
  }

  /** Leaving a room that is invited only takes back the invite. */
  function AfterLeaves(d: Data, leave: set<string>): Data {
    d.(inviteRooms := d.inviteRooms - leave, joinRooms := d.joinRooms - (leave - d.inviteRooms.Keys))
  }

  function AfterGroups(g: Groups, change: Groups): Groups {
    MoveGroups(MoveGroups(MoveGroups(g, Invite, change.invite), Join, change.join), Leave, change.leave)
  }

  function AfterRooms(d: Data, resp: SyncResponse, max: nat): Data {
    AfterLeaves(AfterJoins(AfterInvites(d, resp.invite), resp.join, max), resp.leave)
  }

  function Accumulated(d: Data, resp: SyncResponse, max: nat): Data {
    AfterRooms(d, resp, max).(groups := AfterGroups(d.groups, resp.groups),
                              accountData := Clobber(d.accountData, resp.accountData),
                              nextBatch := resp.nextBatch)
  }

  /** s is what getJSON returns for d, whatever order object keys are visited in. */
  ghost predicate IsData(d: Data, s: SyncData) {
    && s.nextBatch == d.nextBatch && s.groups == d.groups && s.invite == d.inviteRooms
    && s.join.Keys == d.joinRooms.Keys
    && RoomsEmitted(d.joinRooms, s.join)
    && ListsTyped(s.accountData, d.accountData)
  }

  /** Stored events are filed under their own keys. */
  ghost predicate Keyed(d: Data) {
    && TypedKeyed(d.accountData)
    && KeyedRooms(d.joinRooms)
  }

  ghost predicate KeyedRooms(rooms: map<string, Room>) {
    forall r :: r in rooms ==> KeyedRoom(rooms[r])
  }

  ghost predicate KeyedRoom(room: Room) {
    WellKeyed(room.currentState) && TypedKeyed(room.accountData)
  }

  lemma {:induction false} JoinIsKeyed(room: Room, data: JoinedRoom, max: nat)
    requires KeyedRoom(room)
    ensures KeyedRoom(AccumulateJoin(room, data, max))
  {
    ReplayIsWellKeyed(room.currentState, data.state);
    ReplayIsWellKeyed(Replay(room.currentState, data.state), data.timeline);
    ClobberIsKeyed(room.accountData, data.accountData);
  }

  lemma {:induction false} JoinedIsKeyed(rooms: map<string, Room>, join: map<string, JoinedRoom>, max: nat)
    requires forall r :: r in rooms ==> KeyedRoom(rooms[r])
    ensures forall r :: r in Joined(rooms, join, max) ==> KeyedRoom(Joined(rooms, join, max)[r])
  {
    forall r | r in join
      ensures KeyedRoom(Joined(rooms, join, max)[r])
    {
      JoinIsKeyed(RoomOf(rooms, r), join[r], max);
    }
  }

  lemma {:induction false} AccumulatedIsKeyed(d: Data, resp: SyncResponse, max: nat)
    requires Keyed(d)
    ensures Keyed(Accumulated(d, resp, max))
  {
    ClobberIsKeyed(d.accountData, resp.accountData);
    JoinedIsKeyed(d.joinRooms, resp.join, max);
  }

  // ----- Taking the rooms and groups of a response one by one, in any order

  lemma {:induction false} JoinStep(rooms: map<string, Room>, join: map<string, JoinedRoom>, todo: set<string>, r: string, max: nat)
    requires r in todo && todo <= join.Keys
    ensures var news := Joined(rooms, join, max);
            JoinOne(rooms + (news - todo), r, join[r], max) == rooms + (news - (todo - {r}))
  {
    var news := Joined(rooms, join, max);
    assert RoomOf(rooms + (news - todo), r) == RoomOf(rooms, r);
    assert news[r] == AccumulateJoin(RoomOf(rooms, r), join[r], max);
    AddOne(rooms, news, todo, r);
  }

  lemma {:induction false} DropOne(invites: map<string, seq<Stripped>>, ids: set<string>, todo: set<string>, r: string)
    requires r in todo && todo <= ids
    ensures invites - (ids - todo) - {r} == invites - (ids - (todo - {r}))
  {
  }

  lemma {:induction false} DropNone(news: map<string, Room>)
    ensures news - {} == news
  {
  }

  lemma {:induction false} AddOne(rooms: map<string, Room>, news: map<string, Room>, todo: set<string>, r: string)
    requires r in todo && r in news
    ensures (rooms + (news - todo))[r := news[r]] == rooms + (news - (todo - {r}))
  {
  }

  lemma {:induction false} MoveStep(g: Groups, category: Category, m: map<string, Json>, todo: set<string>, id: string)
    requires id in todo && todo <= m.Keys
    ensures MoveGroups(g, category, m - (todo - {id})) == MoveGroups(MoveGroups(g, category, m - todo), category, map[id := m[id]])
  {
    LeaveStep(g.invite, m, todo, id);
    LeaveStep(g.join, m, todo, id);
    LeaveStep(g.leave, m, todo, id);
    match category {
      case Invite => EnterStep(g.invite, m, todo, id);
      case Join => EnterStep(g.join, m, todo, id);
      case Leave => EnterStep(g.leave, m, todo, id);
    }
  }

  lemma {:induction false} LeaveStep(t: map<string, Json>, m: map<string, Json>, todo: set<string>, id: string)
    requires id in todo && todo <= m.Keys
    ensures t - (m - (todo - {id})).Keys == t - (m - todo).Keys - map[id := m[id]].Keys
  {
  }

  lemma {:induction false} EnterStep(t: map<string, Json>, m: map<string, Json>, todo: set<string>, id: string)
    requires id in todo && todo <= m.Keys
    ensures (t - (m - (todo - {id})).Keys) + (m - (todo - {id}))
            == ((t - (m - todo).Keys) + (m - todo)) - map[id := m[id]].Keys + map[id := m[id]]
  {
  }

  // ----- The class

  class Accumulator {
    var accountData: map<string, TypedEvent>
    var inviteRooms: map<string, seq<Stripped>>
    var joinRooms: map<string, Room>
    var groups: Groups
    var nextBatch: string
    const maxTimelineEntries: nat

    ghost function Contents(): Data
      reads this
    {
      Data(accountData, inviteRooms, joinRooms, groups, nextBatch)
    }

    ghost predicate Valid()
      reads this
    {
      Keyed(Contents())
    }

    /** An option of 0 (or none) falls back to 50. */
    constructor (maxTimelineEntries: nat)
      ensures Valid() && Contents() == EMPTY_DATA
      ensures this.maxTimelineEntries == if maxTimelineEntries == 0 then 50 else maxTimelineEntries
    {
      accountData, inviteRooms, joinRooms := map[], map[], map[];
      groups, nextBatch := Groups(map[], map[], map[]), "";
      this.maxTimelineEntries := if maxTimelineEntries == 0 then 50 else maxTimelineEntries;
    }

    method Accumulate(resp: SyncResponse)
      requires Valid()
      modifies this
      ensures Valid() && Contents() == Accumulated(old(Contents()), resp, maxTimelineEntries)
    {
      AccumulatedIsKeyed(Contents(), resp, maxTimelineEntries);
      AccumulateRooms(resp);
      AccumulateGroups(resp.groups);
      accountData := ClobberTyped(accountData, resp.accountData);
      nextBatch := resp.nextBatch;
    }

    method AccumulateRooms(resp: SyncResponse)
      modifies this`inviteRooms, this`joinRooms
      ensures Contents() == AfterRooms(old(Contents()), resp, maxTimelineEntries)
    {
      AccumulateInvites(resp.invite);
      AccumulateJoins(resp.join);
      AccumulateLeaves(resp.leave);
    }

    method AccumulateInvites(invite: map<string, Option<seq<Stripped>>>)
      modifies this`inviteRooms
      ensures inviteRooms == old(inviteRooms) + Invited(old(inviteRooms), invite)
    {
      var todo := invite.Keys;
      ghost var before, news := inviteRooms, Invited(inviteRooms, invite);
      while todo != {}
        invariant todo <= invite.Keys
        invariant inviteRooms == before + (news - todo)
      {
        var r :| r in todo;
        assert r in inviteRooms <==> r in before;
        AccumulateInviteState(r, invite[r]);
        todo := todo - {r};
      }
      assert news - {} == news;
    }

    method AccumulateJoins(join: map<string, JoinedRoom>)
      modifies this`inviteRooms, this`joinRooms
      ensures inviteRooms == old(inviteRooms) - join.Keys
      ensures joinRooms == old(joinRooms) + Joined(old(joinRooms), join, maxTimelineEntries)
    {
      var todo := join.Keys;
      ghost var invited, before, news := inviteRooms, joinRooms, Joined(joinRooms, join, maxTimelineEntries);
      while todo != {}
        invariant todo <= join.Keys
        invariant inviteRooms == invited - (join.Keys - todo)
        invariant joinRooms == before + (news - todo)
      {
        var r :| r in todo;
        JoinStep(before, join, todo, r, maxTimelineEntries);
        DropOne(invited, join.Keys, todo, r);
        AccumulateJoinedRoom(r, join[r]);
        todo := todo - {r};
      }
      DropNone(news);
    }

    /** The 'join' case of accumulateRoom. */
    method AccumulateJoinedRoom(roomId: string, data: JoinedRoom)
      modifies this`inviteRooms, this`joinRooms
      ensures inviteRooms == old(inviteRooms) - {roomId}
      ensures joinRooms == JoinOne(old(joinRooms), roomId, data, maxTimelineEntries)
    {
      // a previous invite is obsolete: the response now holds everything
      inviteRooms := inviteRooms - {roomId};
      AccumulateJoinState(roomId, data);
    }

    method AccumulateLeaves(leave: set<string>)
      modifies this`inviteRooms, this`joinRooms
      ensures Contents() == AfterLeaves(old(Contents()), leave)
    {
      var todo := leave;
      ghost var d := Contents();
      while todo != {}
        invariant todo <= leave
        invariant inviteRooms == AfterLeaves(d, leave - todo).inviteRooms
        invariant joinRooms == AfterLeaves(d, leave - todo).joinRooms
      {
        var r :| r in todo;
        if r in inviteRooms {
          inviteRooms := inviteRooms - {r};
        } else {
          joinRooms := joinRooms - {r};
        }
        todo := todo - {r};
      }
      assert leave - {} == leave;
    }

    method AccumulateInviteState(roomId: string, data: Option<seq<Stripped>>)
      modifies this`inviteRooms
      ensures inviteRooms == if data.None? then old(inviteRooms)
                             else old(inviteRooms)[roomId := InviteOf(old(inviteRooms), roomId, data.value)]
    {
      if data.None? { return; }
      if roomId !in inviteRooms {
        inviteRooms := inviteRooms[roomId := data.value];
        return;
      }
      var events := inviteRooms[roomId];
      for k := 0 to |data.value|
        invariant inviteRooms == old(inviteRooms)
        invariant events == MergeInvite(inviteRooms[roomId], data.value[..k])
      {
        events := ClobberStripped(events, data.value[k]);
        assert data.value[..k + 1][..k] == data.value[..k];
      }
      assert data.value[..|data.value|] == data.value;
      inviteRooms := inviteRooms[roomId := events];
    }

    method AccumulateJoinState(roomId: string, data: JoinedRoom)
      modifies this`joinRooms
      ensures joinRooms == JoinOne(old(joinRooms), roomId, data, maxTimelineEntries)
    {
      var room := JoinRoom(if roomId in joinRooms then joinRooms[roomId] else EMPTY_ROOM, data, maxTimelineEntries);
      joinRooms := joinRooms[roomId := room];
    }

    method AccumulateGroups(change: Groups)
      modifies this`groups
      ensures groups == AfterGroups(old(groups), change)
    {
      AccumulateCategory(Invite, change.invite);
      AccumulateCategory(Join, change.join);
      AccumulateCategory(Leave, change.leave);
    }

    method AccumulateCategory(category: Category, m: map<string, Json>)
      modifies this`groups
      ensures groups == MoveGroups(old(groups), category, m)
    {
      ghost var g0 := groups;
      var todo := m.Keys;
      assert groups == MoveGroups(g0, category, m - todo);
      while todo != {}
        invariant todo <= m.Keys
        invariant groups == MoveGroups(g0, category, m - todo)
      {
        var id :| id in todo;
        MoveStep(g0, category, m, todo, id);
        groups := MoveGroups(groups, category, map[id := m[id]]);
        todo := todo - {id};
      }
      assert m - {} == m;
    }

    method GetJSON() returns (data: SyncData)
      requires Valid()
      ensures IsData(Contents(), data)
    {
      var join := EmitRooms(joinRooms);
      var accData := ListTyped(accountData);
      data := SyncData(nextBatch, inviteRooms, join, groups, accData);
    }
  }

  // ----- The loops

  method ClobberStripped(es: seq<Stripped>, e: Stripped) returns (r: seq<Stripped>)
    ensures r == ClobberInvite(es, e)
  {
    r := es;
    var hasAdded := false;
    for i := 0 to |es|
      invariant |r| == |es|
      invariant hasAdded <==> exists j :: 0 <= j < i && SameKey(es[j], e)
      invariant forall j :: 0 <= j < |es| ==> r[j] == if j < i && SameKey(es[j], e) then e else es[j]
    {
      if SameKey(r[i], e) {
        r := r[i := e];
        hasAdded := true;
      }
    }
    assert r == UpdateMatching(es, e);
    if !hasAdded {
      r := r + [e];
    }
  }

  method JoinRoom(room: Room, data: JoinedRoom, max: nat) returns (r: Room)
    ensures r == AccumulateJoin(room, data, max)
  {
    var accountData := ClobberTyped(room.accountData, data.accountData);
    var unread := if data.unread.Some? then data.unread.value else room.unread;
    var summary := if data.summary.Some? then MergeSummary(room.summary, data.summary.value) else room.summary;
    var receipts := AddReceipts(room.receipts, data.ephemeral);
    var timeline := if data.limited then [] else room.timeline;
    var currentState := ReplayEvents(room.currentState, data.state);
    currentState, timeline := RollForward(currentState, timeline, data);
    timeline := PruneTimeline(timeline, max);
    r := Room(currentState, timeline, summary, accountData, unread, receipts);
  }

  method ReplayEvents(m: State, es: seq<Event>) returns (r: State)
    ensures r == Replay(m, es)
  {
    r := m;
    for i := 0 to |es|
      invariant r == Replay(m, es[..i])
    {
      r := SetState(r, es[i]);
      assert es[..i + 1][..i] == es[..i];
    }
    assert es[..|es|] == es;
  }

  /** Rolling the state forward over a batch while appending it to the timeline. */
  method RollForward(m: State, t: seq<Entry>, data: JoinedRoom) returns (m': State, t': seq<Entry>)
    ensures m' == Replay(m, data.timeline) && t' == t + Batch(data.timeline, data.prevBatch)
  {
    m', t' := m, t;
    ghost var es, b := data.timeline, Batch(data.timeline, data.prevBatch);
    for i := 0 to |data.timeline|
      invariant m' == Replay(m, es[..i]) && t' == t + b[..i]
    {
      m' := SetState(m', data.timeline[i]);
      t' := t' + [Entry(data.timeline[i], if i == 0 then data.prevBatch else "")];
      assert es[..i + 1][..i] == es[..i];
    }
    assert es[..|es|] == es && b[..|es|] == b;
  }

  method ClobberTyped(m: map<string, TypedEvent>, es: seq<TypedEvent>) returns (r: map<string, TypedEvent>)
    ensures r == Clobber(m, es)
  {
    r := m;
    for i := 0 to |es|
      invariant r == Clobber(m, es[..i])
    {
      r := r[es[i].kind := es[i]];
      assert es[..i + 1][..i] == es[..i];
    }
    assert es[..|es|] == es;
  }

  method AddReceipts(m: map<string, Receipt>, es: seq<EphemeralEvent>) returns (r: map<string, Receipt>)
    ensures r == FoldEphemeral(m, es)
  {
    r := m;
    for i := 0 to |es|
      invariant r == FoldEphemeral(m, es[..i])
    {
      assert es[..i + 1][..i] == es[..i];
      var e := es[i];
      if e.kind == "m.receipt" && e.content.Some? {
        r := AddReceiptContent(r, e.content.value);
      }
    }
    assert es[..|es|] == es;
  }

  method AddReceiptContent(m: map<string, Receipt>, content: ReceiptContent) returns (r: map<string, Receipt>)
    ensures r == FoldContent(m, content)
  {
    r := m;
    for i := 0 to |content|
      invariant r == FoldContent(m, content[..i])
    {
      assert content[..i + 1][..i] == content[..i];
      if READ in content[i].1 {
        r := AddReaders(r, content[i].0, content[i].1[READ]);
      }
    }
    assert content[..|content|] == content;
  }

  method AddReaders(m: map<string, Receipt>, eventId: string, readers: Readers) returns (r: map<string, Receipt>)
    ensures r == FoldReaders(m, eventId, readers)
  {
    r := m;
    var todo := readers.Keys;
    while todo != {}
      invariant todo <= readers.Keys
      invariant r == FoldReaders(m, eventId, readers - todo)
    {
      var u :| u in todo;
      r := r[u := Receipt(readers[u], eventId)];
      todo := todo - {u};
    }
    assert readers - {} == readers;
  }

  method PruneTimeline(t: seq<Entry>, max: nat) returns (r: seq<Entry>)
    ensures r == Prune(t, max)
  {
    r := t;
    if |t| > max {
      var i := |t| - max;
      while i < |t|
        invariant |t| - max <= i <= |t| && r == t
        invariant forall j :: |t| - max <= j < i ==> t[j].token == ""
      {
        if t[i].token != "" {
          r := t[i..];
          break;
        }
        i := i + 1;
      }
    }
  }

  method ListTyped(m: map<string, TypedEvent>) returns (es: seq<TypedEvent>)
    requires TypedKeyed(m)
    ensures ListsTyped(es, m)
  {
    es := [];
    var todo := m.Keys;
    ghost var done: set<string> := {};
    while todo != {}
      invariant done + todo == m.Keys && done !! todo && |es| == |done|
      invariant forall i :: 0 <= i < |es| ==> es[i].kind in m && m[es[i].kind] == es[i]
      invariant forall k :: k in done ==> m[k] in es
      decreases todo
    {
      var k :| k in todo;
      es := es + [m[k]];
      todo, done := todo - {k}, done + {k};
    }
  }

  lemma {:induction false} AppendEntry(es: seq<Event>, m: State, done: set<StateKey>, k: StateKey)
    requires WellKeyed(m) && k in m && done <= m.Keys
    requires forall i :: 0 <= i < |es| ==> IsEntryOf(es[i], m)
    requires forall k :: k in done ==> m[k] in es
    ensures var es' := es + [m[k]];
            && (forall i :: 0 <= i < |es'| ==> IsEntryOf(es'[i], m))
            && (forall k' :: k' in done + {k} ==> m[k'] in es')
  {
    var es' := es + [m[k]];
    assert es'[|es|] == m[k];
    forall k' | k' in done
      ensures m[k'] in es'
    {
      assert m[k'] in es;
    }
  }

  method ListState(m: State) returns (es: seq<Event>)
    requires WellKeyed(m)
    ensures ListsState(es, m)
  {
    es := [];
    var todo := m.Keys;
    ghost var done: set<StateKey> := {};
    while todo != {}
      invariant done + todo == m.Keys && done !! todo && |es| == |done|
      invariant forall i :: 0 <= i < |es| ==> IsEntryOf(es[i], m)
      invariant forall k :: k in done ==> m[k] in es
      decreases todo
    {
      var k :| k in todo;
      AppendEntry(es, m, done, k);
      es := es + [m[k]];
      todo, done := todo - {k}, done + {k};
    }
  }

  function IndexOfEvent(content: ReceiptContent, eventId: string, i: nat): (k: nat)
    requires i <= |content|
    ensures i <= k <= |content|
    ensures k < |content| ==> content[k].0 == eventId
    ensures forall j :: i <= j < k ==> content[j].0 != eventId
    decreases |content| - i
  {
    if i < |content| && content[i].0 != eventId then IndexOfEvent(content, eventId, i + 1) else i
  }

  method ListReceipts(receipts: map<string, Receipt>) returns (es: seq<EphemeralEvent>)
    ensures ListsReceipts(es, receipts)
  {
    var content: ReceiptContent := [];
    var todo := receipts.Keys;
    while todo != {}
      invariant todo <= receipts.Keys
      invariant GroupsReceipts(content, receipts - todo)
    {
      var u :| u in todo;
      ghost var listed := receipts - todo;
      var receipt := receipts[u];
      var i := IndexOfEvent(content, receipt.eventId, 0);
      ghost var before := content;
      if i == |content| {
        content := content + [(receipt.eventId, map[READ := map[u := receipt.data]])];
        NewGroup(before, listed, u, receipt);
      } else {
        assert IsGroup(content[i], listed);
        content := content[i := (receipt.eventId, content[i].1[READ := content[i].1[READ][u := receipt.data]])];
        OldGroup(before, listed, u, receipt, i);
      }
      todo := todo - {u};
      assert receipts - todo == listed[u := receipt];
    }
    assert receipts - {} == receipts;
    if |content| > 0 {
      es := [EphemeralEvent("m.receipt", Some(content))];
      assert IsGroup(content[0], receipts);
      ghost var u :| u in content[0].1[READ];
      assert u in receipts;
    } else {
      es := [];
    }
  }

  lemma {:induction false} NewGroup(content: ReceiptContent, receipts: map<string, Receipt>, u: string, receipt: Receipt)
    requires GroupsReceipts(content, receipts) && u !in receipts
    requires forall i :: 0 <= i < |content| ==> content[i].0 != receipt.eventId
    ensures GroupsReceipts(content + [(receipt.eventId, map[READ := map[u := receipt.data]])], receipts[u := receipt])
  {
    var p := (receipt.eventId, map[READ := map[u := receipt.data]]);
    var content' := content + [p];
    assert u in p.1[READ];
    forall i | 0 <= i < |content'|
      ensures IsGroup(content'[i], receipts[u := receipt])
    {
      if i < |content| { GroupStays(content[i], receipts, u, receipt); }
    }
    assert content'[|content|] == p;
    forall v | v in receipts[u := receipt]
      ensures Mentions(content', v)
    {
      if v != u {
        assert Mentions(content, v);
        var i :| 0 <= i < |content| && READ in content[i].1 && v in content[i].1[READ];
        assert content'[i] == content[i];
      }
    }
  }

  lemma {:induction false} OldGroup(content: ReceiptContent, receipts: map<string, Receipt>, u: string, receipt: Receipt, i: nat)
    requires GroupsReceipts(content, receipts) && u !in receipts
    requires i < |content| && content[i].0 == receipt.eventId && READ in content[i].1
    ensures GroupsReceipts(content[i := (receipt.eventId, content[i].1[READ := content[i].1[READ][u := receipt.data]])],
                           receipts[u := receipt])
  {
    var p := (receipt.eventId, content[i].1[READ := content[i].1[READ][u := receipt.data]]);
    var content' := content[i := p];
    GroupGains(content[i], receipts, u, receipt);
    forall k | 0 <= k < |content'|
      ensures IsGroup(content'[k], receipts[u := receipt])
    {
      if k != i { GroupStays(content[k], receipts, u, receipt); }
    }
    assert content'[i] == p;
    forall v | v in receipts[u := receipt]
      ensures Mentions(content', v)
    {
      if v != u {
        MentionStays(content, i, p, v);
      }
    }
  }

  lemma {:induction false} MentionStays(content: ReceiptContent, i: nat, p: (string, map<string, Readers>), v: string)
    requires i < |content| && Mentions(content, v)
    requires READ in p.1 && READ in content[i].1 && content[i].1[READ].Keys <= p.1[READ].Keys
    ensures Mentions(content[i := p], v)
  {
    var k :| 0 <= k < |content| && READ in content[k].1 && v in content[k].1[READ];
    assert content[i := p][k] == if k == i then p else content[k];
  }

  lemma {:induction false} GroupGains(p: (string, map<string, Readers>), receipts: map<string, Receipt>, u: string, receipt: Receipt)
    requires IsGroup(p, receipts) && u !in receipts && p.0 == receipt.eventId
    ensures IsGroup((receipt.eventId, p.1[READ := p.1[READ][u := receipt.data]]), receipts[u := receipt])
  {
    assert u in p.1[READ][u := receipt.data];
  }

  lemma {:induction false} GroupStays(p: (string, map<string, Readers>), receipts: map<string, Receipt>, u: string, receipt: Receipt)
    requires IsGroup(p, receipts) && u !in receipts
    ensures IsGroup(p, receipts[u := receipt])
  {
  }

  /** The loop over one room in getJSON. */
  method RoomJSON(room: Room) returns (j: JoinedRoom)
    requires WellKeyed(room.currentState) && TypedKeyed(room.accountData)
    ensures IsJson(room, j)
  {
    var accountData := ListTyped(room.accountData);
    var ephemeral := ListReceipts(room.receipts);
    var events, prevBatch := EmitTimeline(room.timeline);
    var rollBackState := RollBackEvents(events);
    var start := map k | k in room.currentState :: if k in rollBackState then rollBackState[k] else room.currentState[k];
    StartStateIsWellKeyed(room.currentState, events);
    var state := ListState(start);
    j := JoinedRoom(state, events, false, prevBatch, ephemeral, accountData, Some(room.unread), Some(room.summary));
  }

  method EmitRooms(joinRooms: map<string, Room>) returns (join: map<string, JoinedRoom>)
    requires KeyedRooms(joinRooms)
    ensures join.Keys == joinRooms.Keys && RoomsEmitted(joinRooms, join)
  {
    join := map[];
    var todo := joinRooms.Keys;
    NothingEmitted(joinRooms);
    while todo != {}
      invariant todo <= joinRooms.Keys && join.Keys == joinRooms.Keys - todo
      invariant RoomsEmitted(joinRooms, join)
    {
      var r :| r in todo;
      join := EmitRoom(joinRooms, join, r);
      todo := todo - {r};
    }
  }

  lemma {:induction false} NothingEmitted(rooms: map<string, Room>)
    ensures RoomsEmitted(rooms, map[])
  {
  }

  method EmitRoom(joinRooms: map<string, Room>, join: map<string, JoinedRoom>, r: string) returns (join': map<string, JoinedRoom>)
    requires r in joinRooms && KeyedRooms(joinRooms) && RoomsEmitted(joinRooms, join)
    ensures join'.Keys == join.Keys + {r} && RoomsEmitted(joinRooms, join')
  {
    var j := RoomJSON(joinRooms[r]);
    EmitOneMore(joinRooms, join, r, j);
    join' := join[r := j];
  }

  ghost predicate RoomsEmitted(rooms: map<string, Room>, join: map<string, JoinedRoom>) {
    forall r :: r in join ==> r in rooms && IsJson(rooms[r], join[r])
  }

  lemma {:induction false} EmitOneMore(rooms: map<string, Room>, join: map<string, JoinedRoom>, r: string, j: JoinedRoom)
    requires RoomsEmitted(rooms, join) && r in rooms && IsJson(rooms[r], j)
    ensures RoomsEmitted(rooms, join[r := j])
  {
  }

  method EmitTimeline(t: seq<Entry>) returns (events: seq<Event>, prevBatch: string)
    ensures events == Events(Emitted(t)) && prevBatch == Token(Emitted(t))
  {
    events, prevBatch := [], "";
    var first := FirstToken(t, 0);
    for i := 0 to |t|
      invariant prevBatch == if i <= first then "" else t[first].token
      invariant |events| == if i <= first then 0 else i - first
      invariant forall k :: 0 <= k < |events| ==> events[k] == t[first + k].event
    {
      if prevBatch == "" {
        if t[i].token == "" {
          continue;
        }
        prevBatch := t[i].token;
      }
      events := events + [t[i].event];
    }
  }

  method RollBackEvents(es: seq<Event>) returns (m: State)
    ensures m == RollBack(es)
  {
    m := map[];
    var i := |es|;
    while i > 0
      invariant 0 <= i <= |es| && m == RollBack(es[i..])
    {
      i := i - 1;
      assert es[i..][1..] == es[i + 1..];
      if es[i].stateKey.None? {
        continue;
      }
      m := SetState(m, PreviousOf(es[i]));
    }
    assert es[0..] == es;
  }
}
