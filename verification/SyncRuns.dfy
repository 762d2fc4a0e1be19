/** Whole runs of the sync accumulator: what every run keeps, and what survives a restart. */
module SyncRuns {
  import opened Common
  import opened SyncRoom
  import opened SyncRestart
  import opened SyncAccumulator

  // ----- The invariant

  ghost predicate GroupsDisjoint(g: Groups) {
    g.invite.Keys !! g.join.Keys && g.invite.Keys !! g.leave.Keys && g.join.Keys !! g.leave.Keys
  }

  ghost predicate DataInv(d: Data, max: nat) {
    && TypedKeyed(d.accountData)
    && (forall r :: r in d.joinRooms ==> RoomInv(d.joinRooms[r], max))
    && d.inviteRooms.Keys !! d.joinRooms.Keys
    && GroupsDisjoint(d.groups)
  }

  /** A response follows the membership diagram of accumulateRoom (no invite to a room that is
      joined, unless the same response also moves it on), and is good for each joined room. */
  ghost predicate GoodResponse(d: Data, resp: SyncResponse, max: nat) {
    && FollowsDiagram(d, resp)
    && (forall r :: r in resp.join ==> GoodJoin(RoomOf(d.joinRooms, r), resp.join[r], max))
  }

  ghost predicate FollowsDiagram(d: Data, resp: SyncResponse) {
    forall r :: r in resp.invite && resp.invite[r].Some? && r in d.joinRooms ==> r in resp.join || r in resp.leave
  }

  /** No room is both invited and joined after a response exactly when it follows the diagram. */
  lemma {:induction false} MembershipIff(d: Data, resp: SyncResponse, max: nat)
    requires d.inviteRooms.Keys !! d.joinRooms.Keys
    ensures var d' := Accumulated(d, resp, max);
            d'.inviteRooms.Keys !! d'.joinRooms.Keys <==> FollowsDiagram(d, resp)
  {
    var d1 := AfterInvites(d, resp.invite);
    assert d1.inviteRooms.Keys == d.inviteRooms.Keys + Invited(d.inviteRooms, resp.invite).Keys;
    var d' := Accumulated(d, resp, max);
    var invites, joins := (d1.inviteRooms.Keys - resp.join.Keys) - resp.leave, d.joinRooms.Keys + resp.join.Keys;
    assert d'.inviteRooms.Keys == invites;
    assert d'.joinRooms.Keys == joins - (resp.leave - (d1.inviteRooms.Keys - resp.join.Keys));
    if !FollowsDiagram(d, resp) {
      var r :| r in resp.invite && resp.invite[r].Some? && r in d.joinRooms && r !in resp.join && r !in resp.leave;
      assert r in Invited(d.inviteRooms, resp.invite);
      assert r in d'.inviteRooms.Keys && r in d'.joinRooms.Keys;
    }
  }

  /** An invite to a room that is joined leaves it in both categories. */
  lemma {:induction false} InviteToJoinedRoomStaysInBoth(max: nat)
    ensures var d := EMPTY_DATA.(joinRooms := map["!r:x" := EMPTY_ROOM]);
            var resp := SyncResponse("s1", map["!r:x" := Some([])], map[], {}, Groups(map[], map[], map[]), []);
            var d' := Accumulated(d, resp, max);
            "!r:x" in d'.inviteRooms && "!r:x" in d'.joinRooms
  {
  }

  lemma {:induction false} MoveKeepsDisjoint(g: Groups, category: Category, m: map<string, Json>)
    requires GroupsDisjoint(g)
    ensures GroupsDisjoint(MoveGroups(g, category, m))
  {
  }

  /** A group a response mentions ends up in the last category that mentions it, and in no other. */
  lemma {:induction false} GroupsStayDisjoint(g: Groups, change: Groups)
    requires GroupsDisjoint(g)
    ensures GroupsDisjoint(AfterGroups(g, change))
  {
    var g1 := MoveGroups(g, Invite, change.invite);
    MoveKeepsDisjoint(g, Invite, change.invite);
    MoveKeepsDisjoint(g1, Join, change.join);
    MoveKeepsDisjoint(MoveGroups(g1, Join, change.join), Leave, change.leave);
  }

  lemma {:induction false} JoinedKeepInv(rooms: map<string, Room>, join: map<string, JoinedRoom>, max: nat)
    requires forall r :: r in rooms ==> RoomInv(rooms[r], max)
    requires forall r :: r in join ==> GoodJoin(RoomOf(rooms, r), join[r], max)
    ensures forall r :: r in Joined(rooms, join, max) ==> RoomInv(Joined(rooms, join, max)[r], max)
  {
    forall r | r in join
      ensures RoomInv(Joined(rooms, join, max)[r], max)
    {
      EmptyRoomInv(max);
      JoinKeepsInv(RoomOf(rooms, r), join[r], max);
    }
  }

  lemma {:induction false} EmptyRoomInv(max: nat)
    ensures RoomInv(EMPTY_ROOM, max)
  {
    assert Events([]) == [];
  }

  /** Every good response keeps the accumulator's invariant. */
  lemma {:induction false} AccumulateKeepsInv(d: Data, resp: SyncResponse, max: nat)
    requires DataInv(d, max) && GoodResponse(d, resp, max)
    ensures DataInv(Accumulated(d, resp, max), max)
  {
    MembershipIff(d, resp, max);
    GroupsStayDisjoint(d.groups, resp.groups);
    ClobberIsKeyed(d.accountData, resp.accountData);
    JoinedKeepInv(d.joinRooms, resp.join, max);
    RoomsAfter(d, resp, max);
  }

  lemma {:induction false} RoomsAfter(d: Data, resp: SyncResponse, max: nat)
    ensures var rooms := Accumulated(d, resp, max).joinRooms;
            forall r :: r in rooms ==>
                          if r in resp.join then rooms[r] == Joined(d.joinRooms, resp.join, max)[r]
                          else r in d.joinRooms && rooms[r] == d.joinRooms[r]
  {
  }

  // ----- Runs

  ghost function Run(d: Data, rs: seq<SyncResponse>, max: nat): Data {
    if rs == [] then d else Accumulated(Run(d, rs[..|rs| - 1], max), rs[|rs| - 1], max)
  }

  ghost predicate GoodRun(d: Data, rs: seq<SyncResponse>, max: nat) {
    rs == [] ||
    (GoodRun(d, rs[..|rs| - 1], max) && GoodResponse(Run(d, rs[..|rs| - 1], max), rs[|rs| - 1], max))
  }

  lemma {:induction false} RunKeepsInv(d: Data, rs: seq<SyncResponse>, max: nat)
    requires DataInv(d, max) && GoodRun(d, rs, max)
    ensures DataInv(Run(d, rs, max), max)
  {
    if rs != [] {
      RunKeepsInv(d, rs[..|rs| - 1], max);
      AccumulateKeepsInv(Run(d, rs[..|rs| - 1], max), rs[|rs| - 1], max);
    }
  }

  lemma {:induction false} EmptyDataInv(max: nat)
    ensures DataInv(EMPTY_DATA, max)
  {
  }

  // ----- What every room of a run has received

  /** The leave section removes the joined room: there is no invite that it takes back instead. */
  ghost predicate Removes(d: Data, resp: SyncResponse, r: string) {
    r in resp.leave && (r in resp.join || !(r in d.inviteRooms || (r in resp.invite && resp.invite[r].Some?)))
  }

  /** What r has received since it was last joined, one response later. */
  ghost function NowSince(before: seq<JoinedRoom>, d: Data, resp: SyncResponse, r: string): seq<JoinedRoom> {
    if Removes(d, resp, r) then [] else if r in resp.join then before + [resp.join[r]] else before
  }

  /** The 'join' sections for r since it was last joined. */
  ghost function SinceJoin(rs: seq<SyncResponse>, max: nat, r: string): seq<JoinedRoom> {
    if rs == [] then []
    else
      var front := rs[..|rs| - 1];
      NowSince(SinceJoin(front, max, r), Run(EMPTY_DATA, front, max), rs[|rs| - 1], r)
  }

  lemma {:induction false} RoomAfter(d: Data, resp: SyncResponse, max: nat, r: string)
    ensures RoomOf(Accumulated(d, resp, max).joinRooms, r) ==
            if Removes(d, resp, r) then EMPTY_ROOM
            else if r in resp.join then AccumulateJoin(RoomOf(d.joinRooms, r), resp.join[r], max)
            else RoomOf(d.joinRooms, r)
    ensures r in Accumulated(d, resp, max).joinRooms <==> !Removes(d, resp, r) && (r in resp.join || r in d.joinRooms)
  {
    var d1 := AfterJoins(AfterInvites(d, resp.invite), resp.join, max);
    assert r in resp.join ==> d1.joinRooms[r] == Joined(d.joinRooms, resp.join, max)[r];
  }

  lemma {:induction false} RoomRunSnoc(ds: seq<JoinedRoom>, d: JoinedRoom, max: nat)
    ensures SyncRoom.Run(ds + [d], max) == LedgerStep(SyncRoom.Run(ds, max), d, max)
    ensures SyncRoom.Run(ds + [d], max).room == AccumulateJoin(SyncRoom.Run(ds, max).room, d, max)
  {
    assert (ds + [d])[..|ds|] == ds;
  }

  lemma {:induction false} GoodRunSnoc(ds: seq<JoinedRoom>, d: JoinedRoom, max: nat)
    requires SyncRoom.GoodRun(ds, max) && GoodJoin(SyncRoom.Run(ds, max).room, d, max) && Honest(SyncRoom.Run(ds, max), d, max)
    ensures SyncRoom.GoodRun(ds + [d], max)
  {
    assert (ds + [d])[..|ds|] == ds;
  }

  /** ds are what the room r of d has received since it was last joined. */
  ghost predicate Received(ds: seq<JoinedRoom>, d: Data, max: nat, r: string) {
    SyncRoom.Run(ds, max).room == RoomOf(d.joinRooms, r) && (r in d.joinRooms <==> ds != [])
  }

  lemma {:induction false} ReceivedStep(before: seq<JoinedRoom>, d: Data, resp: SyncResponse, max: nat, r: string)
    requires Received(before, d, max, r)
    ensures Received(NowSince(before, d, resp, r), Accumulated(d, resp, max), max, r)
  {
    RoomAfter(d, resp, max, r);
    if r in resp.join { RoomRunSnoc(before, resp.join[r], max); }
  }

  /** A room of the accumulator is what a run of its own since it was last joined makes of it. */
  lemma {:induction false} RoomIsItsOwnRun(rs: seq<SyncResponse>, max: nat, r: string)
    ensures Received(SinceJoin(rs, max, r), Run(EMPTY_DATA, rs, max), max, r)
  {
    if rs != [] {
      var front := rs[..|rs| - 1];
      RoomIsItsOwnRun(front, max, r);
      ReceivedStep(SinceJoin(front, max, r), Run(EMPTY_DATA, front, max), rs[|rs| - 1], max, r);
    }
  }

  /** In every response the server tells the truth about every joined room. */
  ghost predicate TruthfulRun(rs: seq<SyncResponse>, max: nat) {
    rs == [] ||
    var front, resp := rs[..|rs| - 1], rs[|rs| - 1];
    && TruthfulRun(front, max)
    && forall r :: r in resp.join ==> Honest(SyncRoom.Run(SinceJoin(front, max, r), max), resp.join[r], max)
  }

  lemma {:induction false} GoodStep(before: seq<JoinedRoom>, d: Data, resp: SyncResponse, max: nat, r: string)
    requires SyncRoom.GoodRun(before, max) && Received(before, d, max, r) && GoodResponse(d, resp, max)
    requires r in resp.join ==> Honest(SyncRoom.Run(before, max), resp.join[r], max)
    ensures SyncRoom.GoodRun(NowSince(before, d, resp, r), max)
  {
    if r in resp.join { GoodRunSnoc(before, resp.join[r], max); }
  }

  lemma {:induction false} RoomRunIsGood(rs: seq<SyncResponse>, max: nat, r: string)
    requires GoodRun(EMPTY_DATA, rs, max) && TruthfulRun(rs, max)
    ensures SyncRoom.GoodRun(SinceJoin(rs, max, r), max)
  {
    if rs != [] {
      var front := rs[..|rs| - 1];
      RoomRunIsGood(front, max, r);
      RoomIsItsOwnRun(front, max, r);
      GoodStep(SinceJoin(front, max, r), Run(EMPTY_DATA, front, max), rs[|rs| - 1], max, r);
    }
  }

  ghost predicate FitsBest(l: Ledger, max: nat) {
    IsBestSuffix(l.room.timeline, l.history, max)
  }

  lemma {:induction false} FitsStep(before: seq<JoinedRoom>, d: Data, resp: SyncResponse, max: nat, r: string)
    requires FitsBest(SyncRoom.Run(before, max), max) && GoodResponse(d, resp, max)
    ensures FitsBest(SyncRoom.Run(NowSince(before, d, resp, r), max), max)
  {
    if Removes(d, resp, r) {
      assert IsBestSuffix([], [], max);
    } else if r in resp.join {
      RoomRunSnoc(before, resp.join[r], max);
      HistoryStep(SyncRoom.Run(before, max), resp.join[r], max);
    }
  }

  lemma {:induction false} RoomRunFits(rs: seq<SyncResponse>, max: nat, r: string)
    requires GoodRun(EMPTY_DATA, rs, max)
    ensures FitsBest(SyncRoom.Run(SinceJoin(rs, max, r), max), max)
  {
    if rs == [] {
      assert IsBestSuffix([], [], max);
    } else {
      var front := rs[..|rs| - 1];
      RoomRunFits(front, max, r);
      FitsStep(SinceJoin(front, max, r), Run(EMPTY_DATA, front, max), rs[|rs| - 1], max, r);
    }
  }

  /** All that replay needs of a run: no 'state' section changes what a retained timeline has set. */
  ghost predicate StateKept(rs: seq<SyncResponse>, max: nat) {
    rs == [] ||
    var front, resp := rs[..|rs| - 1], rs[|rs| - 1];
    && StateKept(front, max)
    && forall r :: r in resp.join ==> KeepsState(RoomOf(Run(EMPTY_DATA, front, max).joinRooms, r), resp.join[r], max)
  }

  lemma {:induction false} GoodRunKeepsState(rs: seq<SyncResponse>, max: nat)
    requires GoodRun(EMPTY_DATA, rs, max)
    ensures StateKept(rs, max)
  {
    if rs != [] { GoodRunKeepsState(rs[..|rs| - 1], max); }
  }

  lemma {:induction false} RoomStaysFaithful(rs: seq<SyncResponse>, max: nat, r: string)
    requires StateKept(rs, max)
    ensures FaithfulRoom(RoomOf(Run(EMPTY_DATA, rs, max).joinRooms, r))
  {
    EmptyRoomInv(max);
    if rs != [] {
      var front, resp := rs[..|rs| - 1], rs[|rs| - 1];
      RoomStaysFaithful(front, max, r);
      RoomAfter(Run(EMPTY_DATA, front, max), resp, max, r);
      if r in resp.join { JoinKeepsFaithful(RoomOf(Run(EMPTY_DATA, front, max).joinRooms, r), resp.join[r], max); }
    }
  }

  /** Every emitted room of a run replays to its current state, whatever the batches, their tokens
      and the memberships are. */
  lemma {:induction false} EmittedDataReplays(rs: seq<SyncResponse>, max: nat, s: SyncData, r: string)
    requires StateKept(rs, max) && IsData(Run(EMPTY_DATA, rs, max), s) && r in s.join
    ensures Meaning(s.join[r]) == Run(EMPTY_DATA, rs, max).joinRooms[r].currentState
  {
    RoomStaysFaithful(rs, max, r);
    ReplayIsCurrent(Run(EMPTY_DATA, rs, max).joinRooms[r], s.join[r]);
  }

  /** The main result for whole runs from a fresh accumulator: every emitted room, however often it
      was left and joined again, replays to its current state; over good responses its timeline is
      the longest suffix that fits and begins at a token of all it has received since the last gap
      or join; and if the server was truthful, it shows the state at the start of that timeline. */
  lemma {:induction false} EmittedDataIsFaithful(rs: seq<SyncResponse>, max: nat, s: SyncData, r: string)
    requires GoodRun(EMPTY_DATA, rs, max) && IsData(Run(EMPTY_DATA, rs, max), s) && r in s.join
    ensures var j, l, room := s.join[r], SyncRoom.Run(SinceJoin(rs, max, r), max), Run(EMPTY_DATA, rs, max).joinRooms[r];
            && Meaning(j) == room.currentState && l.room == room
            && IsBestSuffix(room.timeline, l.history, max)
            && j.timeline == Events(room.timeline) && |j.timeline| <= max
            && (if j.timeline == [] then j.prevBatch == "" else j.prevBatch == room.timeline[0].token != "")
            && (TruthfulRun(rs, max) ==> ShowsStart(Latest(j.state), l.start) && room.currentState == Replay(l.start, j.timeline))
  {
    var room := Run(EMPTY_DATA, rs, max).joinRooms[r];
    GoodRunKeepsState(rs, max);
    EmittedDataReplays(rs, max, s, r);
    EmptyDataInv(max);
    RunKeepsInv(EMPTY_DATA, rs, max);
    EmittedTimelineIs(room, s.join[r], max);
    RoomIsItsOwnRun(rs, max, r);
    RoomRunFits(rs, max, r);
    if TruthfulRun(rs, max) { StartIsShown(rs, max, s.join[r], r); }
  }

  lemma {:induction false} StartIsShown(rs: seq<SyncResponse>, max: nat, j: JoinedRoom, r: string)
    requires GoodRun(EMPTY_DATA, rs, max) && TruthfulRun(rs, max)
    requires r in Run(EMPTY_DATA, rs, max).joinRooms && IsJson(Run(EMPTY_DATA, rs, max).joinRooms[r], j)
    ensures var l := SyncRoom.Run(SinceJoin(rs, max, r), max);
            ShowsStart(Latest(j.state), l.start) && Run(EMPTY_DATA, rs, max).joinRooms[r].currentState == Replay(l.start, j.timeline)
  {
    RoomIsItsOwnRun(rs, max, r);
    RoomRunIsGood(rs, max, r);
    RoomStartIsShown(SinceJoin(rs, max, r), max, Run(EMPTY_DATA, rs, max).joinRooms[r], j);
  }

  lemma {:induction false} RoomStartIsShown(ds: seq<JoinedRoom>, max: nat, room: Room, j: JoinedRoom)
    requires SyncRoom.GoodRun(ds, max) && SyncRoom.Run(ds, max).room == room && IsJson(room, j)
    ensures ShowsStart(Latest(j.state), SyncRoom.Run(ds, max).start)
    ensures room.currentState == Replay(SyncRoom.Run(ds, max).start, j.timeline)
  {
    EmittedRoomIsFaithful(ds, max, j);
  }

  // ----- Restarting

  /** The response that a saved sync is fed back as. */
  function Saved(s: SyncData): SyncResponse {
    SyncResponse(s.nextBatch, map r | r in s.invite :: Some(s.invite[r]), s.join, {}, s.groups, s.accountData)
  }

  /** A fresh accumulator that has read a saved sync. */
  function Reloaded(s: SyncData, max: nat): Data {
    Accumulated(EMPTY_DATA, Saved(s), max)
  }

  lemma {:induction false} ReloadedGroups(g: Groups)
    requires GroupsDisjoint(g)
    ensures AfterGroups(EMPTY_DATA.groups, g) == g
  {
  }

  lemma {:induction false} InvitedFromNothing(invites: map<string, seq<Stripped>>)
    ensures Invited(map[], map r | r in invites :: Some(invites[r])) == invites
  {
  }

  lemma {:induction false} ReloadedRooms(s: SyncData, max: nat)
    requires s.invite.Keys !! s.join.Keys
    ensures AfterRooms(EMPTY_DATA, Saved(s), max).inviteRooms == s.invite
    ensures AfterRooms(EMPTY_DATA, Saved(s), max).joinRooms == Joined(map[], s.join, max)
  {
    InvitedFromNothing(s.invite);
    NothingElse(s.invite, s.join.Keys);
    assert map[] + Joined(map[], s.join, max) - ({} - (s.invite - s.join.Keys).Keys) == Joined(map[], s.join, max);
  }

  lemma {:induction false} NothingElse(invites: map<string, seq<Stripped>>, joined: set<string>)
    requires invites.Keys !! joined
    ensures map[] + invites - joined - {} == invites
  {
  }

  /** What a restart changes: nothing but the inner tokens of each room's timeline. */
  lemma {:induction false} ReloadedData(d: Data, s: SyncData, max: nat)
    requires DataInv(d, max) && IsData(d, s)
    ensures Reloaded(s, max) == d.(joinRooms := Joined(map[], s.join, max))
    ensures Reloaded(s, max).joinRooms.Keys == d.joinRooms.Keys == s.join.Keys
    ensures forall r :: r in s.join ==> Reloaded(s, max).joinRooms[r] == Load(s.join[r], max)
  {
    ReloadedGroups(d.groups);
    ReloadedShape(s, max);
    TypedListingFolds(s.accountData, d.accountData);
    LoadedRooms(s.join, max);
  }

  lemma {:induction false} ReloadedShape(s: SyncData, max: nat)
    requires s.invite.Keys !! s.join.Keys
    ensures Reloaded(s, max) == Data(Clobber(map[], s.accountData), s.invite, Joined(map[], s.join, max),
                                     AfterGroups(EMPTY_DATA.groups, s.groups), s.nextBatch)
  {
    ReloadedRooms(s, max);
  }

  lemma {:induction false} LoadedRooms(join: map<string, JoinedRoom>, max: nat)
    ensures Joined(map[], join, max).Keys == join.Keys
    ensures forall r :: r in join ==> Joined(map[], join, max)[r] == Load(join[r], max)
  {
  }

  /** The save/load fixpoint: what a reloaded accumulator may emit is what the original may. */
  lemma {:induction false} ReloadIsFixpoint(d: Data, s: SyncData, s': SyncData, max: nat)
    requires DataInv(d, max) && IsData(d, s)
    ensures IsData(Reloaded(s, max), s') <==> IsData(d, s')
  {
    ReloadedData(d, s, max);
    RoomsFixpoint(d.joinRooms, s.join, s'.join, max);
    assert Reloaded(s, max) == d.(joinRooms := Joined(map[], s.join, max));
  }

  lemma {:induction false} RoomsFixpoint(rooms: map<string, Room>, join: map<string, JoinedRoom>, join': map<string, JoinedRoom>, max: nat)
    requires rooms.Keys == join.Keys && RoomsEmitted(rooms, join)
    requires forall r :: r in rooms ==> RoomInv(rooms[r], max)
    ensures RoomsEmitted(Joined(map[], join, max), join') <==> RoomsEmitted(rooms, join')
  {
    var reloaded := Joined(map[], join, max);
    LoadedRooms(join, max);
    forall r | r in reloaded && r in join'
      ensures IsJson(reloaded[r], join'[r]) <==> IsJson(rooms[r], join'[r])
    {
      LoadedRoomEmitsTheSame(rooms[r], join[r], join'[r], max);
    }
    SameRoomsEmitted(rooms, reloaded, join');
  }

  lemma {:induction false} SameRoomsEmitted(a: map<string, Room>, b: map<string, Room>, join: map<string, JoinedRoom>)
    requires a.Keys == b.Keys
    requires forall r :: r in b && r in join ==> (IsJson(b[r], join[r]) <==> IsJson(a[r], join[r]))
    ensures RoomsEmitted(b, join) <==> RoomsEmitted(a, join)
  {
  }

  ghost predicate Sim(a: Data, b: Data) {
    && b == a.(joinRooms := b.joinRooms) && b.joinRooms.Keys == a.joinRooms.Keys
    && (forall r :: r in a.joinRooms ==> RoomSim(a.joinRooms[r], b.joinRooms[r]))
  }

  lemma {:induction false} ReloadedSims(d: Data, s: SyncData, max: nat)
    requires DataInv(d, max) && IsData(d, s)
    ensures Sim(d, Reloaded(s, max))
  {
    ReloadedData(d, s, max);
    forall r | r in d.joinRooms
      ensures RoomSim(d.joinRooms[r], Reloaded(s, max).joinRooms[r])
    {
      LoadedRoomSims(d.joinRooms[r], s.join[r], max);
    }
  }

  lemma {:induction false} JoinedSims(a: map<string, Room>, b: map<string, Room>, join: map<string, JoinedRoom>, max: nat)
    requires a.Keys == b.Keys
    requires forall r :: r in a ==> RoomInv(a[r], max) && RoomSim(a[r], b[r])
    requires forall r :: r in join ==> GoodBatch(join[r], max)
    ensures forall r :: r in join ==> RoomSim(Joined(a, join, max)[r], Joined(b, join, max)[r])
  {
    forall r | r in join
      ensures RoomSim(Joined(a, join, max)[r], Joined(b, join, max)[r])
    {
      EmptyRoomInv(max);
      assert RoomSim(EMPTY_ROOM, EMPTY_ROOM);
      RoomSimStep(RoomOf(a, r), RoomOf(b, r), join[r], max);
    }
  }

  lemma {:induction false} SimStep(a: Data, b: Data, resp: SyncResponse, max: nat)
    requires DataInv(a, max) && Sim(a, b) && GoodResponse(a, resp, max)
    ensures Sim(Accumulated(a, resp, max), Accumulated(b, resp, max))
  {
    JoinedSims(a.joinRooms, b.joinRooms, resp.join, max);
    RoomsAfter(a, resp, max);
    RoomsAfter(b, resp, max);
  }

  lemma {:induction false} SimRun(a: Data, b: Data, rs: seq<SyncResponse>, max: nat)
    requires DataInv(a, max) && Sim(a, b) && GoodRun(a, rs, max)
    ensures DataInv(Run(a, rs, max), max) && Sim(Run(a, rs, max), Run(b, rs, max))
  {
    if rs != [] {
      SimRun(a, b, rs[..|rs| - 1], max);
      SimStep(Run(a, rs[..|rs| - 1], max), Run(b, rs[..|rs| - 1], max), rs[|rs| - 1], max);
      AccumulateKeepsInv(Run(a, rs[..|rs| - 1], max), rs[|rs| - 1], max);
    }
  }

  ghost predicate IsSuffix(es: seq<Event>, of: seq<Event>) {
    |es| <= |of| && es == of[|of| - |es|..]
  }

  /** Restart simulation: after any good run, save, reload into a fresh accumulator, and feed both
      any further good responses. At every point both emit the same rooms, each with the same
      replayed state, the reloaded timeline being a suffix of the original one; and everything
      outside the rooms' timelines is equal. */
  lemma {:induction false} RestartIsInvisible(before: seq<SyncResponse>, saved: SyncData, after: seq<SyncResponse>, max: nat,
                           sa: SyncData, sb: SyncData)
    requires GoodRun(EMPTY_DATA, before, max)
    requires IsData(Run(EMPTY_DATA, before, max), saved)
    requires GoodRun(Run(EMPTY_DATA, before, max), after, max)
    requires IsData(Run(Run(EMPTY_DATA, before, max), after, max), sa)
    requires IsData(Run(Reloaded(saved, max), after, max), sb)
    ensures SameMeaning(sa, sb)
    ensures Sim(Run(Run(EMPTY_DATA, before, max), after, max), Run(Reloaded(saved, max), after, max))
  {
    var d := Run(EMPTY_DATA, before, max);
    EmptyDataInv(max);
    RunKeepsInv(EMPTY_DATA, before, max);
    ReloadedSims(d, saved, max);
    SimRun(d, Reloaded(saved, max), after, max);
    SimMeansTheSame(Run(d, after, max), Run(Reloaded(saved, max), after, max), sa, sb, max);
  }

  /** Two emissions with the same invites, groups and rooms, each room replaying to the same state,
      the timelines of the second being suffixes of those of the first. */
  ghost predicate SameMeaning(sa: SyncData, sb: SyncData) {
    && sb.nextBatch == sa.nextBatch && sb.groups == sa.groups && sb.invite == sa.invite && sb.join.Keys == sa.join.Keys
    && (forall r :: r in sa.join ==> SameRoomMeaning(sa.join[r], sb.join[r]))
  }

  ghost predicate SameRoomMeaning(ja: JoinedRoom, jb: JoinedRoom) {
    && Meaning(jb) == Meaning(ja)
    && IsSuffix(jb.timeline, ja.timeline)
    && jb.unread == ja.unread && jb.summary == ja.summary
  }

  lemma {:induction false} SimMeansTheSame(a: Data, b: Data, sa: SyncData, sb: SyncData, max: nat)
    requires DataInv(a, max) && Sim(a, b) && IsData(a, sa) && IsData(b, sb)
    ensures SameMeaning(sa, sb)
  {
    forall r | r in sa.join
      ensures SameRoomMeaning(sa.join[r], sb.join[r])
    {
      SimEmits(a.joinRooms[r], b.joinRooms[r], sa.join[r], sb.join[r], max);
    }
  }

  lemma {:induction false} SimEmits(a: Room, b: Room, ja: JoinedRoom, jb: JoinedRoom, max: nat)
    requires RoomInv(a, max) && RoomSim(a, b) && IsJson(a, ja) && IsJson(b, jb)
    ensures Meaning(ja) == a.currentState
    ensures SameRoomMeaning(ja, jb)
  {
    SimKeepsInv(a, b, max);
    ReplayIsCurrent(a, ja);
    ReplayIsCurrent(b, jb);
    SimIsSuffix(a.timeline, b.timeline);
  }

  lemma {:induction false} SimIsSuffix(a: seq<Entry>, b: seq<Entry>)
    requires TimelineSim(a, b)
    ensures IsSuffix(Events(b), Events(a))
  {
    var n := |a| - |b|;
    forall i | 0 <= i < |b|
      ensures Events(b)[i] == Events(a)[n + i]
    {
      assert b[i].event == a[n + i].event;
    }
    SuffixByIndex(Events(b), Events(a));
  }

  lemma {:induction false} SuffixByIndex(es: seq<Event>, of: seq<Event>)
    requires |es| <= |of| && forall i :: 0 <= i < |es| ==> es[i] == of[|of| - |es| + i]
    ensures IsSuffix(es, of)
  {
  }

  // ----- Invites

  function InviteMap(es: seq<Stripped>): map<(string, string), Stripped> {
    if es == [] then map[] else InviteMap(es[..|es| - 1])[(es[|es| - 1].kind, es[|es| - 1].stateKey) := es[|es| - 1]]
  }

  lemma {:induction false} InviteSnoc(es: seq<Stripped>, e: Stripped)
    ensures InviteMap(es + [e]) == InviteMap(es)[(e.kind, e.stateKey) := e]
  {
    assert (es + [e])[..|es|] == es;
  }

  lemma {:induction false} HasKeySnoc(es: seq<Stripped>, last: Stripped, e: Stripped)
    ensures HasKey(es + [last], e) <==> HasKey(es, e) || SameKey(last, e)
  {
    var more := es + [last];
    assert more[|es|] == last;
    if HasKey(es, e) {
      var i :| 0 <= i < |es| && SameKey(es[i], e);
      assert more[i] == es[i];
    }
  }

  lemma {:induction false} UpdateSnoc(es: seq<Stripped>, last: Stripped, e: Stripped)
    ensures UpdateMatching(es + [last], e) == UpdateMatching(es, e) + [if SameKey(last, e) then e else last]
  {
    assert (es + [last])[..|es|] == es;
  }

  lemma {:induction false} UpdateReads(es: seq<Stripped>, e: Stripped)
    ensures InviteMap(UpdateMatching(es, e)) == if HasKey(es, e) then InviteMap(es)[(e.kind, e.stateKey) := e] else InviteMap(es)
  {
    if es != [] {
      var front, last := es[..|es| - 1], es[|es| - 1];
      assert es == front + [last];
      UpdateReads(front, e);
      HasKeySnoc(front, last, e);
      UpdateSnoc(front, last, e);
      InviteSnoc(front, last);
      InviteSnoc(UpdateMatching(front, e), if SameKey(last, e) then e else last);
    }
  }

  lemma {:induction false} ClobberReads(es: seq<Stripped>, e: Stripped)
    ensures InviteMap(ClobberInvite(es, e)) == InviteMap(es)[(e.kind, e.stateKey) := e]
  {
    UpdateReads(es, e);
    InviteSnoc(UpdateMatching(es, e), e);
  }

  lemma {:induction false} PutLast(a: map<(string, string), Stripped>, b: map<(string, string), Stripped>, k: (string, string), e: Stripped)
    ensures (a + b)[k := e] == a + b[k := e]
  {
  }

  /** Merging an invite means reading the old events and then the new ones. */
  lemma {:induction false} MergedInviteReads(es: seq<Stripped>, more: seq<Stripped>)
    ensures InviteMap(MergeInvite(es, more)) == InviteMap(es) + InviteMap(more)
  {
    if more != [] {
      var merged, e := MergeInvite(es, more[..|more| - 1]), more[|more| - 1];
      MergedInviteReads(es, more[..|more| - 1]);
      ClobberReads(merged, e);
      PutLast(InviteMap(es), InviteMap(more[..|more| - 1]), (e.kind, e.stateKey), e);
    }
  }
}
