/** What an accumulator holds, in terms of the events it has received: for every key the last one
    that was given (src/sync-accumulator.ts:219-537), stated by position in what was received. */
module SyncContents {
  import opened Common
  import opened SyncRoom
  import opened SyncAccumulator
  import SyncRuns

  // ----- Everything received, in order

  function AllState(ds: seq<JoinedRoom>): seq<Event> {
    if ds == [] then [] else AllState(ds[..|ds| - 1]) + (ds[|ds| - 1].state + ds[|ds| - 1].timeline)
  }

  function AllEphemeral(ds: seq<JoinedRoom>): seq<EphemeralEvent> {
    if ds == [] then [] else AllEphemeral(ds[..|ds| - 1]) + ds[|ds| - 1].ephemeral
  }

  function AllAccountData(ds: seq<JoinedRoom>): seq<TypedEvent> {
    if ds == [] then [] else AllAccountData(ds[..|ds| - 1]) + ds[|ds| - 1].accountData
  }

  function AllGlobalData(rs: seq<SyncResponse>): seq<TypedEvent> {
    if rs == [] then [] else AllGlobalData(rs[..|rs| - 1]) + rs[|rs| - 1].accountData
  }

  // ----- State

  predicate Sets(e: Event, k: StateKey) {
    e.stateKey == Some(k.1) && e.kind == k.0 != ""
  }

  /** m holds for k the last of the events that sets it, or else what before holds. */
  ghost predicate HoldsLastState(m: State, before: State, es: seq<Event>, k: StateKey) {
    && (forall i :: 0 <= i < |es| && Sets(es[i], k) && (forall j :: i < j < |es| ==> !Sets(es[j], k)) ==> k in m && m[k] == es[i])
    && ((forall i :: 0 <= i < |es| ==> !Sets(es[i], k)) ==> (k in m <==> k in before) && (k in m ==> m[k] == before[k]))
  }

  lemma {:induction false} ReplayLast(m: State, es: seq<Event>, i: nat, k: StateKey)
    requires i < |es| && Sets(es[i], k) && forall j :: i < j < |es| ==> !Sets(es[j], k)
    ensures k in Replay(m, es) && Replay(m, es)[k] == es[i]
  {
    if i < |es| - 1 { ReplayLast(m, es[..|es| - 1], i, k); }
  }

  lemma {:induction false} ReplayNever(m: State, es: seq<Event>, k: StateKey)
    requires forall i :: 0 <= i < |es| ==> !Sets(es[i], k)
    ensures k in Replay(m, es) <==> k in m
    ensures k in m ==> Replay(m, es)[k] == m[k]
  {
    if es != [] { ReplayNever(m, es[..|es| - 1], k); }
  }

  lemma {:induction false} ReplayHoldsLast(m: State, es: seq<Event>, k: StateKey)
    ensures HoldsLastState(Replay(m, es), m, es, k)
  {
    forall i | 0 <= i < |es| && Sets(es[i], k) && forall j :: i < j < |es| ==> !Sets(es[j], k)
      ensures k in Replay(m, es) && Replay(m, es)[k] == es[i]
    {
      ReplayLast(m, es, i, k);
    }
    if forall i :: 0 <= i < |es| ==> !Sets(es[i], k) { ReplayNever(m, es, k); }
  }

  /** A response leaves in the room, for each key, the last of its state and timeline events. */
  lemma {:induction false} StateIsLast(room: Room, d: JoinedRoom, max: nat, k: StateKey)
    ensures HoldsLastState(AccumulateJoin(room, d, max).currentState, room.currentState, d.state + d.timeline, k)
  {
    ReplayConcat(room.currentState, d.state, d.timeline);
    ReplayHoldsLast(room.currentState, d.state + d.timeline, k);
  }

  // ----- Receipts

  /** The j-th property of the content of a receipt event has a read receipt of the user. */
  predicate Reads(e: EphemeralEvent, j: nat, u: string) {
    && e.kind == "m.receipt" && e.content.Some? && j < |e.content.value|
    && "m.read" in e.content.value[j].1 && u in e.content.value[j].1["m.read"]
  }

  ghost predicate LastRead(es: seq<EphemeralEvent>, i: nat, j: nat, u: string) {
    && i < |es| && Reads(es[i], j, u)
    && (forall j' :: j < j' ==> !Reads(es[i], j', u))
    && (forall i', j' :: i < i' < |es| ==> !Reads(es[i'], j', u))
  }

  ghost predicate NeverRead(es: seq<EphemeralEvent>, u: string) {
    forall i, j :: 0 <= i < |es| ==> !Reads(es[i], j, u)
  }

  /** Receipts hold for u the data and the event of the last read receipt, or else what before holds. */
  ghost predicate HoldsLastReceipt(m: map<string, Receipt>, before: map<string, Receipt>, es: seq<EphemeralEvent>, u: string) {
    && (forall i: nat, j: nat :: LastRead(es, i, j, u) ==>
          var p := es[i].content.value[j]; u in m && m[u] == Receipt(p.1["m.read"][u], p.0))
    && (NeverRead(es, u) ==> (u in m <==> u in before) && (u in m ==> m[u] == before[u]))
  }

  predicate InProperty(p: (string, map<string, Readers>), u: string) {
    "m.read" in p.1 && u in p.1["m.read"]
  }

  lemma {:induction false} ContentLast(m: map<string, Receipt>, content: ReceiptContent, j: nat, u: string)
    requires j < |content| && InProperty(content[j], u) && forall j' :: j < j' < |content| ==> !InProperty(content[j'], u)
    ensures u in FoldContent(m, content) && FoldContent(m, content)[u] == Receipt(content[j].1["m.read"][u], content[j].0)
  {
    if j < |content| - 1 { ContentLast(m, content[..|content| - 1], j, u); }
  }

  lemma {:induction false} ContentNever(m: map<string, Receipt>, content: ReceiptContent, u: string)
    requires forall j :: 0 <= j < |content| ==> !InProperty(content[j], u)
    ensures u in FoldContent(m, content) <==> u in m
    ensures u in m ==> FoldContent(m, content)[u] == m[u]
  {
    if content != [] { ContentNever(m, content[..|content| - 1], u); }
  }

  lemma {:induction false} EphemeralNever(m: map<string, Receipt>, es: seq<EphemeralEvent>, u: string)
    requires NeverRead(es, u)
    ensures u in FoldEphemeral(m, es) <==> u in m
    ensures u in m ==> FoldEphemeral(m, es)[u] == m[u]
  {
    if es != [] {
      var n, e := |es| - 1, es[|es| - 1];
      assert forall i, j :: 0 <= i < n ==> !Reads(es[..n][i], j, u);
      EphemeralNever(m, es[..n], u);
      if e.kind == "m.receipt" && e.content.Some? {
        NotInContent(es, n, u);
        ContentNever(FoldEphemeral(m, es[..n]), e.content.value, u);
      }
    }
  }

  lemma {:induction false} NotInContent(es: seq<EphemeralEvent>, i: nat, u: string)
    requires i < |es| && (forall j :: !Reads(es[i], j, u)) && es[i].kind == "m.receipt" && es[i].content.Some?
    ensures forall j :: 0 <= j < |es[i].content.value| ==> !InProperty(es[i].content.value[j], u)
  {
    forall j | 0 <= j < |es[i].content.value|
      ensures !InProperty(es[i].content.value[j], u)
    {
      assert !Reads(es[i], j, u);
    }
  }

  lemma {:induction false} EphemeralLast(m: map<string, Receipt>, es: seq<EphemeralEvent>, i: nat, j: nat, u: string)
    requires LastRead(es, i, j, u)
    ensures var p := es[i].content.value[j];
            u in FoldEphemeral(m, es) && FoldEphemeral(m, es)[u] == Receipt(p.1["m.read"][u], p.0)
  {
    var n, e := |es| - 1, es[|es| - 1];
    if i == n {
      forall j' | j < j' < |e.content.value|
        ensures !InProperty(e.content.value[j'], u)
      {
        assert !Reads(e, j', u);
      }
      ContentLast(FoldEphemeral(m, es[..n]), e.content.value, j, u);
    } else {
      assert es[..n][i] == es[i];
      assert forall i', j' :: i < i' < n ==> !Reads(es[..n][i'], j', u);
      EphemeralLast(m, es[..n], i, j, u);
      if e.kind == "m.receipt" && e.content.Some? {
        assert forall j' :: !Reads(es[n], j', u);
        NotInContent(es, n, u);
        ContentNever(FoldEphemeral(m, es[..n]), e.content.value, u);
      }
    }
  }

  lemma {:induction false} EphemeralHoldsLast(m: map<string, Receipt>, es: seq<EphemeralEvent>, u: string)
    ensures HoldsLastReceipt(FoldEphemeral(m, es), m, es, u)
  {
    forall i: nat, j: nat | LastRead(es, i, j, u)
      ensures var p := es[i].content.value[j];
              u in FoldEphemeral(m, es) && FoldEphemeral(m, es)[u] == Receipt(p.1["m.read"][u], p.0)
    {
      EphemeralLast(m, es, i, j, u);
    }
    if NeverRead(es, u) { EphemeralNever(m, es, u); }
  }

  /** Receipts clobber by user: a response leaves in the room the last receipt that it has of a user,
      and of every other user the old one. */
  lemma {:induction false} ReceiptIsLast(room: Room, d: JoinedRoom, max: nat, u: string)
    ensures HoldsLastReceipt(AccumulateJoin(room, d, max).receipts, room.receipts, d.ephemeral, u)
  {
    EphemeralHoldsLast(room.receipts, d.ephemeral, u);
  }

  /** There is a last receipt of every user who has one. */
  lemma {:induction false} LastReadExists(es: seq<EphemeralEvent>, u: string) returns (i: nat, j: nat)
    requires !NeverRead(es, u)
    ensures LastRead(es, i, j, u)
  {
    var n := |es| - 1;
    if k :| Reads(es[n], k, u) {
      i := n;
      j := LastIn(es[n], k, u);
    } else {
      var i0, j0 :| 0 <= i0 < |es| && Reads(es[i0], j0, u);
      assert Reads(es[..n][i0], j0, u);
      i, j := LastReadExists(es[..n], u);
      assert forall i', j' :: i < i' < n ==> !Reads(es[..n][i'], j', u);
      forall i', j' | i < i' < |es|
        ensures !Reads(es[i'], j', u)
      {
        if i' < n { assert !Reads(es[..n][i'], j', u); }
      }
    }
  }

  lemma {:induction false} LastIn(e: EphemeralEvent, k: nat, u: string) returns (j: nat)
    requires Reads(e, k, u)
    ensures Reads(e, j, u) && forall j' :: j < j' ==> !Reads(e, j', u)
    decreases |e.content.value| - k
  {
    if k' :| k < k' && Reads(e, k', u) {
      j := LastIn(e, k', u);
    } else {
      j := k;
    }
  }

  // ----- Account data

  /** m holds for each type the last event of that type, or else what before holds. */
  ghost predicate HoldsLastTyped(m: map<string, TypedEvent>, before: map<string, TypedEvent>, es: seq<TypedEvent>, k: string) {
    && (forall i :: 0 <= i < |es| && es[i].kind == k && (forall j :: i < j < |es| ==> es[j].kind != k) ==> k in m && m[k] == es[i])
    && ((forall i :: 0 <= i < |es| ==> es[i].kind != k) ==> (k in m <==> k in before) && (k in m ==> m[k] == before[k]))
  }

  lemma {:induction false} ClobberLast(m: map<string, TypedEvent>, es: seq<TypedEvent>, i: nat)
    requires i < |es| && forall j :: i < j < |es| ==> es[j].kind != es[i].kind
    ensures es[i].kind in Clobber(m, es) && Clobber(m, es)[es[i].kind] == es[i]
  {
    if i < |es| - 1 { ClobberLast(m, es[..|es| - 1], i); }
  }

  lemma {:induction false} ClobberNever(m: map<string, TypedEvent>, es: seq<TypedEvent>, k: string)
    requires forall i :: 0 <= i < |es| ==> es[i].kind != k
    ensures k in Clobber(m, es) <==> k in m
    ensures k in m ==> Clobber(m, es)[k] == m[k]
  {
    if es != [] { ClobberNever(m, es[..|es| - 1], k); }
  }

  lemma {:induction false} ClobberHoldsLast(m: map<string, TypedEvent>, es: seq<TypedEvent>, k: string)
    ensures HoldsLastTyped(Clobber(m, es), m, es, k)
  {
    forall i | 0 <= i < |es| && es[i].kind == k && forall j :: i < j < |es| ==> es[j].kind != k
      ensures k in Clobber(m, es) && Clobber(m, es)[k] == es[i]
    {
      ClobberLast(m, es, i);
    }
    if forall i :: 0 <= i < |es| ==> es[i].kind != k { ClobberNever(m, es, k); }
  }

  /** Account data clobbers by type, in a room and globally. */
  lemma {:induction false} AccountDataIsLast(room: Room, data: JoinedRoom, d: Data, resp: SyncResponse, max: nat, k: string)
    ensures HoldsLastTyped(AccumulateJoin(room, data, max).accountData, room.accountData, data.accountData, k)
    ensures HoldsLastTyped(Accumulated(d, resp, max).accountData, d.accountData, resp.accountData, k)
  {
    ClobberHoldsLast(room.accountData, data.accountData, k);
    ClobberHoldsLast(d.accountData, resp.accountData, k);
  }

  // ----- Notification counts and summary

  /** x is the last value given, or else what it was before. */
  ghost predicate HoldsLast<T>(x: T, before: T, given: seq<Option<T>>) {
    && (forall i :: 0 <= i < |given| && given[i].Some? && (forall j :: i < j < |given| ==> given[j].None?) ==> x == given[i].value)
    && ((forall i :: 0 <= i < |given| ==> given[i].None?) ==> x == before)
  }

  ghost function GivenBy<T>(ds: seq<JoinedRoom>, f: JoinedRoom -> Option<T>): seq<Option<T>> {
    seq(|ds|, i requires 0 <= i < |ds| => f(ds[i]))
  }

  lemma {:induction false} GivenNext<T>(x: T, x': T, before: T, ds: seq<JoinedRoom>, f: JoinedRoom -> Option<T>)
    requires ds != [] && HoldsLast(x, before, GivenBy(ds[..|ds| - 1], f))
    requires x' == if f(ds[|ds| - 1]).Some? then f(ds[|ds| - 1]).value else x
    ensures HoldsLast(x', before, GivenBy(ds, f))
  {
    var n, g, g' := |ds| - 1, GivenBy(ds[..|ds| - 1], f), GivenBy(ds, f);
    assert forall i :: 0 <= i < n ==> g'[i] == g[i];
    assert g'[n] == f(ds[n]);
  }

  function UnreadOf(d: JoinedRoom): Option<Json> {
    d.unread
  }

  function HeroesOf(d: JoinedRoom): Option<Option<Json>> {
    if d.summary.Some? && d.summary.value.heroes.Some? then Some(d.summary.value.heroes) else None
  }

  function JoinedCountOf(d: JoinedRoom): Option<nat> {
    if d.summary.Some? && d.summary.value.joinedCount != 0 then Some(d.summary.value.joinedCount) else None
  }

  function InvitedCountOf(d: JoinedRoom): Option<nat> {
    if d.summary.Some? && d.summary.value.invitedCount != 0 then Some(d.summary.value.invitedCount) else None
  }

  ghost predicate HoldsLastCounts(room: Room, ds: seq<JoinedRoom>) {
    && HoldsLast(room.unread, "{}", GivenBy(ds, UnreadOf))
    && HoldsLast(room.summary.heroes, None, GivenBy(ds, HeroesOf))
    && HoldsLast(room.summary.joinedCount, 0, GivenBy(ds, JoinedCountOf))
    && HoldsLast(room.summary.invitedCount, 0, GivenBy(ds, InvitedCountOf))
  }

  /** The unread counts, and each field of the summary on its own, are the last ones given. */
  lemma {:induction false} CountsAreLast(ds: seq<JoinedRoom>, max: nat)
    ensures HoldsLastCounts(SyncRoom.Run(ds, max).room, ds)
  {
    if ds != [] {
      CountsAreLast(ds[..|ds| - 1], max);
      CountsNext(SyncRoom.Run(ds[..|ds| - 1], max).room, ds, max);
    }
  }

  lemma {:induction false} CountsNext(room: Room, ds: seq<JoinedRoom>, max: nat)
    requires ds != [] && HoldsLastCounts(room, ds[..|ds| - 1])
    ensures HoldsLastCounts(AccumulateJoin(room, ds[|ds| - 1], max), ds)
  {
    var room' := AccumulateJoin(room, ds[|ds| - 1], max);
    GivenNext(room.unread, room'.unread, "{}", ds, UnreadOf);
    GivenNext(room.summary.heroes, room'.summary.heroes, None, ds, HeroesOf);
    GivenNext(room.summary.joinedCount, room'.summary.joinedCount, 0, ds, JoinedCountOf);
    GivenNext(room.summary.invitedCount, room'.summary.invitedCount, 0, ds, InvitedCountOf);
  }

  // ----- Rooms over whole runs

  lemma {:induction false} EphemeralConcat(m: map<string, Receipt>, a: seq<EphemeralEvent>, b: seq<EphemeralEvent>)
    ensures FoldEphemeral(m, a + b) == FoldEphemeral(FoldEphemeral(m, a), b)
  {
    if b == [] {
      assert a + b == a;
    } else {
      assert (a + b)[..|a + b| - 1] == a + b[..|b| - 1];
      EphemeralConcat(m, a, b[..|b| - 1]);
    }
  }

  lemma {:induction false} ClobberConcat(m: map<string, TypedEvent>, a: seq<TypedEvent>, b: seq<TypedEvent>)
    ensures Clobber(m, a + b) == Clobber(Clobber(m, a), b)
  {
    if b == [] {
      assert a + b == a;
    } else {
      assert (a + b)[..|a + b| - 1] == a + b[..|b| - 1];
      ClobberConcat(m, a, b[..|b| - 1]);
    }
  }

  lemma {:induction false} RoomRunFolds(ds: seq<JoinedRoom>, max: nat)
    ensures var room := SyncRoom.Run(ds, max).room;
            && room.currentState == Replay(map[], AllState(ds))
            && room.receipts == FoldEphemeral(map[], AllEphemeral(ds))
            && room.accountData == Clobber(map[], AllAccountData(ds))
  {
    if ds != [] {
      var front, d := ds[..|ds| - 1], ds[|ds| - 1];
      RoomRunFolds(front, max);
      ReplayConcat(map[], AllState(front), d.state + d.timeline);
      ReplayConcat(Replay(map[], AllState(front)), d.state, d.timeline);
      EphemeralConcat(map[], AllEphemeral(front), d.ephemeral);
      ClobberConcat(map[], AllAccountData(front), d.accountData);
    }
  }

  /** What a room of an accumulator holds, after any run whatever: of all that it has received since it
      was last joined, the last state event of each key, the last receipt of each user, the last
      account data of each type, and the last counts. */
  lemma {:induction false} RoomHoldsLast(rs: seq<SyncResponse>, max: nat, r: string, k: StateKey, u: string, t: string)
    ensures var room, ds := RoomOf(SyncRuns.Run(EMPTY_DATA, rs, max).joinRooms, r), SyncRuns.SinceJoin(rs, max, r);
            && HoldsLastState(room.currentState, map[], AllState(ds), k)
            && HoldsLastReceipt(room.receipts, map[], AllEphemeral(ds), u)
            && HoldsLastTyped(room.accountData, map[], AllAccountData(ds), t)
            && HoldsLastCounts(room, ds)
  {
    var ds := SyncRuns.SinceJoin(rs, max, r);
    SyncRuns.RoomIsItsOwnRun(rs, max, r);
    RoomRunFolds(ds, max);
    ReplayHoldsLast(map[], AllState(ds), k);
    EphemeralHoldsLast(map[], AllEphemeral(ds), u);
    ClobberHoldsLast(map[], AllAccountData(ds), t);
    CountsAreLast(ds, max);
  }

  lemma {:induction false} GlobalFolds(rs: seq<SyncResponse>, max: nat)
    ensures SyncRuns.Run(EMPTY_DATA, rs, max).accountData == Clobber(map[], AllGlobalData(rs))
  {
    if rs != [] {
      GlobalFolds(rs[..|rs| - 1], max);
      ClobberConcat(map[], AllGlobalData(rs[..|rs| - 1]), rs[|rs| - 1].accountData);
    }
  }

  /** The same for global account data, and the token of the last response. */
  lemma {:induction false} DataHoldsLast(rs: seq<SyncResponse>, max: nat, t: string)
    ensures HoldsLastTyped(SyncRuns.Run(EMPTY_DATA, rs, max).accountData, map[], AllGlobalData(rs), t)
    ensures SyncRuns.Run(EMPTY_DATA, rs, max).nextBatch == if rs == [] then "" else rs[|rs| - 1].nextBatch
  {
    GlobalFolds(rs, max);
    ClobberHoldsLast(map[], AllGlobalData(rs), t);
  }

  // ----- Invites and groups

  /** One more event of an invite takes the places of those with its key, or else the place at the end. */
  lemma {:induction false} InvitePlaces(es: seq<Stripped>, e: Stripped)
    ensures var r := ClobberInvite(es, e);
            && |r| >= |es|
            && (forall i :: 0 <= i < |es| ==> r[i] == if es[i].kind == e.kind && es[i].stateKey == e.stateKey then e else es[i])
            && (if exists i :: 0 <= i < |es| && es[i].kind == e.kind && es[i].stateKey == e.stateKey then |r| == |es|
                else |r| == |es| + 1 && r[|es|] == e)
  {
    assert forall i :: 0 <= i < |es| ==> (SameKey(es[i], e) <==> es[i].kind == e.kind && es[i].stateKey == e.stateKey);
  }

  /** Which invites there are after a response, and what they read as. A join or a leave takes an
      invite back; of an invite given anew the events are kept as they are. */
  lemma {:induction false} InviteAfter(d: Data, resp: SyncResponse, max: nat, r: string)
    ensures var d' := Accumulated(d, resp, max);
            var given := r in resp.invite && resp.invite[r].Some?;
            && (r in d'.inviteRooms <==> (r in d.inviteRooms || given) && r !in resp.join && r !in resp.leave)
            && (r in d'.inviteRooms && !given ==> d'.inviteRooms[r] == d.inviteRooms[r])
            && (r in d'.inviteRooms && given && r !in d.inviteRooms ==> d'.inviteRooms[r] == resp.invite[r].value)
            && (r in d'.inviteRooms && given && r in d.inviteRooms ==>
                  SyncRuns.InviteMap(d'.inviteRooms[r]) == SyncRuns.InviteMap(d.inviteRooms[r]) + SyncRuns.InviteMap(resp.invite[r].value))
  {
    if r in resp.invite && resp.invite[r].Some? && r in d.inviteRooms {
      SyncRuns.MergedInviteReads(d.inviteRooms[r], resp.invite[r].value);
    }
  }

  /** Where a group is after a response: in the last section that mentions it, with the data given
      there, and nowhere else; a group that is not mentioned stays as it is. */
  lemma {:induction false} GroupAfter(d: Data, resp: SyncResponse, max: nat, id: string)
    ensures var g, g', c := d.groups, Accumulated(d, resp, max).groups, resp.groups;
            if id in c.leave then id !in g'.invite && id !in g'.join && id in g'.leave && g'.leave[id] == c.leave[id]
            else if id in c.join then id !in g'.invite && id !in g'.leave && id in g'.join && g'.join[id] == c.join[id]
            else if id in c.invite then id !in g'.join && id !in g'.leave && id in g'.invite && g'.invite[id] == c.invite[id]
            else
              && SameAt(g.invite, g'.invite, id) && SameAt(g.join, g'.join, id) && SameAt(g.leave, g'.leave, id)
  {
  }

  ghost predicate SameAt(a: map<string, Json>, b: map<string, Json>, id: string) {
    (id in a <==> id in b) && (id in a ==> a[id] == b[id])
  }
}
