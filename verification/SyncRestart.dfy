/** Saving one room and loading it again (src/sync-accumulator.ts:434-445, 491-504, 554-699): the
    reloaded room cannot be told apart from the original by getJSON, and stays in step with it. */
module SyncRestart {
  import opened Common
  import opened SyncRoom

  /** What a fresh accumulator holds for a room after reading an emitted one. */
  function Load(j: JoinedRoom, max: nat): Room {
    AccumulateJoin(EMPTY_ROOM, j, max)
  }

  // ----- Folding the key-ordered arrays back

  lemma {:induction false} TypedListFolds(es: seq<TypedEvent>, n: nat, m: map<string, TypedEvent>)
    requires n <= |es|
    requires forall i :: 0 <= i < |es| ==> es[i].kind in m && m[es[i].kind] == es[i]
    ensures forall k :: k in Clobber(map[], es[..n]) ==> k in m && Clobber(map[], es[..n])[k] == m[k]
    ensures forall i :: 0 <= i < n ==> es[i].kind in Clobber(map[], es[..n])
  {
    if n > 0 {
      TypedListFolds(es, n - 1, m);
      assert es[..n][..n - 1] == es[..n - 1];
    }
  }

  lemma {:induction false} TypedListingFolds(es: seq<TypedEvent>, m: map<string, TypedEvent>)
    requires TypedKeyed(m) && ListsTyped(es, m)
    ensures Clobber(map[], es) == m
  {
    TypedListFolds(es, |es|, m);
    assert es[..|es|] == es;
    forall k | k in m
      ensures k in Clobber(map[], es)
    {
      assert m[k] in es;
      var i :| 0 <= i < |es| && es[i] == m[k];
      assert es[i].kind == k;
    }
  }

  lemma {:induction false} ReceiptsFold(content: ReceiptContent, n: nat, receipts: map<string, Receipt>)
    requires n <= |content|
    requires forall i :: 0 <= i < |content| ==> IsGroup(content[i], receipts)
    ensures forall u :: u in FoldContent(map[], content[..n]) ==> u in receipts && FoldContent(map[], content[..n])[u] == receipts[u]
  {
    if n > 0 {
      ReceiptsFold(content, n - 1, receipts);
      LastFold(content, n);
      ReadersFold(FoldContent(map[], content[..n - 1]), content[n - 1].0, content[n - 1].1[READ], receipts);
    }
  }

  lemma {:induction false} LastFold(content: ReceiptContent, n: nat)
    requires 0 < n <= |content| && READ in content[n - 1].1
    ensures FoldContent(map[], content[..n]) == FoldReaders(FoldContent(map[], content[..n - 1]), content[n - 1].0, content[n - 1].1[READ])
  {
    assert content[..n][..n - 1] == content[..n - 1];
  }

  lemma {:induction false} ReadersStay(content: ReceiptContent, n: nat, i: nat, u: string)
    requires i < n <= |content|
    requires READ in content[i].1 && u in content[i].1[READ]
    ensures u in FoldContent(map[], content[..n])
  {
    assert content[..n][..n - 1] == content[..n - 1];
    if i < n - 1 { ReadersStay(content, n - 1, i, u); }
  }

  lemma {:induction false} ReadersFold(before: map<string, Receipt>, eventId: string, readers: Readers, receipts: map<string, Receipt>)
    requires forall u :: u in before ==> u in receipts && before[u] == receipts[u]
    requires forall u :: u in readers ==> u in receipts && receipts[u] == Receipt(readers[u], eventId)
    ensures var after := FoldReaders(before, eventId, readers);
            (forall u :: u in after ==> u in receipts && after[u] == receipts[u])
  {
  }

  /** Receipts inflated to event -> m.read -> user fold back to one receipt per user. */
  lemma {:induction false} ReceiptsFoldBack(content: ReceiptContent, receipts: map<string, Receipt>)
    requires GroupsReceipts(content, receipts)
    ensures FoldContent(map[], content) == receipts
  {
    FoldedAreReceipts(content, receipts);
    ReceiptsAreFolded(content, receipts);
    SameMap(FoldContent(map[], content), receipts);
  }

  lemma {:induction false} SameMap(a: map<string, Receipt>, b: map<string, Receipt>)
    requires forall u :: u in a ==> u in b && a[u] == b[u]
    requires forall u :: u in b ==> u in a
    ensures a == b
  {
  }

  lemma {:induction false} ReceiptsAreFolded(content: ReceiptContent, receipts: map<string, Receipt>)
    requires forall u :: u in receipts ==> Mentions(content, u)
    ensures forall u :: u in receipts ==> u in FoldContent(map[], content)
  {
    forall u | u in receipts
      ensures u in FoldContent(map[], content)
    {
      MentionedFolds(content, u);
    }
  }

  lemma {:induction false} FoldedAreReceipts(content: ReceiptContent, receipts: map<string, Receipt>)
    requires forall i :: 0 <= i < |content| ==> IsGroup(content[i], receipts)
    ensures forall u :: u in FoldContent(map[], content) ==> u in receipts && FoldContent(map[], content)[u] == receipts[u]
  {
    ReceiptsFold(content, |content|, receipts);
    assert content[..|content|] == content;
  }

  lemma {:induction false} MentionedFolds(content: ReceiptContent, u: string)
    requires Mentions(content, u)
    ensures u in FoldContent(map[], content)
  {
    var i :| 0 <= i < |content| && READ in content[i].1 && u in content[i].1[READ];
    ReadersStay(content, |content|, i, u);
    assert content[..|content|] == content;
  }

  lemma {:induction false} ReceiptListFoldsBack(es: seq<EphemeralEvent>, receipts: map<string, Receipt>)
    requires ListsReceipts(es, receipts)
    ensures FoldEphemeral(map[], es) == receipts
  {
    if receipts != map[] {
      ReceiptsFoldBack(es[0].content.value, receipts);
      assert es[..|es| - 1] == [];
    }
  }

  // ----- Save and load

  /** Only the first entry of a reloaded timeline has a token. */
  lemma {:induction false} LoadedTimeline(t: seq<Entry>, max: nat)
    requires Aligned(t) && |t| <= max
    ensures var loaded := Prune([] + Batch(Events(t), Token(t)), max);
            && loaded == Batch(Events(t), Token(t))
            && Events(loaded) == Events(t) && Token(loaded) == Token(t) && Aligned(loaded)
  {
    var b := Batch(Events(t), Token(t));
    assert [] + b == b;
  }

  /** Loading what was saved gives the same room but for the inner tokens of the timeline. */
  lemma {:induction false} LoadedRoom(room: Room, j: JoinedRoom, max: nat)
    requires RoomInv(room, max) && IsJson(room, j)
    ensures Load(j, max) == room.(timeline := Batch(Events(room.timeline), Token(room.timeline)))
  {
    ReplayIsCurrent(room, j);
    LoadedFields(room, j);
    EmittedOfAligned(room.timeline);
    LoadedTimeline(room.timeline, max);
  }

  lemma {:induction false} LoadedFields(room: Room, j: JoinedRoom)
    requires TypedKeyed(room.accountData) && IsJson(room, j)
    ensures Clobber(map[], j.accountData) == room.accountData
    ensures FoldEphemeral(map[], j.ephemeral) == room.receipts
    ensures j.unread == Some(room.unread)
    ensures j.summary.Some? && MergeSummary(EMPTY_ROOM.summary, j.summary.value) == room.summary
  {
    TypedListingFolds(j.accountData, room.accountData);
    ReceiptListFoldsBack(j.ephemeral, room.receipts);
  }

  /** The fixpoint: a reloaded room is allowed to emit exactly what the original is. */
  lemma {:induction false} LoadedRoomEmitsTheSame(room: Room, j: JoinedRoom, j': JoinedRoom, max: nat)
    requires RoomInv(room, max) && IsJson(room, j)
    ensures IsJson(Load(j, max), j') <==> IsJson(room, j')
  {
    LoadedRoom(room, j, max);
    SavedTimelineEmits(room.timeline);
    SameEmission(room, Batch(Events(room.timeline), Token(room.timeline)), j');
  }

  lemma {:induction false} SavedTimelineEmits(t: seq<Entry>)
    requires Aligned(t)
    ensures var saved := Batch(Events(t), Token(t));
            Events(Emitted(saved)) == Events(Emitted(t)) && Token(Emitted(saved)) == Token(Emitted(t))
  {
    BatchEvents(Events(t), Token(t));
    SameEmissionOfAligned(t, Batch(Events(t), Token(t)));
  }

  lemma {:induction false} BatchEvents(es: seq<Event>, prevBatch: string)
    ensures Events(Batch(es, prevBatch)) == es
    ensures Token(Batch(es, prevBatch)) == if es == [] then "" else prevBatch
  {
  }

  lemma {:induction false} SameEmissionOfAligned(a: seq<Entry>, b: seq<Entry>)
    requires Aligned(a) && Events(b) == Events(a) && Token(b) == Token(a)
    ensures Events(Emitted(b)) == Events(Emitted(a)) && Token(Emitted(b)) == Token(Emitted(a))
  {
    assert |a| == |Events(a)| && |b| == |Events(b)|;
    EmittedOfAligned(a);
    EmittedOfAligned(b);
  }

  lemma {:induction false} SameEmission(room: Room, t: seq<Entry>, j: JoinedRoom)
    requires Events(Emitted(t)) == Events(Emitted(room.timeline)) && Token(Emitted(t)) == Token(Emitted(room.timeline))
    ensures IsJson(room.(timeline := t), j) <==> IsJson(room, j)
  {
  }

  // ----- In step ever after

  /** b is a suffix of a that has lost some of its tokens. */
  ghost predicate TimelineSim(a: seq<Entry>, b: seq<Entry>) {
    && |b| <= |a| && Aligned(b)
    && (forall i :: 0 <= i < |b| ==>
                      var e := a[|a| - |b| + i];
                      b[i].event == e.event && (b[i].token == "" || b[i].token == e.token))
  }

  ghost predicate RoomSim(a: Room, b: Room) {
    b == a.(timeline := b.timeline) && TimelineSim(a.timeline, b.timeline)
  }

  lemma {:induction false} TimelineSimSuffix(a: seq<Entry>, b: seq<Entry>)
    requires TimelineSim(a, b)
    ensures Events(b) == Events(a[|a| - |b|..])
  {
    var c := a[|a| - |b|..];
    assert forall i :: 0 <= i < |b| ==> Events(b)[i] == Events(c)[i];
  }

  /** Losing tokens can only make pruning cut later. */
  lemma {:induction false} TimelineSimStep(a: seq<Entry>, b: seq<Entry>, batch: seq<Entry>, max: nat)
    requires TimelineSim(a, b) && Aligned(a) && |a| <= max && Aligned(batch) && |batch| <= max
    ensures TimelineSim(Prune(a + batch, max), Prune(b + batch, max))
  {
    var ca := PruneKeepsBatch(a, batch, max);
    var cb := PruneKeepsBatch(b, batch, max);
    var a', b' := a[ca..] + batch, b[cb..] + batch;
    CutsLater(a, b, batch, max);
    assert |b'| <= |a'|;
    forall i | 0 <= i < |b'|
      ensures var e := a'[|a'| - |b'| + i]; b'[i].event == e.event && (b'[i].token == "" || b'[i].token == e.token)
    {
      if i < |b[cb..]| {
        assert b'[i] == b[cb + i];
        assert a'[|a'| - |b'| + i] == a[|a| - |b| + (cb + i)];
      }
    }
  }

  lemma {:induction false} CutsLater(a: seq<Entry>, b: seq<Entry>, batch: seq<Entry>, max: nat)
    requires TimelineSim(a, b) && Aligned(a) && |a| <= max && Aligned(batch) && |batch| <= max
    ensures |Prune(b + batch, max)| <= |Prune(a + batch, max)|
  {
    var ta, tb := a + batch, b + batch;
    var cb := if |tb| <= max then 0 else FirstToken(tb, |tb| - max);
    if |ta| > max && |tb| > 0 {
      var p := |ta| - |tb| + cb;
      if |tb| > max { assert tb[|b|] == batch[0]; }
      assert tb[cb].token != "";
      if cb < |b| {
        assert ta[p] == a[|a| - |b| + cb];
      } else {
        assert ta[p] == tb[cb];
      }
      assert FirstToken(ta, |ta| - max) <= p;
    }
  }

  lemma {:induction false} SimKeepsInv(a: Room, b: Room, max: nat)
    requires RoomInv(a, max) && RoomSim(a, b)
    ensures RoomInv(b, max)
  {
    TimelineSimSuffix(a.timeline, b.timeline);
    SuffixLatest(a.timeline, |a.timeline| - |b.timeline|, a.currentState);
  }

  lemma {:induction false} LoadedRoomSims(room: Room, j: JoinedRoom, max: nat)
    requires RoomInv(room, max) && IsJson(room, j)
    ensures RoomSim(room, Load(j, max))
  {
    LoadedRoom(room, j, max);
    OwnBatchSims(room.timeline);
  }

  lemma {:induction false} OwnBatchSims(t: seq<Entry>)
    requires Aligned(t)
    ensures TimelineSim(t, Batch(Events(t), Token(t)))
  {
    var b := Batch(Events(t), Token(t));
    assert forall i :: 0 <= i < |b| ==> Events(b)[i] == b[i].event;
  }

  /** A room and its reloaded copy stay in step through any further response. */
  lemma {:induction false} RoomSimStep(a: Room, b: Room, d: JoinedRoom, max: nat)
    requires RoomInv(a, max) && RoomSim(a, b) && GoodBatch(d, max)
    ensures RoomSim(AccumulateJoin(a, d, max), AccumulateJoin(b, d, max))
  {
    var batch := Batch(d.timeline, d.prevBatch);
    if d.limited {
      TimelineSimStep([], [], batch, max);
    } else {
      TimelineSimStep(a.timeline, b.timeline, batch, max);
    }
  }
}
