# Verified models of six client SDK components

This Dafny project models the six parts of the SDK that hold state or arithmetic with invariants
worth proving, and proves what their documentation promises of them. The classes, methods and loops
follow the source where the source updates state in place; each of their contracts equates the new
state with a specification function, and the lemmas are about those functions: what they promise over whole
runs, and what they compute, stated by position, by key or by number and without them.

| files | models |
|---|---|
| `SyncRoom.dfy`, `SyncRestart.dfy`, `SyncAccumulator.dfy`, `SyncRuns.dfy`, `SyncContents.dfy` | the sync accumulator: folding /sync responses (section 9.4 of the Matrix Client-Server API r0.6.1) into compact data, and emitting them as one initial sync |
| `StringAveraging.dfy` | bijective base-N numerals over a contiguous alphabet, and a string between two others |
| `TimelineWindow.dfy`, `TimelineRuns.dfy` | a bounded window over a chain of timelines |
| `Scheduler.dfy`, `SchedulerRuns.dfy`, `SchedulerRetries.dfy`, `SchedulerDrain.dfy` | FIFO queues of events to send, with retries |
| `RealtimeCallbacks.dfy` | a timer queue with one re-armed real timer |
| `CrossSigning.dfy`, `CrossSigningKeys.dfy` | a user's cross-signing keys and the trust their signatures carry |

`dafny verify dfyconfig.toml` checks everything.

## How the program is read

Sync accumulator. Rooms are values in a map from room id to room. The two-level state map is one map
keyed by (type, state key). A token is a string, and `""` stands for every falsy token. A missing
optional section is an empty one, where the source treats both alike. Wherever getJSON fills an array
by visiting the keys of an object, the model allows every order, and each theorem holds for all of
them. In a receipt event the order of the event ids is kept, because later ones clobber earlier ones.
What the server is assumed to do is stated as predicates: a batch fits into the timeline and a
non-empty one has a back-pagination token (`GoodBatch`); the `state` section does not change a key
that a retained timeline event has set (`KeepsState`); memberships follow the diagram in
`accumulateRoom` (`FollowsDiagram`); `prev_content` and `prev_sender` are truthful (`EachDescribes`).
What goes wrong without them, and exactly when, is proved as well. `FaithfulIff` and `MembershipIff`
show that the second and the third hold exactly when the property they protect does; the exact
condition for rolling back is in `RollBackIff`. The documented bound, that there are never more than
the maximum number of entries (`src/sync-accumulator.ts:208-213`), holds exactly under the condition
in `SizeBoundIff`, which needs no assumption; for a batch with a token, that is that the batch fits
(`SizeBoundOfBatchIff`), and a batch without one can break it (`TokenlessBatchOverflows`).

String averaging. A string is a sequence of UTF-16 code units, since the code works with
`charCodeAt`. BigInt arithmetic is exact, so `int` is exact too.

Timeline window. An index is a timeline and an offset relative to its base index. Ghost fields `at`
and `pos` say which timeline of the chain it is and which position in the flattened list of events.
`Window.View` is the slice between the two positions. No event id (`None`) stands for any falsy id.

Scheduler. Promises and timers are continuations in `pending`, any of which may complete next. A
deferred is the number of its queue entry. `queueNames` lists the queues in the order in which they
were created.

Realtime callbacks. The clock is a parameter of each step and may jump either way. The callbacks that
`runCallbacks` has taken are called in steps of their own, between which the functions called may
set and clear timers. The source's comment says that `binarySearch` finds the *last* element for
which the function is positive; the code finds the *first*, and so does the model.

Cross-signing. `Crypto` is a parameter: any signing, verifying and public-key functions whatever, of
which `Sound` only asks that what a key signs verifies under its public half. Each asynchronous method
is one step; what the cache and the application callback answer is a parameter (`Source`). Seeds are
parameters as well. Nothing verifies under a missing public key.

## Properties that fail, and exactly when

Each exact condition is stated on the input, and comes with an input on which the property fails.

- A `state` section may rename a room over a name that is still in the retained timeline. What is
  emitted afterwards replays to the old name (`SyncRoom.RenamingStateIsLost`); `SyncRoom.FaithfulIff`
  gives the exact condition.
- A timeline can grow past its maximum (`SyncRoom.SizeBoundIff`): a full one does when a batch without
  a token arrives (`SyncRoom.TokenlessBatchOverflows`).
- An invite to a joined room leaves the room both invited and joined
  (`SyncRuns.InviteToJoinedRoomStaysInBoth`), unless the same response moves it on
  (`SyncRuns.MembershipIff`).
- The average of `a < b` is not between them exactly when `b` is `a` followed only by padding
  characters (`StringAveraging.AverageStrictlyBetweenIff`), as for "a" and "aa" over the letters a and
  b (`StringAveraging.PaddedPairHasNothingBetween`).
- `nextString` is later in JavaScript's order, not just in shortlex order, exactly when the string has
  a character other than the alphabet's last one, or is empty, or there is only one letter
  (`StringAveraging.NextIsLaterIff`). Averaging the neighbours of a string gives it back exactly when
  it has a character other than the first and one other than the last
  (`StringAveraging.AverageOfNeighboursIff`). Both fail on "b" (`StringAveraging.LastLetterRollsOver`).
- Removing the event whose request is in flight breaks the scheduler's invariant, and nothing else
  does (`SchedulerRuns.RemoveKeepsInvIff`); the event behind it is then lost
  (`SchedulerRuns.RemovalInFlightLosesNext`), which two queued messages are enough for
  (`SchedulerRuns.SecondMessageIsLost`). The caller at `src/client.ts:3357-3371` guards against it.
- An unbroken path of signatures from one's own master key does not always make a device verified: not
  when it leads over another self-signing key than the one held oneself, and not over one's
  user-signing key (`CrossSigning.DeviceIsVerifiedIff`,
  `CrossSigning.OtherSelfSigningKeyIsNotTrusted`).
- A `setKeys` that throws leaves the keys alone, but may have changed `firstUse`, which is assigned
  before the signatures are checked (`CrossSigning.FirstUseIsNotRolledBack`,
  `CrossSigning.FailedSetKeysIsInertIff`).

## Model

| member | source | states |
|---|---|---|
| `SyncRoom.EmittedRoomIsFaithful` | src/sync-accumulator.ts:336-505 | Main result for one room: after any run of good responses, whatever is emitted replays to the current state, shows the content and sender of every key at the start of the timeline, and its timeline is the longest suffix since the last gap that fits and begins at a token, with that token |
| `SyncRoom.ReplayIsCurrent` | src/sync-accumulator.ts:616-683 | In every faithful room, applying the emitted state and then the emitted timeline gives exactly `_currentState`, whatever the tokens and sizes |
| `SyncRoom.KeptIsSuffix` | src/sync-accumulator.ts:451-504 | Any response keeps a suffix of the stored timeline and appends its whole batch |
| `SyncRoom.ReplayIsCurrentIff` | src/sync-accumulator.ts:616-683 | For any room at all, that is so exactly when the current state holds the last timeline event of every key the timeline sets |
| `SyncRoom.FaithfulIff` | src/sync-accumulator.ts:451-504 | Whatever the batch, its size and its tokens: a response keeps the room faithful exactly when its `state` section leaves alone what the surviving timeline has set |
| `SyncRoom.RenamingStateIsLost` | src/sync-accumulator.ts:459-463 | The concrete input on which it fails: a rename in the `state` section over a name in the retained timeline replays to the old name |
| `SyncRoom.SizeBoundIff` | src/sync-accumulator.ts:489-504 | For every room, response and maximum: the timeline stays within `maxTimelineEntries` exactly when the stored timeline and the batch fit together, or some entry has a token from which on the rest fits |
| `SyncRoom.SizeBoundOfBatchIff` | src/sync-accumulator.ts:208-213 | For a stored timeline within the bound and a batch that has a token or is empty: exactly when the batch itself is within the bound |
| `SyncRoom.TokenlessBatchOverflows` | src/sync-accumulator.ts:489-504 | The concrete input without a token: 50 entries and one more event give 51 at a maximum of 50 |
| `SyncRoom.JoinKeepsInv` | src/sync-accumulator.ts:336-505 | Every good response keeps the room's invariant (filed by key, aligned to a token, bounded, faithful) |
| `SyncRoom.PruneIsBestSuffix` | src/sync-accumulator.ts:489-504 | Pruning the stored timeline keeps the longest token-aligned suffix that fits of everything received since the last gap, dropped entries included |
| `SyncRoom.RollBackIff` | src/sync-accumulator.ts:650-683 | Reverse clobbering recovers content and sender of every key set at the start exactly when the first timeline event of each such key describes what it replaced; keys the timeline does not touch are emitted unchanged |
| `SyncRoom.RollBackIsEarliest` | src/sync-accumulator.ts:653-673 | Walking the timeline backwards ends with the earliest event of each key, turned into what it replaced |
| `SyncRoom.RolledBackEvent` | src/sync-accumulator.ts:660-682 | For a key that the timeline sets, the first such event is emitted with its prev_content and prev_sender in place of its own content and sender, where it has them, and all else its own |
| `SyncRoom.EachGivesFirsts` | src/sync-accumulator.ts:660-671 | If each state event's prev_content and prev_sender describe the state just before it, the first of each key describes the start |
| `SyncRoom.LedgerKeepsInv` | src/sync-accumulator.ts:364-370 | One truthful response keeps the link between the start of the timeline, its events, the current state and all events since the last gap |
| `SyncRoom.RunKeepsInv` | src/sync-accumulator.ts:336-505 | So does every run |
| `SyncRestart.ReceiptsFoldBack` | src/sync-accumulator.ts:424-445 | Receipts inflated to event, `m.read`, user fold back to exactly one receipt per user |
| `SyncRestart.LoadedRoom` | src/sync-accumulator.ts:574-684 | Loading what was saved gives the same room, but for the inner tokens of its timeline |
| `SyncRestart.LoadedRoomEmitsTheSame` | src/sync-accumulator.ts:574-684 | A reloaded room may emit exactly what the original may |
| `SyncRestart.TimelineSimStep` | src/sync-accumulator.ts:491-504 | A timeline that has lost tokens stays, after any batch and pruning, a suffix of the one that has not, with a subset of its tokens |
| `SyncRestart.RoomSimStep` | src/sync-accumulator.ts:336-505 | The same for whole rooms: everything but the timeline stays equal |
| `SyncRuns.RestartIsInvisible` | src/sync-accumulator.ts:554-699 | Main result: save after any good run, reload, and feed both accumulators any further good responses; both emit the same rooms with the same replayed state, the reloaded timelines being suffixes of the originals |
| `SyncRuns.ReloadIsFixpoint` | src/sync-accumulator.ts:554-699 | Saving what was reloaded gives what was saved, receipts included |
| `SyncRuns.ReloadedData` | src/sync-accumulator.ts:219-224 | A reload restores everything but the inner tokens of the timelines |
| `SyncRuns.EmittedDataIsFaithful` | src/sync-accumulator.ts:554-699 | Main result for whole runs of good responses from nothing: every emitted room, however often left and joined again, replays to its current state; its timeline and token are those of the longest token-aligned suffix that fits of all it has received since the last gap or join; and if the server was truthful, its state shows the start of that timeline |
| `SyncRuns.EmittedDataReplays` | src/sync-accumulator.ts:554-699 | Over every run in which no `state` section changes what a retained timeline has set, every emitted room replays to its current state, whatever the batches, tokens and memberships |
| `SyncRuns.RoomIsItsOwnRun` | src/sync-accumulator.ts:265-304 | In any run at all, a room of the accumulator is what the join sections for it since it was last joined make of an empty room, and it is there exactly when there are any |
| `SyncRuns.RoomAfter` | src/sync-accumulator.ts:241-304 | Room by room: gone if the response has it left and no invite is taken back instead, updated if it is joined, and otherwise as before |
| `SyncContents.RoomHoldsLast` | src/sync-accumulator.ts:336-505 | Main result: after any run whatever, a room holds, of all it has received since it was last joined, the last state event of each key, the last receipt of each user, the last account data of each type, and the last counts, by position in what was received |
| `SyncContents.StateIsLast` | src/sync-accumulator.ts:455-467 | A response leaves for each key the last of its state and timeline events that sets it, and for every other key what was there |
| `SyncContents.ReceiptIsLast` | src/sync-accumulator.ts:409-447 | Receipts clobber by user: a response leaves the data and event of a user's last read receipt in it, and every other user's old one |
| `SyncContents.LastReadExists` | src/sync-accumulator.ts:434-445 | There is such a last receipt for every user who has one |
| `SyncContents.AccountDataIsLast` | src/sync-accumulator.ts:226-234 | Account data clobbers by type, in a room and globally |
| `SyncContents.CountsAreLast` | src/sync-accumulator.ts:393-407 | The unread counts, and each field of the summary on its own, are the last ones given, a missing or zero count not counting |
| `SyncContents.DataHoldsLast` | src/sync-accumulator.ts:219-234 | After any run, global account data is the last of each type, and the token is the last response's |
| `SyncContents.InviteAfter` | src/sync-accumulator.ts:278-333 | Which invites there are after a response, by room, and what they read as; a join or a leave takes an invite back |
| `SyncContents.InvitePlaces` | src/sync-accumulator.ts:320-332 | An invite event takes the places of those with its key, or else the place at the end; the others keep theirs |
| `SyncContents.GroupAfter` | src/sync-accumulator.ts:511-537 | A group is in the last section that mentions it, with its data, and nowhere else; a group not mentioned stays |
| `SyncRuns.AccumulateKeepsInv` | src/sync-accumulator.ts:219-304 | Every good response keeps the invariant of the whole accumulator |
| `SyncRuns.RunKeepsInv` | src/sync-accumulator.ts:219-304 | So does every run |
| `SyncRuns.SimRun` | src/sync-accumulator.ts:219-304 | Two accumulators that differ only in lost timeline tokens stay so through any good run |
| `SyncRuns.MembershipIff` | src/sync-accumulator.ts:265-304 | No room is both invited and joined after a response exactly when the response follows the transition diagram |
| `SyncRuns.InviteToJoinedRoomStaysInBoth` | src/sync-accumulator.ts:277-280 | The concrete input that does not follow it |
| `SyncRuns.GroupsStayDisjoint` | src/sync-accumulator.ts:511-537 | A group is never in two categories |
| `SyncRuns.MergedInviteReads` | src/sync-accumulator.ts:316-332 | Merging invite state reads, per type and state key, as the old events followed by the new ones |
| `SyncAccumulator.Accumulator.constructor` | src/sync-accumulator.ts:215-217 | Starts empty; a maximum of 0 falls back to 50 |
| `SyncAccumulator.Accumulator.Accumulate` | src/sync-accumulator.ts:219-224 | The whole new state after a response, section by section |
| `SyncAccumulator.Accumulator.AccumulateRooms` | src/sync-accumulator.ts:241-260 | Invites, then joins, then leaves, whatever order the rooms of each are visited in |
| `SyncAccumulator.Accumulator.AccumulateInvites` | src/sync-accumulator.ts:245-249 | Each invited room is updated from its own old state, the rest are untouched |
| `SyncAccumulator.Accumulator.AccumulateJoins` | src/sync-accumulator.ts:250-254 | Joined rooms lose their invites, each is updated from its own old state, and no other room changes |
| `SyncAccumulator.Accumulator.AccumulateJoinedRoom` | src/sync-accumulator.ts:282-291 | Joining drops the invite and accumulates into the room, a new one if need be |
| `SyncAccumulator.Accumulator.AccumulateLeaves` | src/sync-accumulator.ts:255-299 | Leaving takes back an invite or else removes the joined room |
| `SyncAccumulator.Accumulator.AccumulateInviteState` | src/sync-accumulator.ts:306-333 | New invite state is stored as it is, or merged by type and state key; without events nothing changes |
| `SyncAccumulator.Accumulator.AccumulateGroups` | src/sync-accumulator.ts:511-530 | Groups move to the category of the section that mentions them last |
| `SyncAccumulator.Accumulator.AccumulateCategory` | src/sync-accumulator.ts:532-537 | A group leaves whatever category it was in |
| `SyncAccumulator.Accumulator.GetJSON` | src/sync-accumulator.ts:554-699 | The emitted data is what `IsData` describes, the order of object keys being left open |
| `SyncAccumulator.Accumulator.AccumulateJoinState` | src/sync-accumulator.ts:336-505 | The room, a new one if need be, is replaced by what the response makes of it |
| `SyncAccumulator.JoinRoom` | src/sync-accumulator.ts:384-504 | The loops of the join state compute the new state, timeline, account data, receipts and summary |
| `SyncAccumulator.ClobberStripped` | src/sync-accumulator.ts:320-332 | One invite event overwrites all events with its key, or is appended |
| `SyncAccumulator.RollForward` | src/sync-accumulator.ts:464-487 | Timeline events are replayed on the state and appended, the first with the batch's token |
| `SyncAccumulator.PruneTimeline` | src/sync-accumulator.ts:491-504 | Cuts at the first token at which the rest fits, and not at all if there is none |
| `SyncAccumulator.AddReceipts` | src/sync-accumulator.ts:409-447 | Only m.receipt events with content count, folded in order |
| `SyncAccumulator.ListReceipts` | src/sync-accumulator.ts:592-614 | The receipt event lists every receipt once under its event, and there is none without receipts |
| `SyncAccumulator.EmitTimeline` | src/sync-accumulator.ts:616-648 | Emits from the first entry with a token on, with that token |
| `SyncAccumulator.RollBackEvents` | src/sync-accumulator.ts:653-673 | The backward loop computes the reverse-clobbered state |
| `SyncAccumulator.RoomJSON` | src/sync-accumulator.ts:574-684 | One room's emitted parts together |
| `StringAveraging.AverageStrictlyBetweenIff` | src/utils.ts:648-661 | Main result: the average of a < b is over the alphabet, and strictly between them exactly when b is not a followed only by padding |
| `StringAveraging.AverageIsMidpoint` | src/utils.ts:648-661 | The average is the string whose value is the mean of those of the padded strings, rounded down; if these are equal or neighbours, the lower one with one more character |
| `StringAveraging.NumberRoundTrip` | src/utils.ts:579-637 | stringToBase undoes baseToString on every natural number, for every alphabet of at least one character |
| `StringAveraging.StringRoundTrip` | src/utils.ts:579-637 | baseToString undoes stringToBase on every string over the alphabet |
| `StringAveraging.ValueOrder` | src/utils.ts:613-637 | stringToBase is an order isomorphism from shortlex order |
| `StringAveraging.RolloverDecreases` | src/utils.ts:586-602 | The quotient passed to the recursive call is smaller and positive, rollover included |
| `StringAveraging.NextIsSuccessor` | src/utils.ts:671-673 | nextString is the immediate shortlex successor, nothing lies between, and prevString takes it back |
| `StringAveraging.PrevIsPredecessor` | src/utils.ts:683-685 | prevString is the immediate predecessor of every non-empty string, taken back by nextString; it leaves the empty string alone |
| `StringAveraging.NextIsLaterIff` | src/utils.ts:671-673 | The successor is also later in JavaScript's string order exactly when the string has a character other than the alphabet's last, or is empty, or the alphabet has one letter |
| `StringAveraging.NextRollsOverIff` | src/utils.ts:594-602 | The successor has the same length exactly when some character is not the alphabet's last, and is otherwise all first characters, one more of them |
| `StringAveraging.PrevRollsOverIff` | src/utils.ts:594-602 | The predecessor is shorter exactly when every character is the alphabet's first |
| `StringAveraging.LastLetterRollsOver` | src/utils.ts:671-673 | The concrete input on which both fail to hold: the successor of b is aa, which JavaScript orders before it, and the average of its neighbours is not b |
| `StringAveraging.AverageOfNeighboursIff` | src/utils.ts:648-685 | The average of a string's neighbours is the string exactly when it has a character other than the alphabet's first and one other than its last |
| `StringAveraging.PaddedPairHasNothingBetween` | src/utils.ts:648-661 | The concrete input on which the average is not between: a and aa give aaa |
| `StringAveraging.DefaultAlphabetIsContiguous` | src/utils.ts:549-555 | The default alphabet is contiguous, of 95 characters, so every result holds for it |
| `StringAveraging.CompareIsTotalOrder` | src/utils.ts:687-698 | The comparison is safe to sort with: antisymmetric, transitive, zero only on equal strings |
| `StringAveraging.CompareIff` | src/utils.ts:694-698 | Negative exactly when the first string comes before the second, at the first place where they differ or one ends, and positive exactly when it comes after |
| `StringAveraging.PadKeepsOrder` | src/utils.ts:567-569 | Padding to one length keeps a strict order unless padding is all that separates the strings |
| `StringAveraging.StringToBase` | src/utils.ts:613-637 | The loop, run from the last character, computes the numeral's value |
| `TimelineRuns.Run` | src/timeline-window.ts:102-419 | Main result: from before the first load on, any interleaving of loads in this or another chain, extend, unpaginate and growth of the chain is a run of two positions over the flattened list, and getEvents then returns exactly the slice between them |
| `TimelineRuns.PerformLoad` | src/timeline-window.ts:102-154 | Loading moves to the requested range of the chain that the timeline is in, or changes nothing |
| `TimelineRuns.SlideKeepsBounds` | src/timeline-window.ts:185-209 | No operation takes the positions out of order or out of the list, and growth does not change what is shown |
| `TimelineRuns.RunKeepsBounds` | src/timeline-window.ts:185-367 | Nor does any run |
| `TimelineRuns.RunKeepsLimit` | src/timeline-window.ts:68-71 | The window never holds more than its limit, unless more is loaded |
| `TimelineRuns.PagingReachesTheEnd` | src/timeline-window.ts:185-209 | Extending n times reaches the end of the list if at most n events were left in that direction |
| `TimelineRuns.ExtendGainsAll` | src/timeline-window.ts:185-209 | In a single timeline, one extension gains all that it asks for, as far as there are events |
| `TimelineRuns.ExtendIsDetermined` | src/timeline-window.ts:185-209 | In any chain, where an extension leaves the window is determined by where it was |
| `TimelineRuns.Perform` | src/timeline-window.ts:102-367 | Each operation is one step of such a run |
| `TimelineWindow.TimelineIndex.Advance` | src/timeline-window.ts:459-511 | Terminates on any chain and moves the global position by exactly the result: by delta, or to the first timeline boundary that way, and not at all only for 0 or at the end |
| `TimelineWindow.TimelineIndex.Retreat` | src/timeline-window.ts:519-521 | The mirror image |
| `TimelineWindow.TimelineIndex.MoveWithin` | src/timeline-window.ts:466-490 | Moves by delta, or else to the very end of the current timeline |
| `TimelineWindow.TimelineIndex.EnterNeighbour` | src/timeline-window.ts:492-508 | Switching to a neighbour keeps the global position |
| `TimelineWindow.Window.constructor` | src/timeline-window.ts:85-91 | Not loaded; a limit of 0 falls back to 1000 |
| `TimelineWindow.Window.InitFields` | src/timeline-window.ts:105-132 | The window holds the requested range around the event, or the end of the timeline; when the event is missing nothing changes |
| `TimelineWindow.InitialRange` | src/timeline-window.ts:106-128 | At most the requested number of events, containing the requested one, half the window from it on |
| `TimelineWindow.InitialRangeShows` | src/timeline-window.ts:106-128 | The last events of the live timeline, or a range that holds the event asked for, of the size asked for unless the timeline begins or ends before |
| `TimelineWindow.InitialRangeIsCentred` | src/timeline-window.ts:103-128 | With events enough on both sides, the event asked for is in the middle |
| `TimelineWindow.Window.Unpaginate` | src/timeline-window.ts:344-367 | Refuses exactly when delta is out of range, else removes exactly delta events from the chosen end and never gets stuck |
| `TimelineWindow.Window.DropFirst` | src/timeline-window.ts:353-365 | One round at the start always drops something |
| `TimelineWindow.Window.DropLast` | src/timeline-window.ts:353-365 | One round at the end always drops something |
| `TimelineWindow.Window.Extend` | src/timeline-window.ts:185-209 | Gains size events, or those up to the first timeline boundary, none only at the end of the list; the count is then the sum or the limit, trimmed from the opposite end only; a negative size moves the end inwards, in order while that many events are in the window |
| `TimelineWindow.Window.Trim` | src/timeline-window.ts:201-204 | Trimming keeps the end that was extended and leaves at most the limit |
| `TimelineWindow.Window.GetEvents` | src/timeline-window.ts:374-419 | Terminates and returns exactly the slice of the flattened chain that the window stands for |
| `TimelineWindow.EventTimeline.AddEvent` | src/models/event-timeline.ts:390-402 | Adding at the start raises the base index by one |
| `TimelineWindow.EventTimeline.SetNeighbour` | src/models/event-timeline.ts:334-350 | Joins a neighbour on a free side; refuses and changes nothing when that side is taken |
| `TimelineWindow.AppendEvent` | src/models/event-timeline.ts:390-402 | An event arriving at the end leaves every window as it shows |
| `TimelineWindow.PrependEvent` | src/models/event-timeline.ts:390-402 | An event put in front moves the positions by one and leaves the window as it shows |
| `TimelineWindow.JoinAfter` | src/models/event-timeline.ts:334-350 | So does a later timeline joined to the last one, with everything that follows it |
| `TimelineWindow.JoinBefore` | src/models/event-timeline.ts:334-350 | An earlier timeline joined to the first one, with everything before it, moves the positions by the number of events gained |
| `SchedulerRuns.RunsConserve` | src/scheduler.ts:151-268 | Main result: over every run that removes no entry in flight, each queue's events, in the order enqueued and without the removed ones, are those settled, in order, followed by those queued, in order; every settled one is either resolved or rejected; and the invariant holds |
| `SchedulerRuns.RecordKeepsOutcomes` | src/scheduler.ts:245-263 | Every step gives an event at most one outcome |
| `SchedulerRuns.RecordConserves` | src/scheduler.ts:243-267 | Every single step does so, and what a completion drops is the entry just processed |
| `SchedulerRuns.InExactlyOnePlace` | src/scheduler.ts:186-204 | Each queued event is in exactly one of queued, resolved, rejected and removed, and those settled are a prefix of the order enqueued |
| `SchedulerRuns.RecordIsBounded` | src/scheduler.ts:66-92 | With the default algorithm every step keeps the bound on requests and back-off, whatever the failure |
| `SchedulerRuns.RetriesAreBounded` | src/scheduler.ts:54-92 | Over every run with the default algorithm, at most 5 requests are made for an event on top of those the server put off with a positive retry_after_ms, and the timers armed after the others are for at most 30000 ms in all |
| `SchedulerRetries.WhatComesOfFailure` | src/scheduler.ts:66-92 | Main result: over every run with the default algorithm, the failure of the k-th request for an event gives up at once where trying again is hopeless; waits exactly as long as a rate limit asks; and otherwise waits 2, 4, 8 and 16 seconds after the first four and gives up after that |
| `SchedulerRetries.FailureArms` | src/scheduler.ts:252-267 | With any algorithm, what is armed after a failure is exactly the wait it gives for the event, the attempts with this one, and the error; with -1 nothing is |
| `SchedulerRetries.DefaultRetries` | src/scheduler.ts:66-92 | Which failures are retried, and after how many milliseconds |
| `SchedulerRetries.WhatIsSent` | src/scheduler.ts:186-245 | Over every run, what is being sent is the event queued under that id, the head of its own queue, with as many attempts as requests have completed for it |
| `SchedulerRetries.RunsStayTrue` | src/scheduler.ts:186-268 | Over every run the same holds of every queued entry |
| `SchedulerRetries.DefaultQueues` | src/scheduler.ts:102-110 | Room messages and events that associate with another one go to one queue, all others to none |
| `SchedulerRetries.EmptyNameIsNoQueue` | src/scheduler.ts:187-190 | An empty queue name is no queue |
| `SchedulerRetries.QueuesStartInOrder` | src/scheduler.ts:206-221 | Exactly the inactive queues with events are started, in order, each with a request for its head |
| `SchedulerRetries.ProcIsLastGiven` | src/scheduler.ts:175-178 | Over every run there is a process function exactly when the last one given was one |
| `SchedulerRuns.RemoveKeepsInvIff` | src/scheduler.ts:151-166 | A removal keeps the invariant exactly when it does not take the entry in flight; removing the head while it waits for a retry is safe |
| `SchedulerRuns.RemovalInFlightLosesNext` | src/scheduler.ts:245-251 | Otherwise, when the request succeeds, the event behind it is neither queued nor resolved nor rejected nor removed |
| `SchedulerRuns.SecondMessageIsLost` | src/scheduler.ts:245-251 | The concrete run: a process function and two queued messages, the first of which is removed while its request is in flight |
| `SchedulerDrain.QueuesDrain` | src/scheduler.ts:223-268 | After any run that set a process function, completions alone stop after a bounded number of steps and two more for each time the server puts a request off, and exactly when every queue is empty and inactive |
| `SchedulerDrain.CompletionLowers` | src/scheduler.ts:243-267 | Every completed request or timer lowers the measure, but that a failure the server puts off may raise it by 1 |
| `SchedulerDrain.CompletionsRunOut` | src/scheduler.ts:223-268 | So there are at most as many as the measure says, and two for each time the server puts a request off |
| `Scheduler.StepKeepsInv` | src/scheduler.ts:175-268 | Between any two steps, a queue with events is active, an active queue has exactly one continuation and is listed once, and a request in flight is for the head |
| `Scheduler.RemoveElement` | src/utils.ts:89-116 | Removes the first (or last) element that satisfies the test, and reports it |
| `Scheduler.EventScheduler.constructor` | src/scheduler.ts:117-124 | Starts empty |
| `Scheduler.EventScheduler.QueueEvent` | src/scheduler.ts:186-204 | The whole new state; no deferred exactly when there is no queue for the event |
| `Scheduler.EventScheduler.PushEvent` | src/scheduler.ts:191-200 | Appends to the queue, a new one if need be |
| `Scheduler.EventScheduler.RemoveEventFromQueue` | src/scheduler.ts:151-166 | Removes the first entry with the event's id, in flight or not, and says whether it did; the invariant is kept unless it is in flight |
| `Scheduler.EventScheduler.SetProcessFunction` | src/scheduler.ts:175-178 | Starts every queue that has events, or none when the function is null |
| `Scheduler.EventScheduler.StartProcessingQueues` | src/scheduler.ts:206-221 | Starts exactly the inactive queues with events, in order |
| `Scheduler.EventScheduler.ProcessOneQueue` | src/scheduler.ts:223-245 | Sends the head, or makes an empty queue inactive |
| `Scheduler.EventScheduler.OnResolved` | src/scheduler.ts:245-251 | The head leaves the queue, its deferred is resolved and the next is processed |
| `Scheduler.EventScheduler.OnRejected` | src/scheduler.ts:252-267 | Gives up and rejects, or arms a timer for as long as the retry algorithm says after counting the attempt |
| `Scheduler.EventScheduler.OnTimer` | src/scheduler.ts:264-266 | A fired retry timer processes its queue |
| `RealtimeCallbacks.StepRefines` | src/realtime-callbacks.ts:75-183 | Main result: every step keeps the invariant and is the obvious one on the map of pending deadlines; a firing timer takes exactly what is due, in order; setting, firing and clearing the first callback re-arm the timer at the time of the clock, for exactly the earliest deadline or else the check period, and no other step touches it |
| `RealtimeCallbacks.OrderIsUnique` | src/realtime-callbacks.ts:39-46 | There is only one order by deadline and then by age, so the list is determined by the map |
| `RealtimeCallbacks.StepKeepsInv` | src/realtime-callbacks.ts:75-183 | The list stays sorted with ties first in, first out, keys stay unique and the real timer stays armed |
| `RealtimeCallbacks.NeverSleepsLate` | src/realtime-callbacks.ts:29-31 | While callbacks are pending the real timer is armed for no later than any deadline, nor for more than the check period |
| `RealtimeCallbacks.ArmedSinceLastReArm` | src/realtime-callbacks.ts:132-149 | Over every run, while callbacks are pending the timer is armed since the last step that re-armed it, at the time of the clock then, for exactly what is now the earliest deadline, or for the check period if that is not later |
| `RealtimeCallbacks.RunsAreAccounted` | src/realtime-callbacks.ts:151-183 | Over every run each key is in exactly one place (pending, taken, called once, cleared) |
| `RealtimeCallbacks.ClearedNeverRuns` | src/realtime-callbacks.ts:110-129 | A callback cleared while pending is never taken or called |
| `RealtimeCallbacks.BinarySearch` | src/realtime-callbacks.ts:190-208 | The first index with a positive value, in any array where they come last |
| `RealtimeCallbacks.InsertSorted` | src/realtime-callbacks.ts:92-99 | Inserts behind every callback that is not due later |
| `RealtimeCallbacks.TimerQueue.SetTimeout` | src/realtime-callbacks.ts:75-103 | The whole new state, with the timer re-armed; a negative delay counts as 0 |
| `RealtimeCallbacks.TimerQueue.ClearTimeout` | src/realtime-callbacks.ts:110-129 | Removes the callback if it is pending, and re-arms exactly when it was the first |
| `RealtimeCallbacks.TimerQueue.ScheduleRealCallback` | src/realtime-callbacks.ts:132-149 | Arms for the first deadline or the check period |
| `RealtimeCallbacks.TimerQueue.RunCallbacks` | src/realtime-callbacks.ts:151-172 | Takes what is due and re-arms before anything is called |
| `RealtimeCallbacks.TimerQueue.TakeDue` | src/realtime-callbacks.ts:156-167 | The loop takes exactly the prefix that is due |
| `RealtimeCallbacks.TimerQueue.InvokeNext` | src/realtime-callbacks.ts:174-182 | Calls the taken callbacks in order |
| `CrossSigning.ReachedDeviceIsVerifiedIff` | src/crypto/CrossSigning.ts:509-580 | Main result: in every state reachable by setting, resetting, clearing and signing, a cross-signing verified device has an unbroken path of signatures from one's own master key; a path over one's user-signing key makes it verified, and any other exactly when the self-signing key on it is the one held oneself |
| `CrossSigning.OtherSelfSigningKeyIsNotTrusted` | src/crypto/CrossSigning.ts:510-518 | The concrete input on which an unbroken path is not enough: two copies of one user's keys with the same master key and different self-signing keys, both signed by it |
| `CrossSigning.DeviceIsVerifiedIff` | src/crypto/CrossSigning.ts:509-580 | The same in any two states whose keys are chained |
| `CrossSigning.RunKeepsChain` | src/crypto/CrossSigning.ts:286-449 | Over every run, stored self-signing and user-signing keys are the user's own and verify under the stored master key |
| `CrossSigning.StepKeepsChain` | src/crypto/CrossSigning.ts:286-449 | So does every step |
| `CrossSigning.SettingStoredKeysIsIdentity` | src/crypto/CrossSigning.ts:379-449 | Setting the stored keys again is accepted and changes nothing |
| `CrossSigningKeys.AcceptedKeysAreStored` | src/crypto/CrossSigning.ts:437-449 | Accepted keys with a master key are stored just as given, missing ones included; without one, the master key and every signing key not given stay |
| `CrossSigningKeys.SignedKeysAreAccepted` | src/crypto/CrossSigning.ts:379-436 | In any state, keys that the owner of the master key has signed are accepted |
| `CrossSigningKeys.StoredKeyIsLastChange` | src/crypto/CrossSigning.ts:286-449 | Over every run, each stored key is what the last operation to change it made of it: the one accepted, a new one with its usage, id and signature, none, or the old one with one more signature |
| `CrossSigningKeys.UnchangedKeyStays` | src/crypto/CrossSigning.ts:286-449 | A key that no operation changes stays |
| `CrossSigningKeys.StepChanges` | src/crypto/CrossSigning.ts:286-370 | Which keys each operation changes, key by key; resetting goes by the bits of the level, 1 for self-signing, 2 for user-signing and 4 for all |
| `CrossSigningKeys.PrivateKeyIff` | src/crypto/CrossSigning.ts:111-162 | With a callback, a private key is found exactly when the cache or the application has one that fits, the cached one first |
| `CrossSigningKeys.UserTrustSays` | src/crypto/CrossSigning.ts:509-541 | When a user is verified, was verified before, and is trusted on first use |
| `CrossSigningKeys.DeviceTrustSays` | src/crypto/CrossSigning.ts:552-580 | A device is trusted as far as its user if the user vouches for it; without local trust and without trust in cross-signing nothing makes it verified |
| `CrossSigning.FailedSetKeysIsInertIff` | src/crypto/CrossSigning.ts:381-395 | A throwing setKeys leaves the keys alone; when it leaves everything alone |
| `CrossSigning.FirstUseIsNotRolledBack` | src/crypto/CrossSigning.ts:388-435 | The concrete input: after one master key, a second one with a self-signing key that it has not signed is refused and takes firstUse away |
| `CrossSigning.VerifiedBeforeLatches` | src/crypto/CrossSigning.ts:451-457 | Over every run the latch is set exactly when it was set at first or a verification was seen |
| `CrossSigning.FirstUseIff` | src/crypto/CrossSigning.ts:381-396 | Over every run: first use has gone exactly when it had at the start, or another master key was given, accepted or not, and none has been given since with no key stored |
| `CrossSigning.FirstUseLasts` | src/crypto/CrossSigning.ts:388-395 | Over every run without resetKeys: first use stays true as long as no other master key is given, and ends with the first other one, accepted or not |
| `CrossSigning.SignThenVerify` | src/crypto/olmlib.ts:502-552 | A new signature verifies, and every other signature verifies or not as before |
| `CrossSigningKeys.VerifiesIff` | src/crypto/olmlib.ts:534-552 | An object verifies exactly when there is a signature under the signer's id and the key's id that is right for the key and the object |
| `CrossSigningKeys.BodiesDetermine` | src/crypto/olmlib.ts:512-518 | What is signed determines the key or the device but for its signatures |
| `CrossSigning.SignedUserIsVerified` | src/crypto/CrossSigning.ts:474-541 | Signing a user's master key with one's user-signing key makes the user verified |
| `CrossSigning.SignedDeviceIsVerified` | src/crypto/CrossSigning.ts:482-580 | A device signed with a verified user's self-signing key is verified |
| `CrossSigning.BootstrapLeadsToTrust` | src/crypto/CrossSigning.ts:286-580 | From resetting both users' keys over signing the user and the device to a verified device |
| `CrossSigning.SigningKeepsTrust` | src/crypto/CrossSigning.ts:459-472 | A further signature on a master key takes no trust away |
| `CrossSigning.ClearingTrustsNobody` | src/crypto/CrossSigning.ts:372-377 | After clearing, no user and no device is cross-signing verified |
| `CrossSigning.CrossSigningInfo.constructor` | src/crypto/CrossSigning.ts:57-83 | No keys, first use, never verified |
| `CrossSigning.CrossSigningInfo.SetKeys` | src/crypto/CrossSigning.ts:379-449 | Accepts exactly the acceptable keys, a new master key making the old signing keys obsolete; otherwise keys stay, and which error it is; the firstUse rule |
| `CrossSigning.CrossSigningInfo.CheckSigned` | src/crypto/CrossSigning.ts:404-435 | A given signing key must be the user's and verify under the master key; which error otherwise |
| `CrossSigning.CrossSigningInfo.GetCrossSigningKey` | src/crypto/CrossSigning.ts:111-162 | The private key of the expected or else the stored public key, from the cache or else from the application; which error otherwise; when to cache it |
| `CrossSigning.CrossSigningInfo.ResetKeys` | src/crypto/CrossSigning.ts:286-370 | The whole new state; each private key to be saved belongs to the key then stored, every other key stays; failing changes nothing |
| `CrossSigning.CrossSigningInfo.ClearKeys` | src/crypto/CrossSigning.ts:375-377 | Forgets all keys and nothing else |
| `CrossSigning.CrossSigningInfo.UpdateCrossSigningVerifiedBefore` | src/crypto/CrossSigning.ts:451-457 | Sets the latch and never clears it |
| `CrossSigning.CrossSigningInfo.SignUser` | src/crypto/CrossSigning.ts:474-480 | Signs the other user's master key in place, or changes nothing |
| `CrossSigning.CrossSigningInfo.SignDevice` | src/crypto/CrossSigning.ts:482-500 | Signs only one's own devices, leaving their other signatures behind |
| `CrossSigning.CrossSigningInfo.CheckUserTrust` | src/crypto/CrossSigning.ts:509-541 | The branches compute the user's trust as specified |
| `CrossSigning.CrossSigningInfo.CheckDeviceTrust` | src/crypto/CrossSigning.ts:552-580 | The branches compute the device's trust as specified; in chained states it is verified exactly when there is a path over the user-signing key, or a path over the self-signing key that one holds oneself |

## Left out

- `fromDatabase`, `forDatabase`, `_localTs` and `age`: events are compared without them, and the two flags change nothing else.
- Aliasing in the accumulator: it keeps and hands out the objects of the responses, so that a later invite update also changes an earlier result of getJSON. Rooms and invites are values here.
- The accumulator's handling of `Object.create(null)` and of missing sections of a response: a missing section is an empty one.
- A summary whose fields are missing: a count of 0 and a missing count are the same, as they are for the `||` in the source.
- Timeline window: `paginate` and its requests, `canPaginate` and pagination tokens. The chain grows in steps of its own (`AppendEvent`, `PrependEvent`, `JoinAfter`, `JoinBefore`). `EventTimeline.removeEvent` and the room state that `addEvent` updates are not part of this model.
- TimelineWindow.Window.InitFields: does not model how load finds or fetches the timeline, because that is the timeline set's and the client's work; the timeline it arrives at is a parameter.
- TimelineWindow.Window.Extend: does not say how many events can lie between the ends when a negative size exceeds the window, because the ends have then crossed; where they are is stated.
- TimelineRuns.Run: does not model extending by a negative size, because paginate never does; `Extend` covers a single call. A chain that is loaded or joined is made anew from its events and base indexes.
- Scheduler: retry algorithms that throw, process functions that complete at once, and the values with which a deferred is resolved or rejected. Requests started without a process function are ones that fail.
- SchedulerRuns.RunsConserve: does not model runs that remove the entry whose request is in flight, because the property fails there; `RemoveKeepsInvIff` and `RemovalInFlightLosesNext` say exactly when and how.
- Scheduler: `Object.keys` visits integer-like queue names first; the model keeps all queues in the order in which they were created.
- Realtime callbacks: exceptions thrown by callbacks (they are logged), NaN delays, and the queue's own real-timer handle.
- Cross-signing: overlapping asynchronous calls, secret storage, the `unsigned` part of signed objects, and the contents of keys and signatures. `setKeys` errors about a mismatched user id on a signing key are one error, although the source fails with a TypeError when no master key was given with it.
- `deepCompare`, `pushprocessor.ts`, `sync.ts`, `http-api.js` and the rest of `client.ts`.
