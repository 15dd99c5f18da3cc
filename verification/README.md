# Datamancer, modelled and proved

Datamancer is a per-symbol market-data pipeline that makes two promises: the
order of a symbol's events is fixed once, at the source, and loss is never
silent. This project models the state machines that keep those promises and
proves, for every run and every input, what they guarantee and exactly where a
guarantee stops. Check it with `dafny verify dfyconfig.toml`.

| file | what it models |
|---|---|
| `Events.dfy` | events, spans, and the one notion of being accounted for |
| `FanOut.dfy` | the source's bounded channel and pending gap per referrer |
| `ClientRing.dfy`, `Coalescing.dfy`, `ClientController.dfy` | the client multiplexer: resume ring, control coalescer, attach and flush |
| `Pipeline.dfy`, `PipelineOrder.dfy`, `PipelineExit.dfy` | fan-out, multiplexer and consumer composed, under every interleaving: no silent loss, order, what a source exit costs |
| `SourceToClient.dfy` | the source's backfill ring composed with that pipeline, from live arrival to client |
| `Source.dfy` | stamping, the tap log, the backfill ring and the historical-to-live seam |
| `ReadThrough.dfy`, `SegmentStream.dfy` | the read-through cache, tiling, coverage claims |
| `FetchLocks.dfy`, `Registry.dfy`, `Opening.dfy`, `PendingTable.dfy` | the concurrency protocols: single flight, create-or-share and its openers, pending requests |
| `SymbolTable.dfy`, `Payload.dfy`, `HoldBuffer.dfy`, `Sink.dfy`, `Transport.dfy` | the shared-memory transport: publisher, subscriber, and the two end to end |
| `Connection.dfy` | connection phase, provider state, stream liveness |
| `Text.dfy`, `CivilDates.dfy`, `Timestamps.dfy`, `Naming.dfy` | strings and numerals, civil dates, timestamps, service names |

Every step machine has an `Enabled`/`Apply` pair whose steps are the source's
critical sections, channel operations and `select!` arms, and the theorems range
over all step sequences. Code that mutates an object is a class whose methods
are proved against the functions those theorems are about.

## What the proofs found

- The fan-out's pending gap dies with the source controller: if the controller
  exits while a referrer is owed a gap, that loss is reported nowhere
  (`Pipeline.SourceExitCanLoseSilently`). Nothing else is ever lost silently
  (`Pipeline.NoDataIsLostSilently`), and over a source whose data timestamps
  strictly increase the events of that gap, and only they, stay unreported
  (`PipelineExit.ExitLosesExactlyTheOwedSpan`).
- A dropped event at the last representable instant yields an empty span, so
  the announced gap does not contain it (`FanOuts.DroppedEventIsInGapIffBelowMax`).
- The source counter panics one value earlier than its comment says: the
  comment promises `[0, u64::MAX - 1]`, the code stamps at most `u64::MAX - 2`
  (`Sources.LastStampIsTwoBelowSentinel`). The model follows the code.
- A failed fetch, or a lagging one at the live edge, leaves an honest coverage
  claim if and only if its cut-off does not fall between two events with one
  timestamp (`SegmentStreams.ClaimIsHonestIffUnsplitOrComplete`).
- A plain historical session accounts for its whole range if and only if the
  history is empty past the segment of its first failed fetch: the segments after
  it are abandoned without a gap
  (`SegmentStreams.HistoricalIsFullyAccountedIffNothingIsAbandoned`).
- A fetch that succeeds at the live edge but lags behind it leaves a hole that is
  neither delivered nor gapped (`SegmentStreams.LaggingFetchLeavesAHole`); it is
  the only one a backfill leaves (`SegmentStreams.BackfillAccountsForEveryInstant`).
- Data of an interned symbol is preceded by its announcement if and only if the
  fixed-capacity string accepts its tuple; otherwise it is published and never
  announced (`Sinks.AnnounceBeforeDataIffTupleAccepted`,
  `Sinks.UnacceptedTupleIsPublishedUnannounced`).
- A delivery can report failure after its sample went out, exactly when it is
  the one that triggers a periodic republish and that republish fails
  (`Sinks.DataSink.Deliver`).
- The wire record does not carry a control's provider: a control round-trips if
  and only if its provider is its instrument's (`Payloads.FromPodInvertsToPodIffProviderMatches`).
- A tuple field containing the separator is never mis-decoded; it is always
  rejected (`SymbolTables.DecodeInvertsEncodeIffNoSeparator`).
- The timestamp parser accepts more than RFC 3339 (signs, fields without padding:
  `Timestamps.UnpaddedTextIsAccepted`) and less: it rejects fractions of more than
  nine digits (`Timestamps.LongFractionIsRejected`) and lower-case `t` and `z`
  (`Timestamps.LowerCaseTextIsRejected`). What it accepts is characterised
  exactly, and every value it returns is the exact count of what the text denotes
  (`Timestamps.EveryTextIsParsedToItsWorth`, `Timestamps.AcceptedTextIsLaidOut`).
- One lingering referrer blocks a key: while it holds a session whose controller
  has exited, every open of that key fails with `SessionClosed` instead of
  creating a fresh session (`Opening.LingeringReferrerBlocksTheKey`).
- The one prefix check is exact: it accepts a prefix if and only if every name
  derivable from it is valid (`Naming.AcceptedIffAllNamesValid`).

## Model

| member | source | states |
|---|---|---|
| Pipeline.NoDataIsLostSilently | crates/datamancer/src/client.rs:655-908 | in every reachable state of fan-out, multiplexer and consumer (any fullness, drains, detaches, takes, interrupted flushes, re-attaches, subscribes, source exits), every data event fanned out to a held subscription since it joined is handed over, in delivery, queued or buffered, or its timestamp lies in the span of a gap of its instrument that is, or is still owed by the ring or a running fan-out; the one exception is an event inside the gap an exited source still owed |
| SourceToClient.EveryArrivalIsTracked | crates/datamancer/src/session.rs:1910-1994 | in every run of a source each live data event or gap that ever arrived is reported in its output, verbatim or inside a gap, or still is in the backfill ring or its dropped span |
| SourceToClient.NoLiveArrivalIsLostSilently | crates/datamancer/src/session.rs:441-518 | all three loss accountants composed, for any subscription joined at any point: a live arrival is still in the source's ring, was reported before the joining, is about to be fanned out, or the client's side accounts for it, or it lies in the gap an exited source owed |
| SourceToClient.EveryLiveArrivalReachesTheOpener | crates/datamancer/src/session.rs:441-449 | for the opener, once the seam is past and the output fanned out, every live arrival, evicted during the backfill or not, is accounted for on the client's side or abandoned by an exited source |
| Pipeline.StepKeepsNoSilentLoss | crates/datamancer/src/client.rs:1217-1291 | the inductive step: whatever one step evicts, absorbs, flushes or abandons, each event stays accounted for or lies in the abandoned gap |
| Pipeline.DeliverKeepsEvidence | crates/datamancer/src/client.rs:1217-1238 | a delivery, accepted or refused, leaves everything told before and the delivered event accounted for |
| Pipeline.FlushKeepsEvidence | crates/datamancer/src/client.rs:1270-1291 | everything the ring held or recorded as dropped is in the flush that replaces it |
| PipelineExit.ExitLosesExactlyTheOwedSpan | crates/datamancer/src/client.rs:570-608 | over a source with strictly increasing data timestamps and a sole subscription, once the source has exited, in every reachable state, an event is accounted for if and only if it is not inside the gap still owed at the exit |
| PipelineExit.SourceExitIsCleanIffNothingIsOwed | crates/datamancer/src/client.rs:570-608 | for such a source every event fanned out is accounted for after the exit if and only if no gap was owed |
| Pipeline.SourceExitCanLoseSilently | crates/datamancer/src/client.rs:735-774 | a four-step run after which a trade is reported nowhere while its subscription is still held |
| PipelineOrder.HandedOverStreamIsStrictlyIncreasing | crates/datamancer/src/client.rs:1047-1060 | over any number of detach and take cycles, a client holding one kind of an instrument in one epoch is handed that instrument's data and gaps in strictly increasing `seq`, and all that is still on its way comes later |
| PipelineOrder.StepKeepsOrdered | crates/datamancer/src/client.rs:1217-1291 | each step keeps the whole line of one instrument, from handed over to owed by the source, strictly increasing |
| PipelineOrder.DeliveryIsConserved | crates/datamancer/src/client.rs:1217-1291 | whenever the controller is between deliveries, inputs plus synthesised gaps equal handed over plus occupancy plus dropped events, and occupancy is at most `max(capacity, 1)` |
| Pipeline.AttachedConsumerIsHandedEverything | crates/datamancer/src/client.rs:1217-1238 | over every run in which the consumer stays, everything that was in delivery or enters it is handed over, in order, controls included, and nothing is buffered or dropped |
| Pipeline.DetachedClientBuffersEverything | crates/datamancer/src/client.rs:1217-1238 | over every run without a consumer nothing is handed over, and the ring is what pushing everything in order makes it |
| Pipeline.NewConsumerIsHandedTheRingFirst | crates/datamancer/src/client.rs:1240-1291 | a new consumer that stays is handed the flush's gaps, the survivors, then everything that enters delivery |
| Pipeline.CoalescerSeesTheMergedSubstreams | crates/datamancer/src/client.rs:1158-1212 | over every interleaving of substreams, what enters delivery is what the coalescer forwards of their merged events |
| Pipeline.EndedSubscriptionIsSilent | crates/datamancer/src/client.rs:1113-1150 | after a subscription ends and until it is made again, nothing of it is fanned out or routed |
| Pipeline.UnsubscribingEndsIt | crates/datamancer/src/client.rs:1113-1150 | both ways to end a subscription remove exactly that one |
| FanOuts.DroppedEventIsInGapIffBelowMax | crates/datamancer/src/client.rs:618-673 | a dropped data event lies in the half-open span that absorbed it if and only if its timestamp is below `i64::MAX` |
| FanOuts.OfferAccountsForAll | crates/datamancer/src/client.rs:746-770 | after one fan-out the gap owed before and the offered event are each queued or folded into the gap still owed, and nothing else was queued |
| FanOuts.OfferLosesNothing | crates/datamancer/src/client.rs:735-774 | one fan-out takes no evidence away from a referrer it keeps, and accounts for the offered event |
| FanOuts.OfferByRoom | crates/datamancer/src/client.rs:746-770 | by the room in the channel: the owed gap and the event are both queued, the gap alone with the event owed, or nothing with the event folded into what is owed, under the first lost event's `seq`, instrument and provider; a closed channel drops the referrer |
| FanOuts.KeepingUpMissesNothing | crates/datamancer/src/client.rs:735-774 | a referrer with room at every emission is queued every event verbatim, controls included, and never owed a gap |
| FanOuts.LateJoinerSeesTheLastActivation | crates/datamancer/src/client.rs:701-714 | a late joiner with any room is queued the last activation and nothing else that came before it |
| FanOuts.FanOut.AddSubscriber | crates/datamancer/src/client.rs:701-714 | a joiner gets the cached activation queued exactly when its channel has room, and is owed no gap |
| FanOuts.FanOut.RemoveSubscriber | crates/datamancer/src/client.rs:716-718 | exactly that referrer is gone |
| FanOuts.FanOut.ShouldTeardown | crates/datamancer/src/client.rs:722-724 | true exactly after a first subscriber when none is left |
| FanOuts.FanOut.Fanout | crates/datamancer/src/client.rs:735-774 | visiting the referrers in any order gives each its own share of the event, removes exactly the closed ones and caches an activation |
| FanOuts.EveryReferrerSeesIncreasingSeq | crates/datamancer/src/client.rs:592-610 | over a source stamping 0, 1, 2, ..., every referrer is queued strictly increasing `seq`, synthesised gaps and late-join replay included, and the gap still owed comes later |
| FanOuts.RunIsGenuine | crates/datamancer/src/client.rs:676-714 | whatever a referrer holds or is owed is a source event verbatim or a gap starting at the `seq` of one |
| FanOuts.ReferrersAgree | crates/datamancer/src/client.rs:735-774 | two referrers that receive the same `seq` received the same event, unless one is a gap synthesised for its own loss |
| FanOuts.ReferrerIsIndependentOfOthers | crates/datamancer/src/client.rs:676-682 | what one referrer receives is what it would receive had no other ever joined, drained or hung up |
| FanOuts.AttachedReferrerLosesNothingSilently | crates/datamancer/src/client.rs:676-682 | a referrer attached since a point of the run was queued, or is owed a gap over, every data event and gap emitted since |
| Events.GapAccountsIffInSpan | crates/datamancer/src/client.rs:611-646 | for a data event below the last instant, being accounted for by a gap is the same as lying in its half-open span |
| Events.GapIsStampedAtItsStart | crates/datamancer/src/client.rs:597-608 | a gap event carries its span, provider and `seq`, and both its timestamps are the start of the span |
| ClientRings.ClientRing.PushBack | crates/datamancer/src/client.rs:820-832 | evicts and records the oldest exactly when full, reports whether it did, appends the new event |
| ClientRings.ClientRing.NoteEviction | crates/datamancer/src/client.rs:842-894 | an evicted event extends its own instrument's span only; a control without instrument changes nothing |
| ClientRings.ClientRing.IntoParts | crates/datamancer/src/client.rs:899-907 | one gap per affected instrument, sorted by first-evicted `seq`, and the survivors in arrival order |
| ClientRings.RingHoldsNewestAndAccountsForRest | crates/datamancer/src/client.rs:790-832 | after any pushes the ring holds exactly the newest `max(capacity, 1)` and its map is, per instrument, the first lost `seq` and the exact hull of what was lost |
| ClientRings.LossIsReportedByItsFirst | crates/datamancer/src/client.rs:842-894 | a loss is recorded under the provider and `seq` of the first event lost: a lost gap's own provider, else the subscription's |
| ClientRings.FlushReportsEachInstrumentOnce | crates/datamancer/src/client.rs:896-907 | per instrument a flush synthesises at most one gap, only if it lost something, with its recorded span, provider and first-evicted `seq`, ahead of the survivors, which follow unchanged |
| ClientControllers.ClientController.DeliverEvent | crates/datamancer/src/client.rs:1217-1238 | an attached consumer that accepts is handed the event and stays attached; otherwise nothing is handed over and the event is last in the ring |
| ClientControllers.ClientController.Route | crates/datamancer/src/client.rs:1158-1186 | a coalesced control only updates what was seen; anything else is delivered |
| ClientControllers.ClientController.PrepareAttach | crates/datamancer/src/client.rs:1240-1259 | refused exactly while an open consumer is attached; otherwise attached with the prior ring handed back |
| ClientControllers.ClientController.FlushRing | crates/datamancer/src/client.rs:1270-1291 | delivers gaps then survivors in order through the current sink; a consumer that stays is handed all of them and nothing else changes |
| ClientControllers.InterruptedFlush | crates/datamancer/src/client.rs:1270-1291 | a consumer that goes away midway was handed everything before that item; it and the rest are in a fresh ring, in order |
| Coalescing.ConnectionControlsAreDeduplicated | crates/datamancer/src/client.rs:1158-1196 | for every interleaving, a provider's connects and disconnects reach the client as the merged ones with adjacent repeats removed |
| Coalescing.ErrorsAreDeduplicated | crates/datamancer/src/client.rs:1198-1212 | likewise for each provider's error texts |
| Coalescing.EverythingElsePassesUnchanged | crates/datamancer/src/client.rs:1158-1186 | data, `Gap` and `SubscriptionChanged` events pass unchanged and in order |
| Coalescing.ForwardedIsPartOfTheMerge | crates/datamancer/src/client.rs:1158-1186 | the client is given merged events verbatim and in order, never a substream's own `SessionClosing` |
| Coalescing.ConnectionControlsAlternate | crates/datamancer/src/client.rs:1188-1196 | a client sees each provider's connects and disconnects alternate |
| Sources.Controller.Stamp | crates/datamancer/src/session.rs:2126-2142 | assigns the next `seq` and advances, or gives up for good at exhaustion |
| Sources.Controller.EmitEvent | crates/datamancer/src/session.rs:2190-2193 | stamps and delivers, never tees |
| Sources.Controller.ForwardEvent | crates/datamancer/src/session.rs:2201-2287 | stamps first, tees stamped data when the tap is on, then delivers |
| Sources.Controller.FlushBackfillPending | crates/datamancer/src/session.rs:1400-1409 | forwards at most one gap, then the ring's survivors in order |
| Sources.SourceSeqIsContiguous | crates/datamancer/src/session.rs:2126-2142 | in every run the delivered `seq` is exactly 0, 1, 2, ... and never the sentinel |
| Sources.LastStampIsTwoBelowSentinel | crates/datamancer/src/session.rs:2126-2142 | stamping gives up exactly at counter `u64::MAX - 1`, so the largest stamp is two below the sentinel |
| Sources.RingKeepsNewestAndHull | crates/datamancer/src/session.rs:2510-2567 | after any arrivals the backfill ring holds the newest `max(capacity, 1)` in order and its span is the hull of the rest |
| Sources.SeamOrderAndTapLog | crates/datamancer/src/session.rs:1910-1994 | a backfilled session delivers the segments' output, the seam, then live, stamped contiguously; with the tap on throughout the log is exactly the data of the live tail with its delivered `seq`, never backfill data |
| Sources.SeamIsHullThenNewest | crates/datamancer/src/session.rs:1400-1409 | the seam is at most one gap, present exactly when an evicted arrival was data or a gap and spanning their hull, then the newest buffered arrivals |
| Sources.LiveLogIsWhatArrivedWhileTapped | crates/datamancer/src/session.rs:2267-2287 | however the tap is switched during the live tail, the log grows by exactly the data that arrived while it was on, with its delivered `seq` |
| Sources.UntappedSessionLogsNothing | crates/datamancer/src/session.rs:2267-2287 | a session never tapped logs nothing, whatever it goes through |
| Sources.Controller.ForwardEach | crates/datamancer/src/session.rs:1400-1409 | forwards a batch in order |
| Sources.SeedOnlyBeforeAnyData | crates/datamancer/src/session.rs:2051-2073 | a pure-live session delivers the latest-value seed only while no data has been delivered |
| ReadThrough.Tile | crates/datamancer/src/session.rs:2449-2473 | the cursor loop computes the tiling function the theorems are about |
| ReadThrough.TilePartitionsTheRequest | crates/datamancer/src/session.rs:2449-2473 | segments lie end to end over the request, and an instant is in an uncovered one exactly when the report says so |
| ReadThrough.ReplayIsSlice | crates/datamancer/src/session.rs:1613-1672 | replaying a covered range of an honest cache yields exactly the provider's history there |
| SegmentStreams.FetchSegment | crates/datamancer/src/session.rs:1700-1733 | the fetch loop keeps every event and the greatest data timestamp |
| SegmentStreams.StreamOne | crates/datamancer/src/session.rs:1613-1805 | one segment's output, store and outcome, in all four cases |
| SegmentStreams.StreamSegments | crates/datamancer/src/session.rs:1598-1810 | the loop over segments stops at the first failed fetch, and its output and stores are those of the specification |
| SegmentStreams.CacheIsInvisible | crates/datamancer/src/session.rs:1819-1903 | for any honest cache, any report leaving only covered instants outside its gaps, any honest interference and either write mode, a session whose replays and fetches succeed puts out exactly the history of the range |
| SegmentStreams.CachedSessionIsTheUncachedOne | crates/datamancer/src/session.rs:1414-1496 | stamped, it delivers what the uncached session delivers, with the same `seq` values |
| SegmentStreams.SuccessFillsTheRange | crates/datamancer/src/session.rs:1734-1760 | a read-write session that succeeds leaves its whole range covered |
| SegmentStreams.StoreKeepsCacheHonest | crates/datamancer/src/session.rs:1734-1805 | a store after success, mid-fetch failure or a lagging fetch at the live edge keeps every covered instant equal to the history |
| SegmentStreams.EveryStoreIsHonest | crates/datamancer/src/session.rs:1598-1810 | from an honest cache, every cache a whole stream sees or leaves is honest, other sessions' honest stores included |
| SegmentStreams.ClaimIsHonestIffUnsplitOrComplete | crates/datamancer/src/session.rs:1734-1805 | for every fetch of a prefix: a confirmed claim (failed fetch, or lagging fetch at the live edge) is honest if and only if its cut-off does not split a timestamp, a whole-segment claim if and only if the prefix is complete |
| SegmentStreams.SplitCutOffIsDishonest | crates/datamancer/src/session.rs:2441-2443 | two trades at one instant and a failure between them make the cache claim an instant it half holds |
| SegmentStreams.StreamDeliversExactly | crates/datamancer/src/session.rs:1598-1810 | at every instant the data put out is the history where the stream is served (a failed fetch's confirmed part included) and nothing anywhere else |
| SegmentStreams.StreamDataIsTheHistory | crates/datamancer/src/session.rs:1598-1810 | if every replay opens, the data put out, in order, is exactly the history up to where the first failed fetch, or the last segment, is confirmed |
| SegmentStreams.StreamGapsExactly | crates/datamancer/src/session.rs:1613-1805 | the emitted gaps cover exactly what was missed: replays that did not open, and what a failed fetch did not confirm, on to the live edge |
| SegmentStreams.GapsCoverNothingDelivered | crates/datamancer/src/session.rs:1734-1805 | no gap is announced over an instant that was delivered |
| SegmentStreams.GapsNameTheSession | crates/datamancer/src/session.rs:1547-1561 | every gap names the session's provider and instrument and is stamped where it starts |
| SegmentStreams.BackfillAccountsForEveryInstant | crates/datamancer/src/session.rs:1613-1810 | at each instant of `[from, edge)` the output holds exactly the history or a gap covers it, unless a fetch that succeeded at the live edge lagged behind an instant that has events |
| SegmentStreams.LaggingFetchLeavesAHole | crates/datamancer/src/session.rs:1740-1752 | such a lag does lose an event without a gap |
| SegmentStreams.HistoricalIsFullyAccountedIffNothingIsAbandoned | crates/datamancer/src/session.rs:1734-1805 | without a live edge every instant is delivered or gapped if and only if the history is empty past the segment of the first failed fetch |
| SegmentStreams.FailureEndsWithProviderError | crates/datamancer/src/session.rs:1775-1805 | a stream with a failed fetch ends with that fetch's cause, stamped where its confirmed part ends |
| SegmentStreams.NothingElseIsStored | crates/datamancer/src/session.rs:1750-1791 | only a fetch in write mode changes the cache |
| FetchLocks.AtMostOneHolderPerKey | crates/datamancer/src/fetch_locks.rs:38-50 | under any interleaving of acquire, wait, cancel and drop, tasks on one key share one lock and at most one is past it |
| FetchLocks.AtMostOneSessionFetches | crates/datamancer/src/session.rs:1855-1897 | among any number of sessions on one key, none of whose fetches is cancelled midway, at most one fetches, calling the provider at most once per segment it found uncovered, and exactly once per segment when it is done |
| FetchLocks.EveryCoalescedWaiterIsCounted | crates/datamancer/src/session.rs:1872-1885 | the coalesced counter is exactly the number of sessions that waited for the slot and found their range filled |
| FetchLocks.UncontendedSession | crates/datamancer/src/session.rs:1855-1897 | alone on a covered range a session touches neither slot nor provider; else it calls the provider once per uncovered segment and leaves the range covered |
| FetchLocks.SlotIsReleased | crates/datamancer/src/fetch_locks.rs:38-50 | a holder that is done or cancelled lets the next waiter in |
| FetchLocks.Locks.Acquire | crates/datamancer/src/fetch_locks.rs:38-50 | upgrades a live entry or replaces a dead one with a fresh lock, as the protocol's acquire step does |
| Registry.AtMostOneLiveSessionPerKey | crates/datamancer/src/session.rs:347-518 | in every interleaving of probe, create, lost race, failed open and drop, a strongly held session that claimed its slot is the one the slot points to, hence unique per key |
| Registry.DropNeverRemovesALiveSuccessor | crates/datamancer/src/client.rs:178-217 | no drop, however late, takes a live successor out of its slot |
| Registry.NoSlotOutlivesItsSession | crates/datamancer/src/client.rs:178-217 | in every reachable state no slot points to a dropped session, so once every dead session is dropped the slots are those of live sessions |
| Registry.AddReturnsOkIffInserted | crates/datamancer/src/client.rs:133-149 | a returned `add_subscriber` is `Ok` if and only if the controller inserted that id |
| Registry.AddSucceedsWhileRunning | crates/datamancer/src/client.rs:133-149 | a running controller left alone inserts and acknowledges every queued add |
| Opening.OutcomesAreJustified | crates/datamancer/src/session.rs:347-518 | in every run with racing openers, exiting controllers and leaving referrers, a successful open holds a session that claimed its key, and an open refused with `SessionClosed` met one whose controller is gone |
| Opening.LingeringReferrerBlocksTheKey | crates/datamancer/src/session.rs:415-434 | while anybody holds a session whose controller has exited, no later open of that key succeeds, reaches the provider or replaces the session; those that finish are refused |
| Opening.UncontendedOpenOutcome | crates/datamancer/src/session.rs:347-518 | an open nobody interferes with is refused with `SessionClosed` if and only if a session of its key is held whose controller has exited; otherwise it shares the running one, or depends on the provider |
| PendingTable.FateIsDeterminedByTheSteps | crates/datamancer-client/src/ws.rs:132-212 | in every run what a request gets back is determined by the steps since: refused iff the reader had exited, failed iff its write failed, answered with `r` iff written and `r` is the first reply with its id before the exit, closed iff written and the exit came first |
| PendingTable.EveryRequestHasOneFinalFate | crates/datamancer-client/src/ws.rs:164-212 | in every run each request has one fate, a decided fate is final, a blocked caller is in the table, and `closed` implies an empty table |
| PendingTable.NobodyWaitsAfterReaderExit | crates/datamancer-client/src/ws.rs:76-82 | once the reader has exited no caller is or becomes blocked, and every later request is refused |
| PendingTable.Table.Register | crates/datamancer-client/src/ws.rs:164-184 | check-and-insert under the lock is the protocol's request step |
| PendingTable.Table.Forget | crates/datamancer-client/src/ws.rs:185-197 | a failed write takes out its own entry |
| PendingTable.Table.Route | crates/datamancer-client/src/ws.rs:132-141 | a reply is handed to the request still registered under its id, if any |
| PendingTable.Table.CloseAndClear | crates/datamancer-client/src/ws.rs:154-161 | latches and clears at once: no request stays registered |
| SymbolTables.DecodeInvertsEncodeIffNoSeparator | crates/datamancer-transport-iceoryx2/src/symbol_table.rs:89-122 | the tuple round-trips if and only if neither free-text field holds the separator, and is otherwise rejected as malformed |
| SymbolTables.InternKeepsDense | crates/datamancer-transport-iceoryx2/src/symbol_table.rs:175-190 | ids stay dense, injective, never reassigned and never the reserved one |
| SymbolTables.InternsIffItFits | crates/datamancer-transport-iceoryx2/src/symbol_table.rs:175-190 | an instrument is interned if and only if it already is, or its tuple fits and an id is left |
| SymbolTables.TupleOnTheWire | crates/datamancer-transport-iceoryx2/src/symbol_table.rs:89-97 | the tuple's pieces are provider, asset-class name and symbol, in that order |
| SymbolTables.SymbolTable.InternInstrument | crates/datamancer-transport-iceoryx2/src/symbol_table.rs:175-190 | known, new, too long and exhausted, each with its whole new state |
| SymbolTables.ResolverAgreesWithTable | crates/datamancer-transport-iceoryx2/src/symbol_table.rs:194-248 | applying any announcement of the table keeps every resolver entry equal to the table's, now and after more interning |
| Payloads.FromPodInvertsToPodIffProviderMatches | crates/datamancer-transport-iceoryx2/src/payload.rs:161-405 | a wire record reads back as its event if and only if a per-symbol control names its instrument's provider |
| Payloads.WhatGoesOnTheWire | crates/datamancer-transport-iceoryx2/src/payload.rs:161-280 | exactly the connection-scoped controls are suppressed; `SessionClosing` always travels, under the reserved id; everything else under its instrument's id or refused |
| Payloads.WireFormat | crates/datamancer-transport-iceoryx2/src/payload.rs:47-280 | which slot carries which field, and the kind, control and interval tags |
| HoldBuffers.HoldBuffer.ApplyAnnouncement | crates/datamancer-transport-iceoryx2/src/subscriber.rs:39-48 | a well-formed announcement is applied and releases what it resolves; a malformed one changes nothing |
| HoldBuffers.HoldBuffer.OfferSample | crates/datamancer-transport-iceoryx2/src/subscriber.rs:51-55 | the sample joins the end of the held queue before the queue is drained |
| HoldBuffers.HoldBuffer.DrainResolved | crates/datamancer-transport-iceoryx2/src/subscriber.rs:65-77 | releases resolved samples in held order, keeps unresolved ones in order, drops malformed ones |
| HoldBuffers.HoldBufferReproducesEachSymbol | crates/datamancer-transport-iceoryx2/src/subscriber.rs:39-77 | for every interleaving of the two services each symbol's released samples then its held ones are the well-formed samples received for it in order, held ones are exactly the unresolved, every received `SessionClosing` has been released in order, and each released event is the table's reading |
| Transport.PublishedSamplesReadBack | crates/datamancer-transport-iceoryx2/src/payload.rs:161-405 | in every sink run, with failing sends, concurrent deliveries, suppressed controls and refused tuples, each published sample reads back at any later time as the event it was made from, verbatim if and only if a per-symbol control names its instrument's provider |
| Transport.SinkAnnouncementsAreTrue | crates/datamancer-transport-iceoryx2/src/sink.rs:137-219 | whatever announcements of a sink a subscriber hears, each names what the sink's table interned |
| Transport.SubscriberReproducesPublishedEvents | crates/datamancer-transport-iceoryx2/src/subscriber.rs:39-77 | end to end over every sink run and every interleaving at the subscriber: for every symbol it can resolve, and for `SessionClosing`, it gives back exactly the events behind the samples it received, in order |
| Transport.AnnouncedSymbolsResolve | crates/datamancer-transport-iceoryx2/src/symbol_table.rs:231-248 | a symbol is resolved, for good, by any published announcement whose tuple fields hold no separator |
| Sinks.AnnounceBeforeDataIffTupleAccepted | crates/datamancer-transport-iceoryx2/src/sink.rs:152-232 | in every run with concurrent deliveries and failing sends, published data of a real symbol has an interned id and is preceded by its announcement if and only if its tuple is accepted |
| Sinks.UncontendedDelivery | crates/datamancer-transport-iceoryx2/src/sink.rs:152-206 | a delivery left alone publishes its sample, after its announcement if and only if that is due, and marks the symbol so that it is not announced again |
| Sinks.UnacceptedTupleIsPublishedUnannounced | crates/datamancer-transport-iceoryx2/src/sink.rs:177-206 | for every string type and every event whose tuple is short enough but not accepted, a run that publishes its data and never announces it |
| Sinks.PublishedAnnouncementsAgree | crates/datamancer-transport-iceoryx2/src/sink.rs:137-148 | every announcement ever published keeps any agreeing resolver in agreement with the table |
| Sinks.DataSink.Deliver | crates/datamancer-transport-iceoryx2/src/sink.rs:152-219 | for every combination of failing sends, what goes out in which order (announcement before sample, sample before republish), what is marked and counted, and exactly when failure is reported although the sample went out |
| Sinks.DataSink.Finish | crates/datamancer-transport-iceoryx2/src/sink.rs:208-218 | counts the sample and, exactly on every 256th, republishes; failure is reported exactly when that republish was cut short |
| Sinks.DataSink.RepublishAll | crates/datamancer-transport-iceoryx2/src/sink.rs:223-232 | the announcements of the whole table go out in id order up to the first failing send, and success means all of them did |
| Connection.LiveStats.RecordConnection | crates/datamancer/src/client.rs:414-447 | the phase and the reported transition after one control |
| Connection.PhaseIsTheLastRun | crates/datamancer/src/client.rs:414-447 | after any trace the phase is the last maximal run of connects or disconnects: `since` from its first control, cause from its latest |
| Connection.StreamsAreIndependent | crates/datamancer/src/client.rs:414-447 | a substream's phase depends on its own controls only |
| Connection.ReconnectsAreDownToUpTransitions | crates/datamancer/src/accounting.rs:133-141 | the provider's reconnect counter is the total number of down-to-up transitions over its substreams |
| Connection.ProviderAccounting.RecordProviderControl | crates/datamancer/src/accounting.rs:133-151 | counter, sticky facts and error text after one control and its transition |
| Connection.ProviderAccounting.RecordError | crates/datamancer/src/accounting.rs:155-159 | replaces the error text and nothing else |
| Connection.ProviderAccounting.RecordOpenFailure | crates/datamancer/src/accounting.rs:166-171 | an open failure records its text, and an unauthenticated one sets the sticky rejection |
| Connection.LastErrorIsTheLatest | crates/datamancer/src/accounting.rs:133-171 | the reported error is the latest text any error, rejection or failed open carried; no connect clears it |
| Connection.WhatLeavesAnErrorText | crates/datamancer/src/accounting.rs:133-171 | an error, a failed open or a surfaced failure leaves its text, a disconnect its reason if and only if it is a rejection |
| Connection.AuthFailedIffRejectedSinceConnect | crates/datamancer/src/accounting.rs:133-171 | the sticky rejection is set if and only if a rejection came after the last connect transition of any substream |
| Connection.ConnectionStateOf | crates/datamancer/src/accounting.rs:216-243 | the flag-setting loop computes the provider state |
| Connection.ProviderReadsAsItsWeightiestStream | crates/datamancer/src/accounting.rs:208-243 | with substreams the state is what the weightiest of them says (up, rejected, down, pending, in that order); without any the sticky facts decide |
| Connection.ProviderReadings | crates/datamancer-core/src/health.rs:238-258 | every provider reading, and exactly when it is given |
| Connection.ProviderStateIsOrderIndependent | crates/datamancer-core/src/health.rs:242-258 | the state does not depend on sampling order, and an enabled provider with subscriptions reads connected if and only if a substream is up |
| Connection.StaleIffDownOnAFault | crates/datamancer-core/src/health.rs:261-302 | a stream reads stale if and only if it is not backfilling and its last connection control was a disconnect not caused by disabling, and then since the first disconnect of that outage |
| Connection.HealthyReadings | crates/datamancer-core/src/health.rs:261-284 | when a stream without a fault reads backfilling, awaiting data, quiet, gapped or live |
| CivilDates.NextDayIsOneMore | crates/datamancerd/src/config.rs:634-659 | each valid date's successor is valid and counts one day more |
| CivilDates.EpochIsDayZero | crates/datamancerd/src/config.rs:634-659 | 1970-01-01 is day zero |
| CivilDates.DaysAreNaiveCounting | crates/datamancerd/src/config.rs:634-659 | from any date, `n` calendar steps are `n` days of the formula |
| CivilDates.DaysAreStrictlyMonotone | crates/datamancerd/src/config.rs:634-659 | the day count is strictly monotone in the calendar order |
| CivilDates.DayNumbersLocateDates | crates/datamancerd/src/config.rs:634-659 | two dates whose numbers differ by `n` are `n` calendar steps apart |
| Timestamps.EveryTextIsParsedToItsWorth | crates/datamancerd/src/config.rs:584-632 | every text laid out as a date, `T`, a clock, an optional fraction and `Z`, its fields signed or padded in any way, parses to the number of seconds one counts to it from the epoch, second by second by the rules of clock and calendar, in nanoseconds, plus its fraction; or is rejected when a part is impossible, the fraction is empty, too long or not digits, or the count or its whole-second part leaves `i64` |
| Timestamps.EveryMomentIsCounted | crates/datamancerd/src/config.rs:584-632 | every valid moment has exactly one number of seconds |
| Timestamps.LaterSecond | crates/datamancerd/src/config.rs:584-632 | each second later counts one more |
| Timestamps.ParsedValuesKeepStep | crates/datamancerd/src/config.rs:584-632 | two texts with the same fraction parse to values as many billions apart as there are seconds between them |
| Timestamps.AcceptedTextIsLaidOut | crates/datamancerd/src/config.rs:584-632 | nothing else is accepted: any text not rejected is laid out so |
| Timestamps.Rfc3339ParsesExactly | crates/datamancerd/src/config.rs:584-632 | every timestamp of RFC 3339 section 5.6 with upper-case `T` and `Z`, without a leap second, and a fraction of any length parses to its exact nanosecond count if and only if the fraction has at most nine digits and the count and its whole-second part fit `i64`, and is rejected otherwise |
| Timestamps.AnyWidthParsesExactly | crates/datamancerd/src/config.rs:584-632 | the same for fields padded to any width, which the standard does not allow |
| Timestamps.UnpaddedTextIsAccepted | crates/datamancerd/src/config.rs:584-632 | one such text, with its value |
| Timestamps.LongFractionIsRejected | crates/datamancerd/src/config.rs:584-632 | one text of the standard's form that is rejected for its ten fraction digits |
| Timestamps.LowerCaseIsRejected | crates/datamancerd/src/config.rs:584-632 | a text without an upper-case `T`, or not ending in an upper-case `Z`, is rejected |
| Timestamps.LowerCaseTextIsRejected | crates/datamancerd/src/config.rs:584-632 | one text of the standard's form that is rejected for its lower-case letters |
| Timestamps.ReturnedInstantIsExact | crates/datamancerd/src/config.rs:584-632 | whatever the text, a value is returned only if it is laid out in numeral fields denoting a valid moment with at most nine fraction digits, and is the exact count of seconds and nanoseconds to it |
| CivilDates.UncheckedArithmeticFits | crates/datamancerd/src/config.rs:650-658 | for years within 2.5e16 of zero every unchecked intermediate, `year - 1` to the final subtraction, stays in `i64` |
| Naming.ParsesLayout | crates/datamancer-transport-iceoryx2/src/naming.rs:207-228 | prefix, marker and numeral parse to exactly that prefix and value when both are acceptable, and to nothing otherwise, whatever the prefix contains |
| Naming.ParseInvertsPrint | crates/datamancer-transport-iceoryx2/src/naming.rs:196-228 | parsing a printed name is the identity exactly on well-formed names |
| Naming.PrintInvertsParseUpToZeros | crates/datamancer-transport-iceoryx2/src/naming.rs:196-228 | a parsed text is the printed name with some leading zeros in its id, and equal to it exactly when there are none |
| Naming.DerivedNamesAreValid | crates/datamancer-transport-iceoryx2/src/naming.rs:168-194 | both names of every client under an accepted prefix are valid |
| Naming.AdvertisedNameIsUsable | crates/datamancer-transport-iceoryx2/src/naming.rs:75-87 | under a granted boot-scoped prefix both services can be created and the advertised name parses back to its parts |
| Naming.AcceptedIffAllNamesValid | crates/datamancer-transport-iceoryx2/src/naming.rs:55-73 | the one check accepts a non-empty prefix if and only if all its names are valid |
| Naming.BootScopingIsInjective | crates/datamancer-transport-iceoryx2/src/naming.rs:75-87 | the scoped prefix determines prefix, start time and process |
| Naming.DataNamesNeverCollide | crates/datamancer-transport-iceoryx2/src/naming.rs:75-87 | a data name determines prefix, start time, process and client |
| Naming.DataNameIsNoAnnouncementName | crates/datamancer-transport-iceoryx2/src/naming.rs:168-199 | no data name equals any announcement name |
| Naming.OtherVersionsAreRefused | crates/datamancer-transport-iceoryx2/src/naming.rs:123-140 | a data name of any other wire version does not parse, even if its prefix holds this version's marker |

## Modelling choices

- Clocks, provider behaviour, send results and scheduling are parameters or
  nondeterministic steps. Channel and ring capacities are arbitrary.
- An event counts as handed over once it is queued to a consumer's channel; what
  a dropped stream leaves in its channel is documented as lost.
- The composed pipeline has one client. `FanOuts.ReferrerIsIndependentOfOthers`
  is why co-subscribers cannot matter.
- The pipeline and the pending table allow more runs than the source does (steps
  after closing, overlapping requests), so their theorems cover a superset.
- The provider is a fixed, time-ordered history and the cache a map from instants
  to stored events; other sessions may store between any two steps.
- What the fixed-capacity string type and the transport runtime accept is a
  parameter: theorems hold for every such predicate and length limit.
- Ordering is per `(instrument, kind)` and per subscription epoch, since each
  controller restarts its counter.

## Left out

- Alpaca providers, the Turso cache and the tap-log backends: represented by their contracts only.
- tokio scheduling, sockets, the shared-memory runtime and WebSocket handshakes: only channel and lock semantics are kept.
- The serde, TOML and JSON encodings and the WebSocket wire format: field-by-field copies that would only add easy members.
- `Price` and `Quantity` floating-point conversions: values are the raw integers the events carry.
- The config hub, credential hub, shutdown drain, web UI, CLI, logging and Windows integration: straight-line or foreign code.
- `LiveStats.subscribers`: the fan-out drops closed referrers without updating it, so no equality is claimed.
- Liveness ("the gap is eventually delivered"): a pending gap moves only on the next fan-out; safety forms are proved instead.
- A caller that drops its request future midway: its table entry stays until a reply or the close, which is not modelled.
- FetchLocks.AtMostOneSessionFetches: says nothing about a key one of whose fetches was cancelled midway, because a later session then rightly fetches again.
- HoldBuffers.HoldBufferReproducesEachSymbol: orders `SessionClosing` only among its own kind, because it needs no symbol and overtakes held samples.
- PipelineExit.SourceExitIsCleanIffNothingIsOwed: assumes strictly increasing timestamps, no `Gap` from the source and one subscription on the instrument; without them an earlier gap may happen to cover the lost events. What holds without them is `Pipeline.NoDataIsLostSilently`.
- Connection.StaleIffDownOnAFault: subtracts timestamps without `i64` overflow in the quiet and gapped comparisons, which do not affect the stale reading.
- Timestamps.EveryTextIsParsedToItsWorth: says only `Unchecked` for years beyond 2.5e16 of zero, where the source's unchecked arithmetic depends on the build.
- Naming.OtherVersionsAreRefused: is about names of the data shape; other texts are covered by the exact parse lemmas.
