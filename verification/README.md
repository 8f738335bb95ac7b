# A verified model of poseidon-http-server

This project models the parts of poseidon-http-server that are hardest to get right and proves what they
promise. Its core is the HTTP/2 connection engine in `conn/`: a concurrent protocol with hand-built linked lists, 32-bit
window arithmetic and compare-and-swap state. Beside it stand the keyed rate limiter and the lock-free metric views of
`middleware/`, and the protobuf wire reader and writer of `grpcserver/`.

`dafny verify dfyconfig.toml` checks everything.

## How it is built

Concurrent parts are transition systems. One action is one critical section of the source (a section under `fcOutMu`, `ss.mu`,
`wmu` or the table lock, or one compare-and-swap), `Step` is total, and a theorem quantifies over every
schedule of any number of goroutines. Objects the source updates in place are classes, and each of their methods is
proved against a function on values; the theorems are then about those functions.

Each machine is fixed from two sides. Safety theorems say what no interleaving does. Beside them stand theorems that say what
must happen: what an actor achieves when nobody interferes (`...Paths`), that the state is exactly what the run's events make it
(`...History`), and what every input leads to, in terms of the state before it (`...Law`).

| part | value or transition system | objects |
|---|---|---|
| outbound flow control, parked writers | `ParkQueue`, `ParkLists`, `Chains`, `Outbound`, `OutboundLedger`, `OutboundProgress`, `OutboundPaths`, `OutboundHistory` | `FcWaiters` |
| stream identifiers, SETTINGS walk, GOAWAY | `StreamTable`, `TableLaw`, `GoAway` | `StreamTable` |
| one body as DATA frames | | `DataChunks` (methods, no object) |
| state word, wire order, release | `StreamState`, `StreamLife`, `StreamHistory`, `StreamPaths` | |
| frame handler, header blocks, events | `Inbound`, `EventOrder`, `FieldSections`, `OpenBlocks`, `ResetBudget`, `ReaderLaw` | `ServerConnHandler` |
| receive windows | `RecvWindow`, `StreamUpload` | `RecvWindow` |
| rate limiter | `TokenBucket`, `BucketLaw`, `Limiter`, `SweepTransparency`, `ClientLaw` | `KeyedLimiter` |
| metrics | `Metrics`, `MetricsRequests`, `MetricsRuns`, `MetricsLaw` | `MetricsCollector` |
| protobuf wire format | `ProtoWire` | `ProtoWire` |

## Where a promise needs a condition

Each of these is stated by the documentation or comments of the source without the condition. The model follows the code; a
lemma exhibits the failing case and another gives the exact condition.

- `middleware/ratelimit.go:29-33` and `middleware/ratelimit.go:170-174` say the effective idle TTL is never below the refill time, so an idle
  eviction loses no accuracy. The refill time is clamped at 24 hours, so this holds if and only if
  burst / rate is at most one nanosecond over the larger of 24 hours and the configured TTL, or twice that under a cap of one
  bucket (`SweepTransparency.ConfiguredTransparentIff`, `SweepTransparency.UncoveredDiffers`).
- `middleware/metrics.go:692-693` says a view that went stale during a request never gives a wrong answer, and
  `middleware/metrics.go:587-592` that a view never folds a label for which there is room. A request loads the views once, and its own
  counter lookup may sweep: a later lookup then counts on a series just removed (`MetricsRuns.LatencyMayBeLost`), or folds although
  there is room again (`MetricsRuns.MayFoldWithRoom`). One or the other happens if and only if a sweep was due when the request began, an
  earlier label was in no live series, and the series found in the view is idle past the TTL, or the swept store has room
  (`MetricsRequests.StaleIff`, `MetricsRequests.LostIff`). All of it is known when the request begins, and a caller that loads
  the views for each lookup is never affected (`MetricsRuns.PlainRunsAreFresh`).
- `grpcserver/reflection.go:147` calls the integer conversions safe. The reader slices out of range or steps backwards if and only if it
  meets a length that reaches past the data in the field it wants, or past 2^63 in one it passes (`ProtoWire.OverrunIff`,
  `ProtoWire.TruncatedFieldOverruns`).
- `conn/server_conn.go:264-267` says the enlarged connection window is advertised. The increment is measured against the
  window as it stands after the handshake, so octets received during the handshake and still waiting for their refund are
  never announced. The client gets the whole window if and only if none are waiting (`RecvWindow.AnnouncedInFullIff`,
  `RecvWindow.AnnouncementMayFallShort`).
- `conn/server_stream.go:208-228` explains why nothing follows a reset. HEADERS, DATA and PUSH_PROMISE indeed do not; a WINDOW_UPDATE of
  `creditConsumed` may, if and only if its goroutine was past the reset check already (`StreamLife.UpdateMayFollowReset`,
  `StreamLife.LateUpdateIff`).
- An upload whose body is always read stalls all the same when padding, which is debited and never refunded, and
  the 32767 octets that may wait for the threshold reach the seed: `StreamUpload.StallIff`.
- `conn/stream_table.go:136-153` counts the admissions. Admitting an identifier that is already live, as the h2c upgrade may
  (`conn/server_upgrade.go:42`) for frames that arrived during the handshake, counts it twice: `StreamTable.AdmitSoundIff`,
  `StreamTable.UpgradeMayCountTwice`.
  Reservation of pushed streams stays sound until the 32-bit identifier wraps: `StreamTable.PushSoundIff`.
- A protobuf field number survives its tag if and only if it is one of the first 2^61: `ProtoWire.TagRoundTrip`.
- `conn/server_conn.go:293-295` says a connection sends at most one GOAWAY. Close sends its own: there are two if and only if another
  sender asked and told before Close began, and Close told as well (`GoAway.GoAwayCount`, `GoAway.GoAwayMayBeSentTwice`).
- A GOAWAY announces the highest identifier used (`conn/server_conn.go:853-869`), above which section 6.8 of RFC 9113 lets the client
  take its streams as not processed; `conn/server_conn.go:853-854` says that no stream is accepted any more. Neither admission nor
  AcceptStream looks at it, so the announcement holds if and only if no later HEADERS uses up a higher identifier (`GoAway.AnnouncedHoldsIff`, `GoAway.LateStreamMayBeServed`).
- `conn/server_handler.go:399-402` calls a stream that vanishes between HEADERS and CONTINUATION unreachable. It is gone if and only if
  since its HEADERS another goroutine carried out a release that was due, or the upgrade was refused in its place
  (`OpenBlocks.VanishedIff`, `OpenBlocks.StreamMayVanish`).
- `conn/fc_waiters.go:79-81` has stream windows grow under `fcOutMu` only. A refund holds it; an accepted WINDOW_UPDATE and a raised initial
  size take the stream's own lock alone, and there is no other growth (`OutboundLedger.GrowthIff`,
  `OutboundLedger.GrowsUnderAnothersLock`). This is why the wakeup invariant carries wakes that are still owed.

## Model

| member | source | states |
|---|---|---|
| `Windows.AddWindowSaturating` | conn/server_ops.go:855-862 | for a 32-bit window and a non-negative refund, the sum capped at 2^31-1, never below the window and never wrapped |
| `Windows.TakeAmount` | conn/server_ops.go:721-740 | nothing exactly when one window is empty, otherwise the largest positive amount that both windows and the request allow |
| `ParkQueue.Park` | conn/fc_waiters.go:93-116 | the writer is queued afterwards, once, however often it parks; a newcomer goes in front and everybody else stays in place |
| `ParkQueue.Drop` | conn/fc_waiters.go:119-148 | exactly the other writers stay, still distinct |
| `ParkQueue.DropSplits` | conn/fc_waiters.go:119-148 | and in order: dropping from a queue is dropping from its parts |
| `ParkQueue.Woken` | conn/fc_waiters.go:169-208 | the writers a notification releases are exactly those it hits: all, the connection-blocked ones, or one stream's |
| `ParkQueue.After` | conn/fc_waiters.go:169-208 | exactly the writers the notification does not hit stay queued |
| `Chains.PushKeepsChain` | conn/fc_waiters.go:99-111 | pushing in front of a doubly linked list spells out the list with the node in front, in both directions |
| `Chains.UnlinkKeepsChain` | conn/fc_waiters.go:125-143 | unlinking any node of a doubly linked list leaves links that spell out the rest in order, in both directions, from the new head |
| `Chains.UnlinkKeepsTail` | middleware/ratelimit.go:303-313 | the tail moves exactly when the last node is unlinked |
| `ParkQueue.AfterSplits` | conn/fc_waiters.go:169-208 | and in order |
| `ParkLists.ResampleKeeps` | conn/server_ops.go:782-784 | a waiter that is not queued may record a new reason; lists, flags and counter still describe the queue |
| `ParkLists.LinkIsPark` | conn/fc_waiters.go:93-116 | linking a waiter into the connection list, its stream's list, the flag and the counter together is parking it: all four still describe one queue |
| `ParkLists.PartIsUnpark` | conn/fc_waiters.go:119-148 | unlinking a waiter from all of them is taking it out of that queue, and nothing if it is not queued |
| `FcWaiters.SendSide.constructor` | conn/server_conn.go:333-344 | empty lists, no writer parked, connection window 65535 |
| `FcWaiters.SendSide.SampleNeedConn` | conn/server_ops.go:778-784 | the waiter records whether only the connection window holds it back; the queue is untouched |
| `FcWaiters.SendSide.DrainReady` | conn/server_ops.go:794-801 | a late token is dropped, and no other |
| `FcWaiters.SendSide.TryOrPark` | conn/server_ops.go:774-786 | credit from both windows, or the writer in front of the queue with the reason it has at that moment |
| `FcWaiters.SendSide.ParkTurn` | conn/server_ops.go:767-787 | queue, tokens and windows on the heap move as Take, Sample and Park of the transition system |
| `FcWaiters.SendSide.Resume` | conn/server_ops.go:792-801 | out of the queue and without a token |
| `FcWaiters.SendSide.ResumeTurn` | conn/server_ops.go:792-801 | and as Relock of the transition system |
| `Outbound.TryOrParkSteps` | conn/server_ops.go:767-787 | Take, Sample and Park in a row do to queue, tokens and windows what one turn of the loop does |
| `Outbound.ResumeSteps` | conn/server_ops.go:792-801 | Relock does to them what leaving the select does |
| `FcWaiters.SendSide.FcPark` | conn/fc_waiters.go:93-116 | the heap lists, flags and counter describe the queue with this writer in front, or unchanged if it was parked already |
| `FcWaiters.SendSide.FcUnpark` | conn/fc_waiters.go:119-148 | they describe the queue without this writer; idempotent |
| `FcWaiters.SendSide.FcWake` | conn/fc_waiters.go:155-161 | the writer leaves the queue and holds its one token, and nobody else is touched |
| `FcWaiters.SendSide.FcWakeAll` | conn/fc_waiters.go:169-175 | the walk that unlinks as it goes terminates, empties the queue and hands a token to exactly those who were in it |
| `FcWaiters.SendSide.FcWakeConn` | conn/fc_waiters.go:185-196 | exactly the connection-blocked writers leave the queue with a token |
| `FcWaiters.SendSide.FcWakeStream` | conn/fc_waiters.go:202-208 | exactly the writers of that stream leave the queue with a token |
| `FcWaiters.SendSide.TakeSendCredits` | conn/server_ops.go:721-740 | both windows are debited by the same TakeAmount, or neither |
| `FcWaiters.SendSide.ReleaseSendCredits` | conn/server_ops.go:832-851 | both windows get the refund up to saturation, then the stream's writers and the connection-blocked ones leave the queue, each with its token |
| `FcWaiters.SendSide.OnConnWindowUpdate` | conn/server_ops.go:293-306 | refused with nothing changed exactly when the sum passes 2^31-1; otherwise the window grows and exactly the connection-blocked writers leave the queue, each with its token |
| `OutboundLedger.EveryRunKeepsInv` | conn/server_ops.go:686-851 | every schedule of any number of writers, grants, SETTINGS, admissions, refunds and Close keeps lock, queue, wakeup, window and ledger invariants together |
| `OutboundLedger.NoLostWakeup` | conn/server_ops.go:752-803 | in every reachable state a queued writer with credit in both windows has a wake covering it still owed; one parked for stream credit with no wake owed has an empty stream window; a writer in its select is queued or has its token |
| `OutboundLedger.NobodySleepsOnCredit` | conn/server_ops.go:752-851 | whenever no notifier is in between, no queued writer could take a single octet, and after Close nobody is queued |
| `OutboundProgress.SettlingEnds` | conn/server_ops.go:752-851 | what the holder of fcOutMu, the reader and Close have begun takes only so many more steps in any order, and while the connection is not at rest one of them can be made |
| `OutboundProgress.OwedWakesArrive` | conn/server_ops.go:752-851 | from every reachable state those steps alone lead to rest or to a connection error; at rest nobody is queued who could take an octet |
| `OutboundPaths.WriteIsServed` | conn/server_ops.go:686-740 | from every reachable state a write of a stream with credit in both windows gets the smallest of its request and the two windows, taken from both |
| `OutboundPaths.WriteParks` | conn/server_ops.go:686-787 | from every reachable state a write without credit ends up in front of the queue, with the reason it has, and takes nothing |
| `OutboundPaths.WokenIsServed` | conn/server_ops.go:752-803 | from every reachable state a writer in or out of its select that finds credit goes back to takeSendCredits and gets its share |
| `OutboundPaths.WokenParksAgain` | conn/server_ops.go:767-801 | and one that finds none is queued again |
| `OutboundPaths.SleeperSends` | conn/server_ops.go:752-851 | at rest a writer in its select whose stream and connection have credit has its token, and by its own steps puts its share on the wire |
| `OutboundPaths.ClosedGivesUp` | conn/server_ops.go:762-770 | on a closed connection it leaves without credit, queue entry or token |
| `OutboundPaths.SomebodyWaits` | conn/server_ops.go:752-787 | a reachable state in which a writer is queued |
| `OutboundHistory.ConnIsHistory` | conn/server_ops.go:228-306 | over every run the connection's books are the increments it took and the DATA it wrote, the initial size is the last SETTINGS value, the streams are those admitted and not released, and it is closed or failed exactly if that happened |
| `OutboundHistory.StreamIsHistory` | conn/server_ops.go:307-350 | over every run a stream's books are the increments it took and the DATA written on it |
| `OutboundHistory.RestTakesAll` | conn/server_ops.go:228-350 | at rest every increment, SETTINGS value, new stream, release and Close takes effect, or overflows exactly past 2^31-1 |
| `OutboundLedger.StreamCreditLedger` | conn/server_ops.go:228-288 | whenever the table lock is free, window + written + held credit equals the peer's current initial size + grants, less what saturation or an abandoned write lost: each SETTINGS delta reaches each live stream once |
| `OutboundLedger.NeverOversend` | conn/server_ops.go:501-535 | in every run the connection window stays in [0, 2^31-1] and DATA written plus credit held is at most 65535 plus the accepted increments |
| `OutboundLedger.DeltaNeverWraps` | conn/server_ops.go:266-275 | the narrowing of the SETTINGS delta to 32 bits, tested only from above, is exact in every reachable state |
| `OutboundLedger.WindowBounds` | conn/server_ops.go:266-275 | every live stream keeps initial - (2^31-1) <= window <= 2^31-1 |
| `OutboundLedger.GrowthIff` | conn/fc_waiters.go:79-81 | in every reachable state an action raises a stream window if and only if it is a refund by the holder of fcOutMu below the maximum, an accepted increment, or a raised initial size |
| `OutboundLedger.GrowsUnderAnothersLock` | conn/server_ops.go:319-344 | a reachable state in which a writer holds fcOutMu and a WINDOW_UPDATE raises its stream's window |
| `OutboundLedger.RefusedChunkRestores` | conn/server_ops.go:517-525 | a chunk taken and then refused by authorizeSend puts both windows and the books back exactly |
| `DataChunks.MaxFrame` | conn/server_ops.go:464-475 | the smaller of the two limits, 16384 if one of them is zero |
| `DataChunks.GrantedFits` | conn/server_ops.go:502-510 | whatever is granted, every chunk is non-empty and within the frame size |
| `DataChunks.GrantedEnds` | conn/server_ops.go:511-533 | END_STREAM is on the last chunk only, exactly if it was asked for and the body is complete |
| `DataChunks.WriteServerDataChunks` | conn/server_ops.go:501-535 | the chunks carry a prefix of the body in order, each all its credit, and stop short exactly where credit or authorisation is refused |
| `DataChunks.WriteServerData` | conn/server_ops.go:460-498 | nothing on a closed connection; an empty body is no frame or a bare END_STREAM; success means the whole body was sent and the stream ended if asked |
| `StreamTable.AdmitSoundIff` | conn/stream_table.go:136-153 | admission keeps counts equal to populations if and only if the identifier is odd and not live (or refused and harmless) |
| `StreamTable.UpgradeMayCountTwice` | conn/server_upgrade.go:40-46 | stream 1 admitted again by the h2c upgrade is counted twice |
| `StreamTable.PushSoundIff` | conn/stream_table.go:168-188 | a reservation keeps the table sound if and only if it is refused or the 32-bit counter does not wrap |
| `StreamTable.ReleaseSound` | conn/stream_table.go:198-212 | a release keeps the counts right and the identifier gone, live or not |
| `StreamTable.IdentifierSpace` | conn/stream_table.go:97-212 | in every run the counts are the odd and even populations, clients stay within the limit, and live means not idle |
| `StreamTable.NeverIdleAgain` | conn/stream_table.go:97-102 | an identifier that is not idle never becomes idle again |
| `StreamTable.NeverRegisteredAgain` | conn/stream_table.go:136-212 | an identifier once released is never registered again |
| `TableLaw.CountersRefinePopulation` | conn/stream_table.go:97-212 | over every run the table with counters holds the same streams, uses up the same identifiers and fails at the same frame as one that counts its streams |
| `TableLaw.HeadersRegisterIff` | conn/stream_table.go:109-153 | after every run HEADERS with a new identifier registers the stream if and only if there is no limit or fewer client streams are live, and uses the identifier up either way |
| `TableLaw.PushRegistersIff` | conn/stream_table.go:168-188 | after every run a push takes the next even identifier if and only if the client sets no limit or fewer pushed streams are live |
| `GoAway.GoAwayNeverRises` | conn/server_conn.go:814-869 | over every run of the GOAWAY senders the last-stream-ids never rise and are 0 or odd |
| `GoAway.AnnouncedIdentifier` | conn/server_conn.go:814-869 | every GOAWAY carries the highest client identifier at that moment, 2^31-1 for the graceful one, or the least announced so far if that is lower |
| `GoAway.GoAwayCount` | conn/server_conn.go:581-616 | a run sends one GOAWAY if a sender asked and told before Close began, and one more if Close told: two if and only if both |
| `GoAway.GoAwayMayBeSentTwice` | conn/server_conn.go:997-1013 | a graceful announcement and then Close: 2^31-1, then 0 |
| `GoAway.AnnouncedHoldsIff` | conn/server_conn.go:853-869 | no identifier above the announced one has been used if and only if no HEADERS after the announcement uses one up |
| `GoAway.LateStreamMayBeServed` | conn/stream_table.go:109-153 | a stream admitted after a GOAWAY that announced 0 |
| `StreamTable.Table.Lookup` | conn/stream_table.go:80-84 | finds a stream exactly for the live identifiers, and it is the one that bears the identifier |
| `StreamTable.Table.ValidateClientId` | conn/stream_table.go:109-119 | accepts exactly the odd identifiers above every earlier one |
| `StreamTable.Table.AdmitClient` | conn/stream_table.go:136-153 | the table becomes the Admit of the identifier space; a sound one refuses if and only if there is a limit and as many client streams are live; seeds the window and registers only on success |
| `StreamTable.Table.ReservePushed` | conn/stream_table.go:168-188 | reserves the next even identifier, seeds and registers the stream in one step, or changes nothing; a sound table refuses if and only if the client sets a limit and as many pushed streams are live |
| `StreamTable.Table.ReleaseStream` | conn/stream_table.go:198-212 | removes and returns the stream if live, with the right count |
| `StreamTable.Table.ApplyInitialWindow` | conn/stream_table.go:250-265 | every live stream is moved by the delta exactly once in any walking order; an error exactly when one would pass 2^31-1, which is then left alone |
| `StreamTable.Table.Drain` | conn/stream_table.go:269-279 | hands back every live stream, each once, and leaves an empty table |
| `StreamState.Advanced` | conn/stream_state.go:82-92 | no fact is ever lost, the delta is in, closed stays closed and unwritable stays unwritable |
| `StreamState.MaskMeaning` | conn/stream_state.go:46-72 | the bit masks test what the predicates say |
| `StreamState.PackIsFaithful` | conn/stream_state.go:82-92 | one OR on a packed word is one advance, and its early return tests that nothing is new |
| `StreamState.AdvanceIsAtomic` | conn/stream_state.go:82-92 | every interleaving of any number of CAS loops equals a sequential history of advances, each returning the word just before its own |
| `StreamState.AdvanceAlone` | conn/stream_state.go:82-92 | undisturbed, one load and one CAS take effect and return the word as it was, without the CAS exactly if nothing is new |
| `StreamState.ExactlyOneCloses` | conn/server_stream.go:323-331 | markRemoteEnd racing markLocalEnd, in any company: exactly one of the two reports full closure |
| `StreamLife.NothingFollowsReset` | conn/server_ops.go:594-677 | in every interleaving of writers, pushers and reset paths, no HEADERS, DATA or PUSH_PROMISE of the stream follows its RST_STREAM on the wire |
| `StreamLife.NoStrandedStream` | conn/server_stream.go:171-204 | a registered stream in a terminal state always has an actor that still owes its markStreamDone |
| `StreamLife.RegistryAtRest` | conn/server_stream.go:301-377 | once every actor is done, a registered stream is not terminal and was not reset, and a released one is not writable |
| `StreamLife.TerminalIsReleased` | conn/server_stream.go:171-204 | and from there some continuation releases it |
| `StreamHistory.WordIsHistory` | conn/server_stream.go:301-377 | over every run the word says the client has ended if and only if the stream was pushed or END_STREAM or RST_STREAM came, the server if and only if its END_STREAM was recorded, and reset if and only if one was |
| `StreamHistory.RunKeepsEnd` | conn/server_stream.go:171-204 | over every run END_STREAM is on the wire if and only if it is recorded or its writer is about to record it |
| `StreamHistory.ReleasedOnlyWhenOver` | conn/server_stream.go:323-331 | a stream is released only when it is reset, ended by both sides, or answered with 431 |
| `StreamHistory.RegisteredIff` | conn/server_stream.go:301-377 | once every actor is done a stream is registered if and only if no reset was recorded, no 431 given, and not both halves have ended: the client's by its frames, the server's by an END_STREAM on the wire |
| `StreamPaths.SendPath` | conn/server_stream.go:171-234 | undisturbed, HEADERS or DATA goes out if and only if the stream takes frames |
| `StreamPaths.SendRecords` | conn/server_stream.go:171-204 | then fields and END_STREAM are recorded, and the stream is released if and only if END_STREAM went out and the client has ended |
| `StreamPaths.PushPath` | conn/push.go:70-178 | PUSH_PROMISE goes out if and only if the stream is registered |
| `StreamPaths.CreditPath` | conn/server_stream.go:282-298 | WINDOW_UPDATE goes out if and only if the stream was not reset |
| `StreamPaths.ResetPath` | conn/server_ops.go:594-627 | a reset is recorded, written and released |
| `StreamPaths.ClosePath` | conn/server_stream.go:301-310 | Close does so if and only if the stream is not over already |
| `StreamPaths.OverflowPath` | conn/server_stream.go:361-377 | a full event buffer does so if and only if no reset was recorded before |
| `StreamPaths.ByIdPath` | conn/server_ops.go:639-677 | a reset by identifier is written in any case, and recorded and released exactly on a registered stream |
| `StreamPaths.RemoteEndPath` | conn/server_stream.go:323-325 | END_STREAM is recorded and releases the stream if and only if the server has ended |
| `StreamPaths.ClientResetPath` | conn/server_stream.go:345-347 | RST_STREAM is recorded in both halves, releases the stream and is not answered |
| `StreamPaths.AnswerPath` | conn/server_handler.go:162-168 | the 431 answer goes out if and only if the stream takes frames, and releases it either way |
| `StreamLife.UpdateMayFollowReset` | conn/server_stream.go:282-298 | a reachable wire on which WINDOW_UPDATE follows RST_STREAM |
| `StreamLife.LateUpdateIff` | conn/server_stream.go:295-297 | from any reachable reset state some continuation writes a WINDOW_UPDATE if and only if an actor is past its reset check |
| `Inbound.HpackInSync` | conn/server_handler.go:261-410 | over every run without a connection error the shared decoder was fed exactly the completed header blocks, once each, in order, accepted every one, and the open buffer is the open fragments within maxHeaderBytes |
| `Inbound.BlocksAreTheFragments` | conn/server_handler.go:326-392 | the completed blocks of a stream and its open rest are the fragments in its frames in order, with one block for each END_HEADERS: no octet lost, added or moved between blocks or streams |
| `EventOrder.EventGrammar` | conn/server_handler.go:193-259 | over every run the events of a stream not reset, registered or released, are a prefix of Headers Data* Trailers?, and the one that ends the stream is last |
| `EventOrder.BodyIsComplete` | conn/server_handler.go:193-259 | over every run the Data events of a stream not reset, registered or released, concatenate to the payloads of all DATA frames it took while registered and open; its request has ended if and only if the event that says so was queued |
| `EventOrder.NothingTurnedAway` | conn/server_handler.go:193-259 | while a stream is registered and not reset, those are the payloads of every DATA frame sent on it (on stream 1, since an upgrade took its place) |
| `FieldSections.FieldsAreGenuine` | conn/server_handler.go:440-577 | every field section ever shown on a stream is what the decoder made, in its turn, of one block that came in frames of that stream, not oversized and not malformed, or the request of the upgrade |
| `OpenBlocks.VanishedIff` | conn/server_handler.go:398-402 | over every run the stream of an open block is gone if and only if since its HEADERS it was taken out by another goroutine or a refused upgrade and not put back |
| `OpenBlocks.StreamMayVanish` | conn/server_handler.go:398-402 | a run in which it is gone before its CONTINUATION |
| `ResetBudget.RapidResetsCounted` | conn/server_ops.go:136-152 | over every run that has not failed, the count is the number of resets of open requests and of streams already gone, and within the budget |
| `ResetBudget.BudgetIsExact` | conn/server_ops.go:136-152 | after any run, one more of them is a connection error if and only if the budget is used up |
| `ReaderLaw.FailsExactly` | conn/server_handler.go:186-410 | every connection error and its code, in terms of the frame and the state before it, and no other |
| `ReaderLaw.AnswersExactly` | conn/server_handler.go:193-577 | which reset or 431 the reader writes for each input, with its code, in terms of the frame and its stream before it, and that it writes nothing else |
| `ReaderLaw.StreamsExactly` | conn/server_handler.go:193-615 | what each input makes of every stream, one fact at a time: registered, fields seen, either half ended, reset, the events queued and read; the other streams stay as they are |
| `ReaderLaw.SentIsAnswers` | conn/server_handler.go:193-615 | over every run what the reader has written is exactly those answers, in order |
| `ReaderLaw.HighestIsOpened` | conn/server_handler.go:261-325 | over every run the identifiers up to the highest opened one are used up, and no stream lies above |
| `ReaderLaw.OpenBlockRemembers` | conn/server_handler.go:326-357 | over every run an open block remembers whose it is, whether it ends the request, is a trailer section or will be dropped, as its HEADERS frame said and found |
| `ReaderLaw.ProperIsDelivered` | conn/server_handler.go:551-577 | after every run a block that completes in turn on a registered stream whose request is open, decodes, is within the limit and well-formed and finds room becomes one event with those fields; nothing is answered, reset or touched besides |
| `ServerConnHandler.Visit` | conn/server_handler.go:460-476 | flags exactly the prohibited and the oversized lists and otherwise collects names, values and spans of all fields |
| `ServerConnHandler.Materialise` | conn/server_handler.go:477-489 | the spans cut the shared buffer back into exactly the fields that went in |
| `ServerConnHandler.OwnedCopy` | conn/server_handler.go:418-438 | the slab's slices are the same fields |
| `ServerConnHandler.Handler.constructor` | conn/server_handler.go:139-157 | no open block, nothing fed, no stream |
| `ServerConnHandler.Handler.PushEvent` | conn/server_stream.go:361-377 | queues the event, or resets the stream when the buffer is full |
| `ServerConnHandler.Handler.RespondFieldsTooLarge` | conn/server_handler.go:162-168 | 431 with END_STREAM if the stream takes frames, then release either way |
| `ServerConnHandler.Handler.DeliverEvent` | conn/server_handler.go:562-576 | end recorded first, event pushed next, release last and only when both halves have ended |
| `ServerConnHandler.Handler.DiscardHeaderBlock` | conn/server_handler.go:365-374 | the block still reaches the decoder and the block state is cleared |
| `ServerConnHandler.Handler.EmitHeaderBlock` | conn/server_handler.go:440-577 | does what Emit does: decode, size, half-closed, malformed and delivery in that order |
| `ServerConnHandler.Handler.HandleData` | conn/server_handler.go:193-259 | does what OnData does in every branch, error codes included |
| `ServerConnHandler.Handler.RegisterStream` | conn/server_ops.go:43-125 | registers the stream or resets it with REFUSED_STREAM, using the identifier up either way |
| `ServerConnHandler.Handler.HandleHeaders` | conn/server_handler.go:261-357 | does what OnHeaders does in every branch, error codes included |
| `ServerConnHandler.Handler.HandleContinuation` | conn/server_handler.go:376-410 | does what OnContinuation does in every branch, error codes included |
| `ServerConnHandler.Handler.HandleRst` | conn/server_handler.go:583-615 | both halves closed and reset recorded before the event, release after it; a reset of an open request or of a stream already gone is charged; idle and over-budget errors |
| `ServerConnHandler.Handler.OnClientRst` | conn/server_ops.go:136-152 | only rapid resets are charged, and the one past the budget is a connection error |
| `ServerConnHandler.Handler.SeedUpgradedStream` | conn/server_upgrade.go:40-64 | the upgrade's request becomes stream 1, ended; refused at the limit or for want of queue room; a stream 1 that is there loses its place |
| `RecvWindow.EffectiveConnRecvWindow` | conn/server_conn.go:253-262 | the option brought into [65535, 2^31-1] |
| `RecvWindow.StreamAccount.CreditConsumed` | conn/server_stream.go:282-298 | saves the octets up, and from 32768 on returns all of them to the window and announces as much |
| `RecvWindow.ConnAccount.OnDataReceived` | conn/server_ops.go:366-404 | overdrawn exactly when either window is too small; otherwise the stream is only debited and the connection refunded |
| `RecvWindow.NeverOverdrawn` | conn/server_ops.go:382-396 | with DATA and WINDOW_UPDATE in flight, window + pending is the effective window in every run, and a client spending only received credit never draws FLOW_CONTROL_ERROR |
| `RecvWindow.NeverStalled` | conn/server_ops.go:382-403 | with nothing in flight the client always has at least 32768 octets of credit |
| `RecvWindow.AnnouncedInFullIff` | conn/server_conn.go:268-274 | the client is ever told of the whole enlarged window if and only if no octets wait for a refund when it is announced |
| `RecvWindow.AnnouncementMayFallShort` | conn/server_conn.go:268-274 | a run in which it is not |
| `StreamUpload.StreamLedger` | conn/server_ops.go:366-381 | for a stream not reset, at every step of reader and handler, window + pending + unread + padding + what is in hand is the seed |
| `StreamUpload.ObedientClientIsServed` | conn/server_ops.go:369-381 | a client within the seed plus its grants never overdraws, and the counters stay in the 32-bit range |
| `StreamUpload.StallIff` | conn/server_stream.go:286-297 | an upload with at most that much padding can never stall at rest if and only if padding + 32767 is below the seed |
| `StreamUpload.ResetIsHistory` | conn/server_stream.go:282-298 | over every run the stream is reset exactly if its handler gave it up or its buffer was full, nothing is granted from then on, and a frame overdraws exactly if it is longer than the window |
| `TokenBucket.AdmissionBound` | middleware/ratelimit.go:370-392 | in any interval, whatever the clock does in it, at most burst + rate * (t1 - t0) requests are admitted |
| `TokenBucket.TokensAreServed` | middleware/ratelimit.go:370-392 | the bound is reached: requests at one instant are admitted one per token held |
| `TokenBucket.AllowKeepsSound` | middleware/ratelimit.go:379-391 | tokens stay between 0 and burst |
| `BucketLaw.TokenLedger` | middleware/ratelimit.go:370-392 | whatever the clock does: tokens left + requests admitted + tokens that did not fit = tokens at first + gain, so below the cap every token is held or has served a request |
| `BucketLaw.AdmittedIff` | middleware/ratelimit.go:370-392 | under a clock that does not go back a bucket that was full admits a request if and only if no interval that ends with it would hold more than burst + rate * length |
| `BucketLaw.DenialCostsNothing` | middleware/ratelimit.go:387-391 | dropping a denied request from a run changes no other answer |
| `Limiter.ResolveMaxBuckets` | middleware/ratelimit.go:159-168 | no cap exactly for a negative setting, the default for zero, a positive one as it is |
| `Limiter.ClampedRefill` | middleware/ratelimit.go:183-188 | the refill time in whole nanoseconds, a day where it truncates to nothing or reaches one |
| `Limiter.ResolveIdleTTL` | middleware/ratelimit.go:175-193 | no sweep exactly for a negative setting, otherwise the larger of that and the configured or default floor |
| `Limiter.BoundedAndListed` | middleware/ratelimit.go:227-252 | after every run, whatever the clock, the list holds exactly the map's keys once each and the map is within the cap |
| `Limiter.ListIsInsertionOrder` | middleware/ratelimit.go:274-296 | the list is always in insertion order, so an eviction takes the oldest insertion |
| `SweepTransparency.RunsAgree` | middleware/ratelimit.go:227-266 | when the TTL covers the refill time, every monotone run without a forced eviction answers as a limiter that never forgets a key |
| `SweepTransparency.CoversIff` | middleware/ratelimit.go:175-193 | the resolved TTL covers the refill time if and only if burst / rate is at most a nanosecond over the larger of a day and the setting, twice that under a cap of one |
| `SweepTransparency.UncoveredDiffers` | middleware/ratelimit.go:184-188 | otherwise some such run gets a different answer |
| `SweepTransparency.TransparentIff` | middleware/ratelimit.go:254-266 | idle sweeping is unobservable if and only if the TTL covers the refill time |
| `SweepTransparency.ConfiguredTransparentIff` | middleware/ratelimit.go:96-118 | the same in terms of rate, burst, cap and TTL as configured |
| `ClientLaw.OwnBucket` | middleware/ratelimit.go:227-252 | without forgetting, what is done under one key leaves the bucket of another alone |
| `ClientLaw.ClientServedIff` | middleware/ratelimit.go:227-266 | where sweeping is transparent, and no eviction is forced, a call is admitted if and only if no interval that ends with it would hold more than burst + rate * length admitted calls of its key |
| `ClientLaw.DropsExactly` | middleware/ratelimit.go:227-282 | after every run a hit drops no key; a miss drops the keys idle past the TTL if it is the 256th or finds the table at the cap, then the oldest insertion alone if it is still at the cap, and changes no bucket that stays |
| `KeyedLimiter.TokenBucketNode.constructor` | middleware/ratelimit.go:352-366 | a full bucket dated now, in no list |
| `KeyedLimiter.TokenBucketNode.Allow` | middleware/ratelimit.go:370-392 | refills for the elapsed time and takes a token exactly when one is there |
| `KeyedLimiter.Table.constructor` | middleware/ratelimit.go:110-118 | the empty limiter |
| `KeyedLimiter.Table.PushFront` | middleware/ratelimit.go:285-296 | the heap links become those of the list with the bucket in front |
| `KeyedLimiter.Table.Unlink` | middleware/ratelimit.go:299-314 | the heap links, head and tail become those of the list without the bucket; a second time changes nothing |
| `KeyedLimiter.Table.Drop` | middleware/ratelimit.go:262-263 | list and map lose exactly that bucket and stay in step |
| `KeyedLimiter.Table.SweepLocked` | middleware/ratelimit.go:258-266 | in any visiting order exactly the buckets last seen at or after the cutoff stay |
| `KeyedLimiter.Table.EvictOldestLocked` | middleware/ratelimit.go:274-282 | drops the oldest insertion, or reports an empty list |
| `KeyedLimiter.Table.EvictToCap` | middleware/ratelimit.go:243-244 | the eviction loop terminates and keeps exactly the newest maxBuckets - 1 |
| `KeyedLimiter.Table.Insert` | middleware/ratelimit.go:247-249 | map and list gain the bucket, in front, and stay in step |
| `KeyedLimiter.Table.Allow` | middleware/ratelimit.go:227-252 | answer and new state are those of the value limiter, whatever the clock readings |
| `Metrics.ViewRefinesLock` | middleware/metrics.go:450-462 | a lookup in the view as published now returns the same series and leaves the same state as the locked one |
| `Metrics.FoldsOnlyWhenFull` | middleware/metrics.go:501-538 | a locked lookup lands on its own series, or on the overflow series of a full store, live either way |
| `MetricsRequests.StaleIff` | middleware/metrics.go:692-706 | a lookup on the views loaded at the start of its request gets another series than the lock would have given it if and only if the request's own sweep made it stale, in terms of the state the request began in |
| `MetricsRequests.RequestIff` | middleware/metrics.go:694-706 | all lookups of a request get the lock's answers if and only if none is stale, and then the request leaves the same state |
| `MetricsRequests.LostIff` | middleware/metrics.go:607-623 | when a request is over, the series its n-th lookup counted on is out of its map if and only if that lookup was lost |
| `MetricsRuns.ViewsUnobservableIff` | middleware/metrics.go:450-538 | a run through the views, paced republishing included, answers as the run that takes the lock for every lookup if and only if no request of it makes a stale lookup; then both end alike |
| `MetricsRuns.PlainRunsAreFresh` | middleware/metrics.go:650-654 | a caller that loads the views for each lookup, and a collector that never sweeps, is always answered as by the lock |
| `MetricsRuns.LatencyMayBeLost` | middleware/metrics.go:692-701 | a path idle past the TTL that comes with a new status has its latency counted on a series just swept |
| `MetricsRuns.MayFoldWithRoom` | middleware/metrics.go:587-595 | a run after which a request folds its path although its own sweep has made room |
| `MetricsRuns.BoundedSeries` | middleware/metrics.go:519-537 | each capped map holds at most one series more than the cap, and the views are subsets of the maps |
| `MetricsRuns.ViewsKeepUp` | middleware/metrics.go:366-371 | the views are exact up to 8192 entries and hold more than half of what is live beyond |
| `MetricsRuns.CountsConserved` | middleware/metrics.go:694-706 | over every run and for each map, the hits of its live and of its swept series add up to the lookups in it |
| `MetricsRuns.CountedWhereSeenIff` | middleware/metrics.go:607-615 | after every run, a request's count is on a series of the next scrape if and only if the lookup is not lost |
| `MetricsLaw.DropsIff` | middleware/metrics.go:616-644 | a lookup drops a series if and only if a sweep is due, its label is neither in the view nor live, and the series was idle past the TTL |
| `MetricsLaw.LookupMarks` | middleware/metrics.go:450-538 | a lookup marks the series it finds as seen now where sweeping reads the mark, and touches no other and no count |
| `MetricsLaw.RepublishedIf` | middleware/metrics.go:366-371 | beyond 8192 entries the views are replaced only by a sweep or once the maps have doubled |
| `MetricsLaw.RequestCounts` | middleware/metrics.go:686-706 | after every run a request with tracked labels adds one count each in counters, durations and histograms, and in the request bytes if and only if it has a body, under the labels with and without the status |
| `MetricsCollector.Collector.constructor` | middleware/metrics.go:276-294 | empty maps, exact views |
| `MetricsCollector.Collector.MaybePublishViewsLocked` | middleware/metrics.go:366-371 | republishes while small and on doubling |
| `MetricsCollector.Collector.SweepLocked` | middleware/metrics.go:630-644 | in any visiting order every map keeps exactly its series touched since the cutoff |
| `MetricsCollector.Collector.MaybeSweepLocked` | middleware/metrics.go:616-623 | sweeps when due and republishes with it |
| `MetricsCollector.Collector.SeriesFor` | middleware/metrics.go:501-538 | does what the locked lookup does in every branch |
| `MetricsCollector.Collector.LookupSeries` | middleware/metrics.go:450-477 | the lock-free path on the view it is handed, the locked path where that does not answer |
| `MetricsCollector.Collector.RecordRequest` | middleware/metrics.go:686-706 | one load of the views, then counter, duration, histogram and, for a body, bytes on what was loaded: the request of MetricsRuns |
| `MetricsCollector.Collector.ObserveDuration` | middleware/metrics.go:650-654 | one load and one lookup |
| `ProtoWire.AppendVarint` | grpcserver/reflection.go:575-581 | appends the base-128 digits of the value |
| `ProtoWire.DecodeVarint` | grpcserver/reflection.go:584-598 | the value of the first varint of at most ten bytes, cut to 64 bits, with its length; (0, 0) if longer or unfinished |
| `ProtoWire.VarintRoundTrip` | grpcserver/reflection.go:575-598 | every uint64 is read back with its encoded length, whatever follows |
| `ProtoWire.VarintRefusedIff` | grpcserver/reflection.go:584-598 | no value is read if and only if none of the first ten bytes ends the varint; otherwise the first that does is the last one read |
| `ProtoWire.TagRoundTrip` | grpcserver/reflection.go:603-605 | the wire type always survives a tag; the field number if and only if it is in [0, 2^61) |
| `ProtoWire.AppendTag` | grpcserver/reflection.go:603-605 | appends the varint of the tag |
| `ProtoWire.AppendLenField` | grpcserver/reflection.go:608-626 | appends tag, length and body |
| `ProtoWire.AppendVarintField` | grpcserver/reflection.go:629-632 | appends tag and value |
| `ProtoWire.SkipField` | grpcserver/reflection.go:228-255 | the end of the field where it can be told, otherwise a negative number, or a position before the field for a length of 2^63 or more |
| `ProtoWire.ExtractStringField` | grpcserver/reflection.go:148-176 | the loop over positions computes Extract on any bytes, up to the field where it would leave the data or go backwards |
| `ProtoWire.OverrunIff` | grpcserver/reflection.go:157-164 | it does so if and only if it meets a length past the data in the field it wants, or past the largest position in one it passes |
| `ProtoWire.TruncatedFieldOverruns` | grpcserver/reflection.go:161-163 | a field cut off after its length is such a case |
| `ProtoWire.ExtractFinds` | grpcserver/reflection.go:148-176 | from any message built by any calls, fixed-width fields of other writers among them, the reader gets the first length-delimited value with the number, or "" |
| `ProtoWire.ExtractFindsNumber` | grpcserver/reflection.go:148-176 | for field numbers below 2^61 that is the first field with exactly that number |
| `ProtoWire.FieldRoundTrip` | grpcserver/reflection.go:575-632 | a written field is the first one of its bytes and whatever follows, with its body or value and its length |
| `ProtoWire.MessageRoundTrip` | grpcserver/reflection.go:575-632 | any calls build a message that parses into exactly those fields, in order |

## Left out

- Sockets, TLS, deadlines, keepalive pings, contexts and the HTTP/1.1 side: input and output.
- The framer is a wire trace and the HPACK decoder a function of what it was fed; both are other packages. The bound of `fieldsFitFrame` on encoder output is therefore not part of this model.
- Behaviour after a connection error: such a run stops. A failed write of the 431 answer is taken as such an end too.
- Outbound: the number of writers is fixed for a run, but arbitrary; the early checks for a closed connection or context before a write are covered by giving up at any point.
- FcWaiters: the waiters and streams of a run are fixed in advance under ghost names; sendWindow is guarded by `ss.mu` in the source and here by the same object, so one turn of the loop is one step here and three in Outbound.
- DataChunks: what the windows grant and whether a chunk may be written are answers from outside, one per chunk; Outbound and StreamLife say which answers arise. A refused chunk's refund is `OutboundLedger.RefusedChunkRestores`.
- The GOAWAY senders (two steps each: claiming the right to send, and sending), the state word and the reset paths are steps of transition systems on values, not methods of an object, because what they promise is about interleavings.
- StreamTable.IdentifierSpace: assumes client identifiers that passed validateClientID and fewer pushes than wrap the 32-bit counter; AdmitSoundIff and PushSoundIff say what happens otherwise.
- StreamLife: one stream; duplicate RST_STREAM frames and frames after END_STREAM from two writers are not restricted by the code and not claimed.
- Inbound: callbacks are atomic and other goroutines act between them; pushed streams receive nothing and are left out, the interleaving guard is that of serverConnHandler, not of the handshake recorder, which lets SETTINGS through.
- ServerConnHandler.Handler.PushEvent: the Reset event that an overflow tries to put into the buffer it has just found full, and the RST_STREAM of its goroutine, are not part of the step; the latter is a reset and a release by another goroutine.
- ServerConnHandler.Handler.RegisterStream: whether the limit or the accept queue refuses the stream is an answer from outside; StreamTable.Table.AdmitClient decides the former.
- EventOrder.EventGrammar: claims stop at the reset bit, because an event buffer overflow sets it, drops the event and releases the stream later.
- TokenBucket: tokens are real numbers, so floating-point rounding is not modelled.
- SweepTransparency.TransparentIff: takes an endless supply of distinct keys, and one call at a time.
- KeyedLimiter: clock readings are parameters, the sweep counter is unbounded; 256 divides 2^64, so its wrap changes nothing.
- Metrics: requests come one at a time; the four maps share one series type and one overflow label, where the source has a counter type and a histogram type with the same locking and two overflow keys; labels are only compared within a map.
- MetricsLaw.RequestCounts: for labels in the views; where a label not yet tracked is counted is `Metrics.FoldsOnlyWhenFull` and `MetricsRequests.StaleIff`.
- StreamPaths, OutboundPaths: one actor alone, from any state; what others may do in between is StreamLife and OutboundLedger.
- ProtoWire.ExtractStringField: stops with an overrun where the source slices out of range or steps backwards; what a walk does after a step backwards is not modelled. The data end where their backing array does.
- `http3server/`, the accept loop, adapters, the remaining middleware, gRPC framing and percent-encoding: single passes or plumbing that would only add easy members.
