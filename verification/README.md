# Relay swarm: a verified model

The relay swarm fetches segments of a stream from neighbouring peers and falls back to an
origin server. Its engine is a set of state machines that do no I/O: every call passes the
time in and leaves commands or events for the shell. This project models that engine and
proves what it keeps over every run. It covers

- the scheduler: how pieces are planned among peers and origin (`Pieces`, `RunLists`,
  `Estimates`, `WaterLevel`, `Apportionment`, `Planner`) and the transfer that carries a
  plan out, verifies every piece and recovers from failures (`Lanes`, `Books`, `Ownership`,
  `Dispatch`, `States`, `Supply`, `Assigning`, `Holders`, `Answers`, `Timing`, and the class
  `Transfers.Transfer`; `Promises` states what follows for every run, and `Limits` shows where
  two promises end);
- the peer link: one link against any remote (`LinkStates`, `LinkRuns`, and the class
  `PeerLinks.PeerLink`), and two links on one pair of first-in-first-out channels, each asking
  and serving (`Conversation`, `LinkViews`, `TwoLinks`);
- neighbour discovery (`Neighbours`, `Discovery`) and peer selection (`Choices`, `Selection`);
- the codecs at the binding boundary: the native record writer against the Kotlin reader, packed
  string lists, and the JSON printer against the JSON parser (`Records`, `LinkRecords`,
  `Binding`, `JsonTexts`, `JsonParsers`).

State machines are classes with the fields of the original. A ghost `log` of a transfer or a
link is the run so far as its shell sees it, and the invariants relate state and log, so a
lemma about a valid state's log is a lemma about every run that leads there. `PeerLink` and
`NeighbourDiscovery` are proved equal, call by call, to functions on values, and the run
properties are proved of those functions. Times, bytes and identifiers are natural numbers,
timings are reals, SHA-256 is an arbitrary function from bytes to digests, a control frame
is a datatype.

`dafny verify dfyconfig.toml` checks everything.

Some properties do not hold throughout, and each has its condition and a case that fails:

- No request follows the tick that passes the floor, in a transfer that was started before
  that tick (`Books.NoLateRequest`). One that is ticked past its floor and started only then
  asks its peers all the same (`Limits.AskAfterEarlyFloor`).
- A peer-only transfer has a request in flight exactly if some live holder is asked already,
  is not a probe, or is a probe that was not used (`Transfers.Transfer.MovesIfAnyoneCan`).
  That is so until a peer has sent a bad piece (`Transfers.Transfer.PeerOnlyMoves`).
  Afterwards it can stall (`Limits.StallAfterBan`), because the code does not look for
  probes whose piece was meanwhile verified elsewhere
  (core/relayswarm-proto/src/scheduler.rs:1297-1315).
- A printed JSON value is read back exactly if it holds no number that came out of the parser
  (`JsonTexts.JsonRoundTrip`): such a number prints with the name of its class around it,
  which is no JSON (`JsonTexts.ReadNumberIsLost`).
- A byte string survives the crossing from the native side exactly if it is shorter than 2^31
  (`Records.BytesRoundExactly`).

## Model

| member | source | states |
|---|---|---|
| Pieces.CommitmentPieceSize | core/relayswarm-proto/src/commitment.rs:102-105 | a piece has at least 64 KiB and a multiple of 16 KiB, wrap-around of the 64-bit sum included |
| Pieces.CountWithinBound | core/relayswarm-proto/src/pieces.rs:20-28 | a size has a piece count exactly if it is between 1 and 2^63 - 64, and then 1 to 64 non-empty pieces tile the object |
| Pieces.RangeInside | core/relayswarm-proto/src/pieces.rs:30-39 | a range that fits the object has at least one byte, all of them inside it |
| Pieces.AdjacentRanges | core/relayswarm-proto/src/pieces.rs:30-39 | a range that fits cuts at any inner piece into two that fit, and their bytes meet at one offset and cover the whole |
| Pieces.PieceBytesBounds | core/relayswarm-proto/src/scheduler.rs:135-138 | every piece has 1 to piece-size bytes, all but the last a full one, and piece `i` ends where `i + 1` begins or at the end of the object |
| RunLists.Runs | core/relayswarm-proto/src/scheduler.rs:141-153 | the loop computes the run decomposition of any list of pieces |
| RunLists.RunsFlatten | core/relayswarm-proto/src/scheduler.rs:140-153 | the runs flatten back to the list and no two neighbouring runs touch |
| RunLists.RunsCanonical | core/relayswarm-proto/src/scheduler.rs:140-153 | any list of non-empty ranges without touching neighbours is the run decomposition of its pieces |
| WaterLevel.WaterFill | core/relayswarm-proto/src/scheduler.rs:155-170 | the returned time is one at which the sources together carry exactly the bytes |
| WaterLevel.LevelIsLowerBound | core/relayswarm-proto/src/scheduler.rs:155-170 | no division of the bytes among the sources, whole pieces or not, finishes before that time |
| Apportionment.Apportion | core/relayswarm-proto/src/scheduler.rs:182-210 | counts add up to exactly the pieces whatever the shares are; for shares that sum to the pieces, each is its share rounded down, or up for the largest remainders |
| Apportionment.ExtrasHaveRemainder | core/relayswarm-proto/src/scheduler.rs:188-202 | an extra piece goes only to a source whose share has a positive remainder |
| Planner.Split | core/relayswarm-proto/src/scheduler.rs:173-233 | the needed pieces are cut into consecutive slices, each assigned with its bytes and projection, and the division is near-optimal |
| Planner.SplitNearOptimal | core/relayswarm-proto/src/scheduler.rs:173-233 | every source used finishes within one piece of its own of any finish time that any division of the same bytes can reach |
| Planner.TailToOrigin | core/relayswarm-proto/src/scheduler.rs:275-324 | each peer in turn takes as many of the next pieces as fit before the deadline, an untested one at least one, and origin takes exactly the rest |
| Planner.MakePlan | core/relayswarm-proto/src/scheduler.rs:238-273 | a plan is the peers' own split unless that is late and there is an origin, else the greedy heads with origin's tail, with the fixed answers for no pieces and for no sources |
| Planner.RankedFastest | core/relayswarm-proto/src/scheduler.rs:246-248 | every peer that the holder limit cuts off ranks after every peer kept: slower, or as fast with a later first byte, or then a greater source |
| Planner.PlanPartitions | core/relayswarm-proto/src/scheduler.rs:235-324 | with any source at all a plan assigns the needed pieces exactly once and in order, to peers first and to origin, if at all, the tail |
| Planner.PlanSize | core/relayswarm-proto/src/scheduler.rs:235-248 | a plan has at most `max(1, max_holders)` assignments, and one more with an origin |
| Planner.PlanDistinct | core/relayswarm-proto/src/scheduler.rs:235-324 | for distinct sources no source gets two assignments of one plan |
| Planner.PlanOnTime | core/relayswarm-proto/src/scheduler.rs:260-324 | with an origin, every assignment of a plan finishes in time or is a single trial piece of an untested peer, except a tail at origin |
| Planner.PlanLateness | core/relayswarm-proto/src/scheduler.rs:227-258 | a plan's projection is its slowest assignment and it is late exactly if that is; without a source it has no projection and is late |
| Planner.UntestedWorks | core/relayswarm-proto/src/scheduler.rs:260-306 | if all peers are untested, a plan gives one of them work however late it is |
| Books.OneEnd | core/relayswarm-proto/src/scheduler.rs:1485-1509 | over a whole run `Deliver` or `Fail` comes at most once and nothing follows it |
| Books.AskedOnce | core/relayswarm-proto/src/scheduler.rs:1023-1105 | over a whole run no piece is requested twice of the same peer |
| Books.NoLateRequest | core/relayswarm-proto/src/scheduler.rs:1297-1408 | no request follows a peer's failure, ban, cancel or abandonment; none at all follows the passing of the floor in a transfer that had started, and a floor that passed earlier comes before all commands |
| Books.OriginExclusive | core/relayswarm-proto/src/scheduler.rs:1189-1295 | with exclusive origin, a piece whose origin fetch has begun is fetched no second time and requested of no peer afterwards |
| Books.OneOwner | core/relayswarm-proto/src/scheduler.rs:1023-1105 | with exclusive origin, a piece requested of a peer goes to another source only after an entry in between that drops that peer |
| Books.RequestsBounded | core/relayswarm-proto/src/scheduler.rs:1023-1081 | a peer gets no more requests than pieces were asked of it, and no more of these than the object has |
| Promises.RunLog | core/relayswarm-proto/src/scheduler.rs:439-1509 | in every reachable state the log obeys the rules of a run, its commands are those drained and those waiting, and it has ended exactly if the transfer is finished |
| Promises.SingleOwner | core/relayswarm-proto/src/scheduler.rs:492-498 | with exclusive origin, in every reachable state a piece queued or in flight on two live lanes is on one and the same, there once, and not yet verified |
| Promises.NothingRedundant | core/relayswarm-proto/src/scheduler.rs:1322-1348 | with exclusive origin no answer ever makes another source's request redundant |
| Promises.MixedCovered | core/relayswarm-proto/src/scheduler.rs:769-902 | a started, unfinished mixed transfer has every unverified piece on a live lane, something in flight, and no lane with queued work idle |
| Promises.DeliveredIsSound | core/relayswarm-proto/src/scheduler.rs:1485-1491 | whatever a run delivers has every piece digest and the whole digest right, and the delivery is its last entry |
| Promises.VerifiedIsCommitted | core/relayswarm-proto/src/scheduler.rs:1133-1150 | until the end every verified piece in the buffer hashes to its committed digest |
| Promises.PeerOnlyCommands | core/relayswarm-proto/src/scheduler.rs:474-483 | a peer-only run never fetches from origin and never abandons |
| Promises.RequestShape | core/relayswarm-proto/src/scheduler.rs:1023-1081 | every peer request of a run is a non-empty range of the object of at most four pieces and at most 512 KiB or one piece |
| Promises.RequestCount | core/relayswarm-proto/src/scheduler.rs:1023-1081 | over a whole run no peer gets more requests than the object has pieces, at most 64 |
| Promises.OneInFlight | core/relayswarm-proto/src/scheduler.rs:1050-1053 | a peer has at most one request in flight, and none once it is retired, the floor has passed or the transfer is over |
| Promises.InFlightWasAsked | core/relayswarm-proto/src/scheduler.rs:1022-1081 | whatever is in flight at a source was commanded: a request of that peer, or an origin fetch, with that piece in its range |
| Transfers.Transfer.New | core/relayswarm-proto/src/scheduler.rs:440-483 | a transfer exists exactly if the digests are as many as the pieces of the size; it starts with an empty log, no fault noted, origin not exclusive |
| Transfers.Transfer.WithExclusiveOrigin | core/relayswarm-proto/src/scheduler.rs:489-498 | exclusive origin is granted exactly before the start of an unfinished mixed transfer |
| Transfers.Transfer.Start | core/relayswarm-proto/src/scheduler.rs:526-602 | opens a lane for every source with its first estimate, and in mixed mode queues at every source exactly the pieces that a plan for all of them, probes first, assigns to it, noting whether that plan is late; a peer-only transfer has a request out or fails |
| Transfers.Transfer.AssignMixed | core/relayswarm-proto/src/scheduler.rs:769-902 | the needed pieces are divided among the live peers and origin as planned and queued there, nothing else changes hands, and the plan's lateness is noted; exclusive origin keeps the piece of a one-piece object |
| Transfers.Transfer.Issue | core/relayswarm-proto/src/scheduler.rs:1022-1081 | sends queued work of one lane without changing which pieces it holds: to a peer one bounded range if it is idle, to origin all but a held tail; it logs every request and keeps the invariant |
| Transfers.Transfer.Retire | core/relayswarm-proto/src/scheduler.rs:1083-1105 | empties a peer's lane for good, logs that it left, and returns exactly its unverified pieces that no other live lane holds |
| Transfers.Transfer.Refill | core/relayswarm-proto/src/scheduler.rs:933-1020 | unless it ends the transfer at the floor or without a live holder, idle holders get work until something is in flight, within the holder limit |
| Transfers.Transfer.Delivered | core/relayswarm-proto/src/scheduler.rs:1107-1168 | an answer nobody awaits changes nothing; an awaited one of the right length verifies exactly the pieces that match their digests; a bad piece bans its peer, a wrong length retires it, origin fails, and only then is a ban or a fault of origin noted; a good answer cancels every request it made redundant |
| Transfers.Transfer.DropRedundant | core/relayswarm-proto/src/scheduler.rs:1320-1348 | every other live peer whose request has become entirely verified is cancelled, and the winner stays |
| Transfers.Transfer.Progress | core/relayswarm-proto/src/scheduler.rs:721-743 | bytes for a watched request add one flow point and abandon it exactly if it is then hopeless; otherwise nothing changes |
| Transfers.Transfer.Failed | core/relayswarm-proto/src/scheduler.rs:1350-1368 | a live peer's failure retires it and never ends a mixed transfer; origin's ends a mixed one; any other changes nothing |
| Transfers.Transfer.Rebalance | core/relayswarm-proto/src/scheduler.rs:1189-1295 | of the pieces that origin owes and no peer holds, the last ones move to idle measured peers: as many as these bring in time and as is their share beside busy peers, none otherwise; each peer is projected to finish within one of its pieces of the time origin would need or the floor; every other lane keeps its work, and with exclusive origin the moved pieces leave its queue |
| Transfers.Transfer.Endgame | core/relayswarm-proto/src/scheduler.rs:1443-1483 | afterwards no source that works on a piece still to be duplicated is behind its projection, unless a peer-only transfer has nobody free to take it; no lane has lost a flight |
| Transfers.Transfer.Tick | core/relayswarm-proto/src/scheduler.rs:1370-1427 | nothing is due any more at or before the tick in any mode and no hopeless request stays; at the floor every peer with work is cancelled, or a peer-only transfer fails, and a floor before the start is noted |
| Transfers.Transfer.NextDeadline | core/relayswarm-proto/src/scheduler.rs:604-653 | the returned time is the least deadline of the transfer, and `None` exactly if there is none |
| Transfers.Transfer.VerifiedBytes | core/relayswarm-proto/src/scheduler.rs:508-515 | the bytes of the verified pieces, each once; they are all the bytes exactly if every piece is verified |
| Transfers.Transfer.DrainCommands | core/relayswarm-proto/src/scheduler.rs:500-502 | hands out every command issued since the last call, in order, once |
| Transfers.Transfer.Finish | core/relayswarm-proto/src/scheduler.rs:1485-1491 | delivers the buffer if its digest is the committed one, else fails; every peer with a request in flight is cancelled first |
| Transfers.Transfer.Fail | core/relayswarm-proto/src/scheduler.rs:1493-1509 | cancels every peer with a request in flight, empties the lanes and fails as the last entry of the log |
| Transfers.Transfer.PeersNeverFailIt | core/relayswarm-proto/src/scheduler.rs:1297-1368 | as long as origin has not failed, sent a bad piece or a wrong length, a mixed transfer fails only for the digest of the whole object, after every piece was verified, whatever its peers do |
| Transfers.Transfer.PeerOnlyMoves | core/relayswarm-proto/src/scheduler.rs:904-1020 | an unfinished peer-only transfer has every unverified piece pending or on a live lane, at most `max(1, max_holders)` lanes at work, and, unless some peer was banned for a bad piece, a request in flight |
| Transfers.Transfer.FlagsTold | core/relayswarm-proto/src/scheduler.rs:1297-1368 | the notes of a bad piece and of a fault of origin say exactly whether the log of the run has a ban or such a fault |
| Transfers.Transfer.MovesIfAnyoneCan | core/relayswarm-proto/src/scheduler.rs:933-1020 | whatever was sent, an unfinished peer-only transfer has a request in flight exactly if a live holder is at work, is no probe, or is an unused probe |
| Limits.StallAfterBan | core/relayswarm-proto/src/scheduler.rs:1297-1315 | a valid, started, unfinished peer-only transfer after a ban, with a piece pending, nothing in flight and a used probe as its only live holder |
| Limits.AskAfterEarlyFloor | core/relayswarm-proto/src/scheduler.rs:1384-1408 | every mixed transfer that is ticked past its floor and then started with untested peers requests a piece of one of them afterwards |
| Answers.BytesGrow | core/relayswarm-proto/src/scheduler.rs:508-515 | the verified bytes never become fewer |
| LinkRuns.UploadsConserved | core/relayswarm-proto/src/link.rs:852-1023 | while the channel is open, responses answer the accepted wants in order; wants done and `in_flight` make up all accepted; `in_flight` is queue and active response and within the limit; bytes out and a paused response's part are all chunk bytes sent |
| LinkRuns.NeverBroken | core/relayswarm-proto/src/link.rs:852-1023 | at every point of such a run the frames are `none`, or `meta`, chunks and `eof` that account for the announced size |
| LinkRuns.OneOutcome | core/relayswarm-proto/src/link.rs:439-611 | every issued request has exactly one `Resolved` and one `Report` once it is over, on every path, and none or both while pending |
| LinkRuns.PayloadIsHeard | core/relayswarm-proto/src/link.rs:726-781 | against any holder and anywhere in a run, bytes that a request was resolved with are all the chunks heard since its `meta`, of the announced and of the expected size |
| LinkRuns.NothingAfterClose | core/relayswarm-proto/src/link.rs:582-611 | no frame and no second close follows a close |
| LinkRuns.NothingDue | core/relayswarm-proto/src/link.rs:626-661 | a tick leaves no timer due, a zero drain timeout included |
| LinkRuns.LateIsPunctual | core/relayswarm-proto/src/link.rs:626-661 | a tick at `t1` and one at `t2` give the same state and events as the one at `t2` alone |
| PeerLinks.PeerLink.constructor | core/relayswarm-proto/src/link.rs:256-287 | a new link is the initial state of the model and valid |
| PeerLinks.PeerLink.StartRequest | core/relayswarm-proto/src/link.rs:439-489 | the request takes the next ID and is pending, or is reported at once as closed, busy or not sent |
| PeerLinks.PeerLink.RequestRange | core/relayswarm-proto/src/link.rs:430-437 | a range that does not fit does nothing; one that fits is requested with its exact length |
| PeerLinks.PeerLink.Abort | core/relayswarm-proto/src/link.rs:491-554 | only a pending request that is not draining is given up: drained on a reliable open channel, else the link closes |
| PeerLinks.PeerLink.CloseFor | core/relayswarm-proto/src/link.rs:582-611 | closes once, with one report for a pending request, and stops a paused response |
| PeerLinks.PeerLink.TickTo | core/relayswarm-proto/src/link.rs:626-661 | the loop fires the due timers earliest first and ends with none due |
| PeerLinks.PeerLink.HandleText | core/relayswarm-proto/src/link.rs:663-781 | the effect of every control frame in every state, protocol violations included |
| PeerLinks.PeerLink.HandleBinary | core/relayswarm-proto/src/link.rs:1025-1055 | the effect of a chunk: counted and kept, counted while draining, or a protocol error |
| PeerLinks.PeerLink.StartQueued | core/relayswarm-proto/src/link.rs:880-906 | the loop takes uploads off the queue in order until one waits for its bytes; cancelled ones are answered with `none` |
| PeerLinks.PeerLink.ServeResponse | core/relayswarm-proto/src/link.rs:908-973 | the answer to the active upload: `none`, or `meta` and the slice of the object that was wanted |
| PeerLinks.PeerLink.ServeRangeResponse | core/relayswarm-proto/src/link.rs:915-973 | the same with the slice given, declined for a wrong length, a missing range or an oversized object |
| PeerLinks.PeerLink.SendPieces | core/relayswarm-proto/src/link.rs:988-1023 | the loop sends chunks until the channel is full, the upload is cancelled, the link is closed or all is sent |
| PeerLinks.PeerLink.BufferedAmountLow | core/relayswarm-proto/src/link.rs:975-986 | a paused response goes on with at least one chunk |
| PeerLinks.PeerLink.DrainEvents | core/relayswarm-proto/src/link.rs:289-291 | hands out every event since the last call, in order, once |
| TwoLinks.NeverAccused | core/relayswarm-proto/src/link.rs:663-1055 | two links, each asking and serving honestly, never close with `protocol` or `upload-queue`, in any interleaving of both shells' calls, timers, deliveries and a loss of the channel |
| TwoLinks.PaidExactly | core/relayswarm-proto/src/link.rs:424-1055 | in every such run a request of either end is resolved at most once, and if with bytes then with exactly the slice it asked for of the object that the other end holds |
| TwoLinks.NeverStranded | core/relayswarm-proto/src/link.rs:424-1055 | while both are open and the channel is whole, a pending request always has its want or its answer on the way, or an upload active at the holder |
| Neighbours.ReplacementBudget | core/relayswarm-proto/src/discovery.rs:400-413 | under a clock that never goes back, replacement `n` for one context since it last verified comes at least `20 000 * n` ms after the first, at every point of a run |
| Neighbours.OncePerWindow | core/relayswarm-proto/src/discovery.rs:479-512 | one window gives a context at most one replacement, unless it verified a segment in between |
| Neighbours.KeyStaysDemanded | core/relayswarm-proto/src/discovery.rs:236-266 | while the window is live and its context installed, its attempt's key is among the context's at most two distinct keys, whatever resets and demand come |
| Discovery.NeighbourDiscovery.Visit | core/relayswarm-proto/src/discovery.rs:196-226 | a context is created, replaced for another rendition, or reset after half a minute without activity or demand |
| Discovery.NeighbourDiscovery.Demand | core/relayswarm-proto/src/discovery.rs:236-266 | the two most recent distinct keys stay, the key of a live attempt in front |
| Discovery.NeighbourDiscovery.Hint | core/relayswarm-proto/src/discovery.rs:268-294 | a peer's hint replaces its older one and goes last; the oldest of more than 64 go |
| Discovery.NeighbourDiscovery.FindHinted | core/relayswarm-proto/src/discovery.rs:414-432 | finds the oldest fresh eligible candidate that hints a demanded key, with the first such key, and fails only if there is none |
| Discovery.NeighbourDiscovery.Choose | core/relayswarm-proto/src/discovery.rs:359-394 | chooses for an unmet current context that has room, a vacancy or its replacement left, never during an attempt, and fails only if no such context has a candidate |
| Discovery.NeighbourDiscovery.Begin | core/relayswarm-proto/src/discovery.rs:434-472 | opens the window if none is open and starts one attempt, unless it is another context's, expired or has an attempt |
| Discovery.NeighbourDiscovery.Replace | core/relayswarm-proto/src/discovery.rs:494-512 | succeeds exactly for a valid attempt of an unspent context, and then spends it and vacates the window |
| Discovery.NeighbourDiscovery.Rearm | core/relayswarm-proto/src/discovery.rs:400-413 | succeeds exactly 20 s or more after the replacement, for current demand and stale links only |
| Discovery.NeighbourDiscovery.Verify | core/relayswarm-proto/src/discovery.rs:547-556 | a verified segment of an installed context re-arms its replacement |
| Discovery.NeighbourDiscovery.Failed | core/relayswarm-proto/src/discovery.rs:531-540 | the failed dial's attempt ends, and the window is vacant again exactly if it had a victim |
| Choices.BoundedWaiting | core/relayswarm-proto/src/selection.rs:188-240 | while exactly `k` unmeasured links stay eligible, any `4 * k` consecutive successful choices with deadlines of at least 100 ms select each of them |
| Choices.ColdFits | core/relayswarm-proto/src/selection.rs:178-188 | a link that was never measured fits every deadline |
| Selection.PeerSelection.Select | core/relayswarm-proto/src/selection.rs:188-240 | the choice is open, idle, untried, holds the key and fits the deadline, and no candidate of its class scores better, nor an earlier one as well; there is none exactly if nobody is eligible |
| Selection.PeerSelection.RecordAttempt | core/relayswarm-proto/src/selection.rs:249-268 | one attempt blended into the link's history, which keeps its bounds |
| Records.BytesRoundExactly | core/relayswarm-ffi/src/capi.rs:566-569 | a byte string is read back as written exactly if it is shorter than 2^31 |
| Records.CommandRound | core/relayswarm-ffi/src/capi.rs:595-631 | every command is read back as written, up to where it ends |
| Records.StateRoundTrip | core/relayswarm-ffi/kotlin/uniffi/relayswarm_ffi/relayswarm_ffi.kt:169-186 | every transfer state whose record is shorter than 2^31 bytes is read back as written, with no bytes left |
| LinkRecords.EventRound | core/relayswarm-ffi/src/capi.rs:632-713 | every link event is read back as written, up to where it ends |
| LinkRecords.UpdateRoundTrip | core/relayswarm-ffi/kotlin/uniffi/relayswarm_ffi/relayswarm_ffi.kt:188-209 | every link update whose record is shorter than 2^31 bytes is read back as written, with no bytes left |
| Binding.Binary.TransferState | core/relayswarm-ffi/src/capi.rs:595-631 | the writer appends exactly the record of the state, field by field |
| Binding.Binary.LinkUpdate | core/relayswarm-ffi/src/capi.rs:632-713 | the writer appends exactly the record of the update |
| Binding.TransferStateBinary | core/relayswarm-ffi/kotlin/uniffi/relayswarm_ffi/relayswarm_ffi.kt:150-186 | the reader's answer for any bytes, malformed or too long ones included |
| Binding.LinkUpdateBinary | core/relayswarm-ffi/kotlin/uniffi/relayswarm_ffi/relayswarm_ffi.kt:150-209 | the same for a link's record |
| Binding.CrossTransfer | core/relayswarm-ffi/src/capi.rs:744-748 | writing and then reading a transfer's record gives the state back |
| Binding.CrossLink | core/relayswarm-ffi/src/capi.rs:738-742 | writing and then reading a link's record gives the update back |
| Binding.PackedStrings | core/relayswarm-ffi/src/capi.rs:763-792 | returns a list of valid texts with these lengths that fills the input exactly, and fails only if there is no such list |
| Binding.UnpacksOnce | core/relayswarm-ffi/src/capi.rs:763-792 | two lists of the same lengths that pack to the same bytes are the same list |
| Binding.Pack | core/relayswarm-ffi/kotlin/uniffi/relayswarm_ffi/relayswarm_ffi.kt:487-496 | the loop of array copies leaves all strings, one after another, and their lengths |
| Binding.CrossStrings | core/relayswarm-ffi/kotlin/uniffi/relayswarm_ffi/relayswarm_ffi.kt:487-496 | packing and then unpacking a list of texts gives it back |
| JsonTexts.JsonRoundTrip | core/relayswarm-ffi/kotlin/uniffi/relayswarm_ffi/relayswarm_ffi.kt:8-127 | a nested value of null, booleans, numbers, strings, bytes, lists and maps that is printed and parsed comes back, with all the text consumed, exactly if it holds no number that was parsed before, and is refused otherwise; numbers come back by their texts, a non-finite double as a string, bytes as a list of numbers |
| JsonTexts.ValueRound | core/relayswarm-ffi/kotlin/uniffi/relayswarm_ffi/relayswarm_ffi.kt:8-127 | a value without such numbers is read back inside any text that does not continue a number |
| JsonTexts.ReadNumberIsLost | core/relayswarm-ffi/kotlin/uniffi/relayswarm_ffi/relayswarm_ffi.kt:6-33 | the number 42, once parsed, prints as a text that the parser refuses |
| JsonTexts.DataRound | core/relayswarm-ffi/kotlin/uniffi/relayswarm_ffi/relayswarm_ffi.kt:27-147 | bytes that crossed as a list of numbers are the same bytes |
| JsonParsers.JsonParser.Value | core/relayswarm-ffi/kotlin/uniffi/relayswarm_ffi/relayswarm_ffi.kt:35-127 | the descent terminates on every text, moves forward, and reads exactly the value of the grammar or fails |
| JsonParsers.ParseText | core/relayswarm-ffi/kotlin/uniffi/relayswarm_ffi/relayswarm_ffi.kt:39-43 | the parser's answer for any text: one value with nothing but white space after it, or none |
| JsonParsers.Render | core/relayswarm-ffi/kotlin/uniffi/relayswarm_ffi/relayswarm_ffi.kt:8-33 | the printer's text of any value, with the loop that escapes strings |
| JsonParsers.PrintAndParse | core/relayswarm-ffi/kotlin/uniffi/relayswarm_ffi/relayswarm_ffi.kt:8-127 | the parser, given what the printer makes of a value, returns that value, or refuses it for a number that was parsed before |

## Left out

Of the scheduler:

- Transfers.Transfer.Start: a mixed transfer is started once, and one of its estimates names origin. The code allows a second start, which plans every piece again, so no piece would be asked only once; and without an origin lane it would leave the pieces unassigned that its probes do not take.
- Transfers.Transfer.Finish: the buffer a delivery takes is empty afterwards, as in the code, so `VerifiedIsCommitted` speaks of the time until the end.
- Floating point: estimates and projections are reals, an infinite projection is `None`, not-a-number and rounding are not modelled.
- Digests are given as values; decoding their hexadecimal text, and rejecting one that does not decode, is not modelled.
- Overflow of times near 2^64 and of identifiers is not modelled.
- Two branches that no call can reach: an empty plan handed to origin in mixed mode, and a peer-only transfer that queues origin work.

Of the link:

- Advisory frames (`have`, `contribution`, `fetching`), the version counter and what they feed.
- Control frames are datatypes: JSON text of a frame, its limit of 65 536 UTF-16 units and number formatting are left out; an unreadable frame is one case.
- TwoLinks.NeverAccused: each shell serves what it holds or declines, expects the true size, and holds non-empty objects within the other's size limit; the reliable flag does not change during a run.

Of discovery and selection:

- Holder misses and holders that are ahead, forgetting a peer, the snapshot and the counters.
- The bandwidth observations of selection (`observe`, `rate`, `project_ms`, `minimum_ms`) and their quantiles.
- Neighbours.ReplacementBudget: requires a clock that never goes back.
- Neighbours.KeyStaysDemanded: requires such a clock, and that every attempt began with what was just found.

Of the codecs:

- Strings are byte sequences in records and UTF-16 units in JSON; conversion between the two, and the replacement of malformed text by the platform, is not modelled. Validity of a text is a parameter.
- An exception of a reader or parser is `None`.
- Records.StateRoundTrip: records and lists of 2^31 bytes or more do not fit the facade's arrays.
- Numbers in JSON are their texts: what text a host number or double has, and what a text is worth to the host, is left out, except for bytes.
- A value of another class, and a map with keys that are no strings, cannot be printed; such values are not modelled.
- White space is what recent versions of Kotlin count as such, and digits of other scripts in a `\u` escape are not accepted.

Everything else: signature, delegation and event verification, the C interface's handles and pointers, the
Java, Swift and web bindings, `player_hint.rs`, relays, network and demos.
