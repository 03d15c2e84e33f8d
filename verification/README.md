# Phoenix channel runtime: a verified model

This project models the protocol core of a Phoenix Channels V2 client and proves what it
keeps over every run.

* **The managed driver** (`Driver*.dfy`). `DriverSpec` gives the driver as functions on
  values: its records, its entries for what it has transmitted, the payload loads and
  timers of one connection, and one function for each thing a turn of its loop can do.
  `Run` in `DriverRuns` takes any sequence of turns, with any transport behaviour and any
  number of reconnects. Beside the state there is what an observer would write down: a
  ledger of what became of each request, and a trace of the frames handed to the
  transport. `DriverObject.DriverState` is the driver in its own form, an object that
  updates maps, queues and flags in place; each method is proved to do what the
  function of the same name does, and `DriverState.Run` to go through exactly the states
  of a run. The other modules prove the properties of those runs: agreement with the
  protocol (`DriverBooks`, `DriverLinks`), conservation of responders (`DriverLedger`,
  `DriverConservation`, `DriverFates`), the order of the wire (`DriverFlow`,
  `DriverOrder`), the offline phases (`DriverOffline`), progress of desired channels
  (`DriverProgress`, `DriverDeferral`, `DriverStranding`), payload freshness
  (`DriverLoads`), end-to-end correlation of replies (`DriverReplies`), answers that fit
  their requests (`DriverAnswers`) and frames that carry them (`DriverContents`).
* **The driver's table** (`DriverTable`). The same driver once more, by what an observer
  sees and not by what the driver does: from the state a turn finds and the frame it
  hears, the frames that go out, whether and why the connection ends, the fate of every
  request, and each topic's wish, status, load, rejoin timer, channel and leaves.
  `DriverOutbox`, `DriverVerdicts`, `DriverRecords`, `DriverBookkeeping` and `DriverLeaves`
  prove that every turn is the table's. `DriverCauses` says what that means over runs:
  each answer has its cause, each waiting join is served, and what is reported sent is on
  the wire.
* **The protocol state machine** (`Protocol*.dfy`, `References.dfy`): join generations,
  pending requests and reference allocation. `ProtocolFrames` says word by word what is
  sent and what a frame means.
* **Presence** (`Presence.dfy`, `PresenceTracker.dfy`, `EventStream.dfy`,
  `ChannelPresence.dfy`): state and diff synchronisation, the tracker, the bounded event
  stream that feeds it, and the consumer on top.
* **The native worker's cancellation handshake** (`NativeWorker.dfy`): two queues drained
  in any order.
* **The binary codec** (`Codec.dfy`): the three server layouts and the client push, by
  fields and (`CodecBytes`) byte by byte, and UTF-8 against its scalar values.

How it is modelled. An asynchronous turn is one step. A `oneshot` responder is a request
id; using it is an entry in the ledger. `transport.send` succeeds a given number of times
and then fails in the codec or the transport (`Net`). Timers, payload loads and rejoin
timers are sets of outstanding completions, any of which may come next. Requests
(lifecycle and command queues) arrive in any order with fresh ids. Map iteration follows
an arbitrary order. References are numbers; `References` shows that comparing them is
comparing their decimal renderings.

Where the code does not do what its documentation or names suggest, the code is followed:

* A join timeout that finds a deferred leave does not reschedule a topic that was desired
  again meanwhile. Unless a rejoin timer of the topic is still outstanding, nothing will
  ever join it: `DriverStranding.StrandedRun` is such a run. `DriverRuns.NeverStuckIff`
  says that a run has no stuck topic exactly when it has no such turn.
* `sync_state` is documented to replace the state. It keeps the old meta of a retained
  reference, keeps the other fields of an entry that gains no meta, puts new metas last,
  and drops a key whose entry arrives emptied. `Presence.SyncStateReplacesIff` is the
  exact condition; `RetainedMetaIsStale` and `EmptiedEntryIsDropped` are inputs.
* The tracker keeps diffs that overtake their snapshot and applies them after it. Without
  a join reference the order of arrival matters all the same, since diffs after the
  snapshot wait too: `PresenceTracking.ArrivalOrderIff`.
* The worker's set of announced requests is not always cleaned:
  `NativeWorkerLaws.AnnouncementLingersIff`.
* A plain `join` of an errored or closed topic can leave two joins pending:
  `ProtocolLaws.JoinCoherentIff`. The driver uses `rejoin` there.
* A malformed reply to a join or leave leaves its channel waiting for nothing:
  `ProtocolLaws.ReceiveKeepsAwaitingIff`. The driver ends the connection then.

`dafny verify dfyconfig.toml` checks the whole project.

## Model

| member | source | states |
|---|---|---|
| ProtocolObject.Protocol.Join | crates/phoenix-channel-runtime/src/protocol.rs:168-209 | refuses a topic that is joining, joined or leaving; otherwise starts a fresh generation and emits its phx_join |
| ProtocolObject.Protocol.Rejoin | crates/phoenix-channel-runtime/src/protocol.rs:212-226 | restarts a disconnected, errored or closed topic after dropping everything pending for it |
| ProtocolObject.Protocol.RejoinAllWithStoredParams | crates/phoenix-channel-runtime/src/protocol.rs:229-246 | rejoins each inactive topic exactly once, in the order the map yields them, with its stored parameters |
| ProtocolObject.Protocol.Leave | crates/phoenix-channel-runtime/src/protocol.rs:249-278 | leaves a joined topic; a refused leave still uses up a reference |
| ProtocolObject.Protocol.Push | crates/phoenix-channel-runtime/src/protocol.rs:281-313 | emits a push on the topic's generation and records its request; refused unless joined |
| ProtocolObject.Protocol.Cast | crates/phoenix-channel-runtime/src/protocol.rs:318-332 | emits a push without a reference; refused unless joined |
| ProtocolObject.Protocol.ForgetPush | crates/phoenix-channel-runtime/src/protocol.rs:338-345 | drops a pending push and nothing else, and says whether it did |
| ProtocolObject.Protocol.ForgetHeartbeat | crates/phoenix-channel-runtime/src/protocol.rs:349-356 | drops a pending heartbeat and nothing else, and says whether it did |
| ProtocolObject.Protocol.DiscardChannel | crates/phoenix-channel-runtime/src/protocol.rs:362-378 | removes a topic with every pending request of its own |
| ProtocolObject.Protocol.Heartbeat | crates/phoenix-channel-runtime/src/protocol.rs:381-394 | emits a heartbeat on a fresh reference and records it |
| ProtocolObject.Protocol.Receive | crates/phoenix-channel-runtime/src/protocol.rs:397-429 | classifies a frame: stale, reply, close, error or message, with the state each leaves |
| ProtocolObject.Protocol.ReceiveReply | crates/phoenix-channel-runtime/src/protocol.rs:462-509 | completes the pending request a reply names; a malformed reply consumes the request and fails; what the words mean is ProtocolFrames.JoinReplyMeans and its companions |
| ProtocolObject.Protocol.ResetConnection | crates/phoenix-channel-runtime/src/protocol.rs:432-460 | disconnects every channel, empties the pending map and reports each interrupted request once, heartbeats excepted |
| ProtocolLaws.StepKeepsCoherence | crates/phoenix-channel-runtime/src/protocol.rs:168-509 | under the driver's discipline every operation keeps pending joins and leaves coherent with their channels: at most one of either per topic, on the current generation, none for a joined topic |
| ProtocolLaws.JoinCoherentIff | crates/phoenix-channel-runtime/src/protocol.rs:168-209 | a plain join keeps coherence exactly when the topic is active or has no join or leave pending |
| ProtocolLaws.JoinAfterErrorIsIncoherent | crates/phoenix-channel-runtime/src/protocol.rs:174-179 | a topic that errors while joining and is joined again without rejoin ends with two pending joins |
| ProtocolLaws.ReceiveKeepsAwaitingIff | crates/phoenix-channel-runtime/src/protocol.rs:397-509 | every joining or leaving channel still awaits its reply after a frame, exactly unless the frame is a reply, not stale, whose payload is malformed and whose reference is the request such a channel awaits |
| ProtocolLaws.StepKeepsAwaitingIff | crates/phoenix-channel-runtime/src/protocol.rs:168-509 | every other operation keeps that always |
| ProtocolLaws.MalformedReplyOrphans | crates/phoenix-channel-runtime/src/protocol.rs:462-474 | a join answered with nonsense stays joining with nothing pending |
| ProtocolFrames.JoinReplyMeans | crates/phoenix-channel-runtime/src/protocol.rs:462-543 | a reply to a join accepts it exactly if its status is the word "ok" and refuses it exactly if it is "error", each with the response of either envelope form; any other reply is refused itself, and only that topic moves |
| ProtocolFrames.LeaveReplyMeans | crates/phoenix-channel-runtime/src/protocol.rs:462-543 | either word ends a leave and forgets its channel; any other reply is refused and moves nothing |
| ProtocolFrames.PushReplyMeans | crates/phoenix-channel-runtime/src/protocol.rs:462-543 | the reply to a push or heartbeat carries its own word on and moves no channel |
| ProtocolFrames.RefusedReplyMeans | crates/phoenix-channel-runtime/src/protocol.rs:519-543 | a reply without either word is an invalid status if it is an envelope and an invalid payload if it is none |
| ProtocolFrames.OtherFrameMeans | crates/phoenix-channel-runtime/src/protocol.rs:397-429 | a frame of another generation or a reply to nothing changes nothing, "phx_close" closes and "phx_error" fails its topic, and every other frame is a message |
| ProtocolFrames.FramesSent | crates/phoenix-channel-runtime/src/protocol.rs:168-394 | the literal frame of each operation: event, topic, references and payload |
| ProtocolFrames.RefusedIff | crates/phoenix-channel-runtime/src/protocol.rs:168-332 | each operation is refused exactly for the listed states of its topic, with its own error |
| ProtocolFrames.RequestsRecorded | crates/phoenix-channel-runtime/src/protocol.rs:168-394 | what each operation records under the reference it takes, and that a rejoin drops what its topic waited for and nothing else |
| ProtocolFrames.RequestsForgotten | crates/phoenix-channel-runtime/src/protocol.rs:335-460 | what forgetting, discarding and a lost connection remove, request by request |
| ProtocolFrames.InterruptedIff | crates/phoenix-channel-runtime/src/protocol.rs:432-460 | the loss of a connection reports a request exactly if it was pending, under its own event, heartbeats excepted |
| ProtocolRuns.EveryRunIsSound | crates/phoenix-channel-runtime/src/protocol.rs:168-517 | over every disciplined run: coherence, one fate per reference, and every push, cast or leave frame carries a generation whose join was accepted since the last reset |
| ProtocolRuns.AwaitingSinceReset | crates/phoenix-channel-runtime/src/protocol.rs:397-460 | since the connection was reset every joining or leaving channel has its pending request, unless the reply to such a request was malformed |
| ProtocolRuns.StepAccounts | crates/phoenix-channel-runtime/src/protocol.rs:338-517 | every allocated reference is pending or has exactly one fate, and no step revises a fate |
| ProtocolRuns.ReferencesAreFresh | crates/phoenix-channel-runtime/src/protocol.rs:511-517 | the next reference was never used before in the run |
| ProtocolFrames.JoinedWasAcknowledged | crates/phoenix-channel-runtime/src/protocol.rs:397-517 | over every run a joined or leaving channel is of a generation to which a frame has said "ok" since the last reset |
| ProtocolFrames.ReplyNamesItsPush | crates/phoenix-channel-runtime/src/protocol.rs:462-509 | whatever happens between a push and its reply, the reply names the topic and event that were pushed and carries the server's word and response |
| ProtocolRuns.OldGenerationsStayStale | crates/phoenix-channel-runtime/src/protocol.rs:397-402 | once a topic has left a generation, no later frame naming it changes anything while the topic is present |
| ProtocolRuns.GenerationsIncrease | crates/phoenix-channel-runtime/src/protocol.rs:183-191 | over rejoins, removals and reconnects a topic's join reference is strictly greater after any join or rejoin of it that succeeded, and the same if none did |
| ProtocolRuns.RejoinAllSendsOneJoinEach | crates/phoenix-channel-runtime/src/protocol.rs:229-246 | rejoining distinct inactive topics sends one join for each, in order, on consecutive fresh references with the stored parameters |
| ProtocolRuns.RejoinAllPassesOver | crates/phoenix-channel-runtime/src/protocol.rs:229-246 | of any list of topics exactly the inactive ones are rejoined, in its order |
| ProtocolRuns.ResetThenRejoinAll | crates/phoenix-channel-runtime/src/protocol.rs:229-250 | reset followed by rejoining yields exactly one fresh join per known topic, with its stored parameters |
| References.ClassifyIff | crates/phoenix-channel-runtime/src/protocol.rs:511-517 | a string on the wire is the decimal rendering of reference n exactly when it is classified as n |
| References.DecimalInjective | crates/phoenix-channel-runtime/src/protocol.rs:511-517 | different references have different decimal renderings |
| DriverObject.DriverState.constructor | crates/phoenix-channel-client/src/client/mod.rs:1255-1281 | a new driver holds nothing, and is connecting or idle |
| DriverObject.DriverState.Register | crates/phoenix-channel-client/src/client/mod.rs:1940-1964 | a new topic gets an empty record; a known one is left alone |
| DriverObject.DriverState.Unregister | crates/phoenix-channel-client/src/client/mod.rs:1975-1979 | interrupts everything held for the topic, removes its record and discards it from the protocol |
| DriverObject.DriverState.RequestUnregister | crates/phoenix-channel-client/src/client/mod.rs:1761-1790 | a joined topic is left on the wire before it is forgotten; nobody waits for that leave |
| DriverObject.DriverState.StopChannel | crates/phoenix-channel-client/src/client/mod.rs:2586-2624 | interrupts the deferred leave, the join waiters and the queued pushes of a topic, and undesires it |
| DriverObject.DriverState.Queue | crates/phoenix-channel-client/src/client/mod.rs:1981-1995 | queues a push in order within the capacity, or answers it with the exact reason it is refused |
| DriverObject.DriverState.LoadPayload | crates/phoenix-channel-client/src/client/mod.rs:1997-2031 | starts one numbered payload load for a desired topic that is not active and is not loading |
| DriverObject.DriverState.ScheduleRejoin | crates/phoenix-channel-client/src/client/mod.rs:2276-2296 | starts a rejoin timer for a desired topic that has none |
| DriverObject.DriverState.SendFrame | crates/phoenix-channel-client/src/client/mod.rs:2480-2502 | hands one frame to the transport, or ends the connection with the codec's or the transport's failure |
| DriverObject.DriverState.SendPush | crates/phoenix-channel-client/src/client/mod.rs:2410-2478 | sends a call under its reference or a cast, or answers it when the transport cannot carry binary |
| DriverObject.DriverState.Flush | crates/phoenix-channel-client/src/client/mod.rs:2393-2408 | sends the queue of a topic from its head until it is empty or the connection fails |
| DriverObject.DriverState.RequestJoin | crates/phoenix-channel-client/src/client/mod.rs:1817-1838 | offline, joined and joinable cases of a join command, with what becomes of its responder; that it is remembered is DriverCauses.JoinIsRemembered |
| DriverObject.DriverState.RequestPush | crates/phoenix-channel-client/src/client/mod.rs:1839-1878 | a call or cast is sent at once on a joined topic and queued otherwise |
| DriverObject.DriverState.RequestLeave | crates/phoenix-channel-client/src/client/mod.rs:1879-1931 | a leave is sent, deferred behind the join on the wire, or answered at once |
| DriverObject.DriverState.RequestPing | crates/phoenix-channel-client/src/client/mod.rs:1805-1816 | a ping is registered under a fresh heartbeat reference and sent; refused while offline |
| DriverObject.DriverState.Cancel | crates/phoenix-channel-client/src/client/mod.rs:2504-2584 | the searches over all containers silence exactly the request that the ledger says is held |
| DriverObject.DriverState.HandlePayload | crates/phoenix-channel-client/src/client/mod.rs:2033-2089 | a finished load that is still its topic's active one starts the join that carries it |
| DriverObject.DriverState.HandleIncoming | crates/phoenix-channel-client/src/client/mod.rs:2091-2274 | what each protocol event does to records, responders, books and wire; the table of what is observed is DriverVerdicts.NextIsJudged and its companions |
| DriverObject.DriverState.HandleHeartbeat | crates/phoenix-channel-client/src/client/mod.rs:1624-1635 | the second beat without an answer ends the connection |
| DriverObject.DriverState.HandleRejoin | crates/phoenix-channel-client/src/client/mod.rs:1648-1657 | a rejoin timer clears its flag and loads the payload of a topic that is still desired |
| DriverObject.DriverState.HandleJoinTimeout | crates/phoenix-channel-client/src/client/mod.rs:2322-2358 | a join timeout tears its topic down and settles the deferred leave, the waiters, or neither |
| DriverObject.DriverState.HandleLeaveTimeout | crates/phoenix-channel-client/src/client/mod.rs:2359-2388 | a leave timeout answers its leave, discards the topic and reloads it if desired |
| DriverObject.DriverState.HandleDisconnect | crates/phoenix-channel-client/src/client/mod.rs:2626-2686 | the drains of all transmitted containers amount to the simultaneous interruption of exactly those requests |
| DriverObject.DriverState.Connect | crates/phoenix-channel-client/src/client/mod.rs:1500-1514 | a new connection clears the rejoin flags and loads every desired topic in the map's order |
| DriverObject.DriverState.TakeTurn | crates/phoenix-channel-client/src/client/mod.rs:1518-1668 | one turn of the loop, with what follows the end of the connection, keeps the whole invariant |
| DriverObject.DriverState.Run | crates/phoenix-channel-client/src/client/mod.rs:1283-1436 | the object goes through exactly the states of the specified run, for any interleaving of actions and failures |
| DriverRuns.NextHolds | crates/phoenix-channel-client/src/client/mod.rs:1518-1668 | every turn keeps the invariant, and the protocol never refuses the driver's own join, rejoin, leave, push or cast |
| DriverRuns.RunNeverMisuses | crates/phoenix-channel-client/src/client/mod.rs:1896-1900 | over every run no turn ends because the protocol refused a call of the driver |
| DriverRuns.ProtocolExitsIff | crates/phoenix-channel-client/src/client/mod.rs:2100-2114 | a protocol failure ends a connection exactly when a malformed reply arrived; the codec does only on an undecodable or unencodable frame |
| DriverRuns.CorrelationCovers | crates/phoenix-channel-client/src/client/mod.rs:1805-1816 | between turns every pending push, leave and running join has its own entry and timer, and the pending heartbeats are exactly the pings and the loop's own, disjointly |
| DriverRuns.EveryRequestHasOneFate | crates/phoenix-channel-client/src/client/mod.rs:1684-1759 | over every run an accepted request is held by exactly the container its fate names, or by none and was answered once or silenced; offline only queues and waiters hold any |
| DriverRuns.FatesAreFinal | crates/phoenix-channel-client/src/client/mod.rs:2504-2584 | however a run continues, an answer is never revised and a request is silenced only by its own cancel |
| DriverRuns.WireIsOrdered | crates/phoenix-channel-client/src/client/mod.rs:1839-1878 | over any number of reconnects each call or cast goes out at most once, per topic in order of acceptance, on an accepted generation; each join carries the topic's latest load, which no other join carries |
| DriverOutbox.NextIsTabled | crates/phoenix-channel-client/src/client/mod.rs:1518-1668 | every turn hands over exactly the frames of the table, literally, as far as the transport takes them, and leaves the driver in the table's phase |
| DriverOutbox.FlushSends | crates/phoenix-channel-client/src/client/mod.rs:2393-2478 | a flush sends the sendable pushes of the queue in order, the calls on consecutive references, and ends the connection exactly if they outnumber what the transport takes |
| DriverVerdicts.NextIsJudged | crates/phoenix-channel-client/src/client/mod.rs:1518-1668 | after every turn the fate of every request is the table's, from where it waited and what the turn heard |
| DriverVerdicts.FlushFates | crates/phoenix-channel-client/src/client/mod.rs:2393-2478 | which queued pushes a flush sends, answers, leaves queued or loses with the connection, by their position in the queue |
| DriverRecords.NextTopics | crates/phoenix-channel-client/src/client/mod.rs:1518-1668 | after every turn the registered topics, and whether each is desired, has ever been joined and which status it shows, are the table's |
| DriverRecords.NextLoads | crates/phoenix-channel-client/src/client/mod.rs:1997-2089 | after every turn the payload loads, the load each topic waits for and the rejoin timers are the table's: each is started, dropped and kept exactly then |
| DriverBookkeeping.NextIsBooked | crates/phoenix-channel-client/src/client/mod.rs:1792-2391 | after every turn the protocol's channel of each topic with its state, generation and join payload, the timers, the heartbeat, the pending joins and the accepted generations are the table's |
| DriverLeaves.NextIsTabled | crates/phoenix-channel-client/src/client/mod.rs:1879-2391 | after every turn each topic's deferred leave and each leave on the wire are the table's: a cancelled leave goes on unheard, a deferred one goes out with the accepted join, and a lost connection leaves none |
| DriverCauses.RunFollowsTable | crates/phoenix-channel-client/src/client/mod.rs:1283-1436 | over every run each turn is the table's in every respect |
| DriverCauses.AnswersHaveCauses | crates/phoenix-channel-client/src/client/mod.rs:1684-2686 | over every run a request was answered only in a turn that justifies it: accepted and refused joins by the server's word to their own join, timeouts by their own timer, LoaderFailed by the failed load, Sent by the frame going out, and each refusal under its own condition |
| DriverCauses.SentIsOnWire | crates/phoenix-channel-client/src/client/mod.rs:2450-2478 | over every run a cast reported as sent is on the wire |
| DriverCauses.WaitersAreServed | crates/phoenix-channel-client/src/client/mod.rs:1817-1838 | over every run whoever waits for a join waits for a registered, desired topic; connected, the topic moves unless a join timeout has stranded it |
| DriverCauses.JoinIsRemembered | crates/phoenix-channel-client/src/client/mod.rs:1703-1712 | a join of a registered topic leaves it desired in every phase, its request waits unless the topic is joined, and an inactive topic of a connected driver loads |
| DriverCauses.ConnectingServesAll | crates/phoenix-channel-client/src/client/mod.rs:1500-1514 | when the connection comes up every desired topic waits to join and has a load outstanding unless it is active |
| DriverCauses.RefusalAnswersItsWaiters | crates/phoenix-channel-client/src/client/mod.rs:2162-2185 | a reply "error" to a join answers exactly the topic's waiters with the server's response and finishes a deferred leave; no other request changes, nothing is sent, and a desired topic rejoins |
| DriverCauses.JoinedWasSaidOk | crates/phoenix-channel-client/src/client/mod.rs:2116-2160 | over every run a topic is joined only after a frame on this very connection has said "ok" to its current generation |
| DriverCauses.BinaryNeedsTransport | crates/phoenix-channel-client/src/client/mod.rs:2410-2425 | no turn hands a binary payload to a transport that cannot carry it |
| DriverContents.WireCarriesRequests | crates/phoenix-channel-client/src/client/mod.rs:2410-2478 | over every run each call or cast on the wire carries the topic, event and payload it was asked with, a join reference, and a request reference exactly if it is a call |
| DriverContents.HandOverDelivers | crates/phoenix-channel-client/src/client/mod.rs:2410-2478 | the frame of a call or cast names its topic's current join generation, the one whose acceptance the wire records |
| DriverRuns.QueuesAreBounded | crates/phoenix-channel-client/src/client/mod.rs:1981-1995 | over every run no queue exceeds the configured capacity and a joined topic's queue is empty |
| DriverRuns.JoinedStatusIsBacked | crates/phoenix-channel-client/src/client/mod.rs:2117-2139 | the status Joined is shown only for a topic that is joined on a generation accepted on this connection |
| DriverRuns.OfflineIsEmpty | crates/phoenix-channel-client/src/client/mod.rs:2626-2686 | while offline no request, timer, load or heartbeat is outstanding, in the driver or in the protocol |
| DriverRuns.DeadLoadsAreNeverSent | crates/phoenix-channel-client/src/client/mod.rs:2033-2046 | a load that was abandoned is never carried by a join, however the run continues |
| DriverRuns.NoStuckChannel | crates/phoenix-channel-client/src/client/mod.rs:1997-2089 | in runs in which no join timeout strands its topic, every desired topic of a connected driver is joined, joining or leaving with entry and timer, loading, or waiting for a rejoin timer |
| DriverRuns.NeverStuckIff | crates/phoenix-channel-client/src/client/mod.rs:2322-2358 | a run has a stuck topic in none of its states exactly when none of its turns is a join timeout whose topic has a deferred leave, is desired and has no rejoin timer outstanding |
| DriverRuns.TurnSticksIff | crates/phoenix-channel-client/src/client/mod.rs:2322-2358 | from a state in which every desired topic moves, a turn leaves one stuck exactly when it is such a join timeout |
| DriverRuns.PatientCallersNeverStick | crates/phoenix-channel-client/src/client/mod.rs:1918-1927 | a caller that requests no join while a leave is deferred never sees a topic stuck |
| DriverStranding.StrandedRun | crates/phoenix-channel-client/src/client/mod.rs:2334-2341 | a concrete run with a join requested while a leave is deferred ends with a desired topic and an unanswered waiter for which nothing is outstanding |
| DriverProgress.JoinTimedOutMovesIff | crates/phoenix-channel-client/src/client/mod.rs:2322-2358 | a join timeout keeps every desired topic moving exactly unless its own topic has a deferred leave, is desired and has no rejoin timer outstanding |
| DriverProgress.StrandedIsStuck | crates/phoenix-channel-client/src/client/mod.rs:2334-2341 | after such a timeout the topic is desired and has no request, load or rejoin timer that could move it |
| DriverProgress.NextMovesIff | crates/phoenix-channel-client/src/client/mod.rs:1518-1668 | every other turn keeps every desired topic moving, and that one leaves its topic stuck |
| DriverProgress.MovingIsUnstuck | crates/phoenix-channel-client/src/client/mod.rs:1997-2089 | what moves a desired topic on comes with the entry and the timer that will fire |
| DriverDeferral.NextSettles | crates/phoenix-channel-client/src/client/mod.rs:1918-1927 | a topic with a deferred leave stays undesired unless a join is requested for it meanwhile |
| DriverDeferral.NextKeepsClosed | crates/phoenix-channel-client/src/client/mod.rs:2528-2536 | a leave loses its responder before its answer only by its own cancel |
| DriverLinks.NextIsSound | crates/phoenix-channel-client/src/client/mod.rs:1792-2391 | every turn keeps the driver's entries in agreement with the embedded protocol |
| DriverBooks.ReceiveStaysLinked | crates/phoenix-channel-client/src/client/mod.rs:2107-2239 | removing the entries of a frame's event restores the agreement, whatever the frame |
| DriverConservation.ActConserves | crates/phoenix-channel-client/src/client/mod.rs:1684-1931 | every action keeps containers and fates in agreement, with no responder lost, duplicated or used twice |
| DriverConservation.DisconnectInterrupts | crates/phoenix-channel-client/src/client/mod.rs:2626-2686 | a lost connection answers each transmitted call, ping and leave, and each deferred leave, with its own interruption and changes no other request |
| DriverFates.NextGrows | crates/phoenix-channel-client/src/client/mod.rs:1518-1668 | over any turn no final fate changes and no request returns to a queue; a cancel silences at most its own request and no other turn silences any |
| DriverFlow.FlushFlows | crates/phoenix-channel-client/src/client/mod.rs:2393-2478 | flushing after an accepted join keeps the order of the wire and leaves the queue empty unless the connection ends |
| DriverFlow.DisconnectFlows | crates/phoenix-channel-client/src/client/mod.rs:2626-2686 | queues that survive a disconnect are still in order behind the wire |
| DriverOrder.NextFlows | crates/phoenix-channel-client/src/client/mod.rs:1518-1668 | every turn keeps the wire in order, joined topics drained and the status Joined truthful |
| DriverOffline.NextIsQuiet | crates/phoenix-channel-client/src/client/mod.rs:1684-1759 | offline turns leave every transmitted container and the protocol's pending map empty |
| DriverAnswers.EveryAnswerFits | crates/phoenix-channel-client/src/client/mod.rs:1684-2686 | over every run a request is answered only as the operation it is: a call never hears of a leave, nor a join of a push |
| DriverReplies.ReplyFindsItsCall | crates/phoenix-channel-client/src/client/mod.rs:2186-2206 | a push reply resolves the call under its reference, which is of the same topic, and no other request |
| DriverReplies.LeaveReplyFindsItsLeave | crates/phoenix-channel-client/src/client/mod.rs:2207-2216 | a leave reply resolves the leave under its reference if its responder is still there, and no other request |
| DriverReplies.HeartbeatFindsItsPing | crates/phoenix-channel-client/src/client/mod.rs:2233-2240 | a heartbeat reply clears the loop's own heartbeat or resolves the ping under its reference, and nothing else |
| DriverReplies.JoinReplyAnswersItsWaiters | crates/phoenix-channel-client/src/client/mod.rs:2116-2160 | an accepted join answers exactly the waiters of its topic with the server's response |
| DriverLoads.NextIsFresh | crates/phoenix-channel-client/src/client/mod.rs:1997-2089 | loads become wanted only by being started, only a wanted load is sent, and it is its topic's latest |
| DriverLoads.LeaveAbandons | crates/phoenix-channel-client/src/client/mod.rs:2586-2591 | a leave abandons the topic's active load for good |
| DriverLoads.UnregisterAbandons | crates/phoenix-channel-client/src/client/mod.rs:1975-1979 | dropping the handle abandons the topic's active load for good |
| DriverLoads.CancelAbandons | crates/phoenix-channel-client/src/client/mod.rs:2513-2524 | cancelling the last waiter of a channel that never joined abandons its load for good |
| DriverLoads.JoinTimeoutAbandons | crates/phoenix-channel-client/src/client/mod.rs:2331-2333 | a join timeout abandons the topic's active load for good |
| DriverLoads.DisconnectAbandons | crates/phoenix-channel-client/src/client/mod.rs:2658-2660 | a lost connection abandons every active load for good |
| PresenceObject.SyncDiffInto | crates/phoenix-channel-runtime/src/presence.rs:250-281 | the two loops apply joins then leaves as specified; they fail exactly when a joining or leaving meta has no reference, and then whole entries of the diff have been applied, leaves only after every join |
| PresenceObject.SyncStateInto | crates/phoenix-channel-runtime/src/presence.rs:203-247 | the loops reach the full state and report its differences; they fail exactly when a meta of either state has no reference, before anything is applied if its key is in both states and otherwise with whole entries of the differences applied |
| PresenceObject.ExtendState | crates/phoenix-channel-runtime/src/presence.rs:99-107 | collected changes gain the metas of each key |
| PresenceObject.PresenceTracker.Apply | crates/phoenix-channel-runtime/src/presence.rs:166-194 | snapshots, diffs of the current generation, waiting diffs and refused frames, with the state each leaves |
| PresenceObject.PresenceTracker.Reset | crates/phoenix-channel-runtime/src/presence.rs:159-163 | clears state, generation and waiting diffs |
| Presence.DiffAlgebra | crates/phoenix-channel-runtime/src/presence.rs:250-281 | on (key, reference) pairs a diff adds its joins and then takes its leaves away |
| Presence.DiffIdempotent | crates/phoenix-channel-runtime/src/presence.rs:250-281 | applying a diff a second time changes nothing |
| Presence.DiffStaysProper | crates/phoenix-channel-runtime/src/presence.rs:250-281 | entries stay non-empty and references distinct per key |
| Presence.SyncStateReaches | crates/phoenix-channel-runtime/src/presence.rs:203-247 | each key ends with exactly the references of the full state, whatever the entries |
| Presence.SyncStateKeysIff | crates/phoenix-channel-runtime/src/presence.rs:203-247 | the resulting keys are the full state's exactly when no entry that still has metas arrives emptied |
| Presence.SyncStateEntry | crates/phoenix-channel-runtime/src/presence.rs:208-281 | a key in both states ends with its retained metas as they were, then the new ones as they come; its other fields change only if a meta is new |
| Presence.SyncStateReplacesIff | crates/phoenix-channel-runtime/src/presence.rs:203-247 | syncing replaces the state by the full one exactly when for each key of both nothing is emptied, the retained metas have the same contents and order, and the other fields are the same or some meta is new |
| Presence.SameRefsStayStale | crates/phoenix-channel-runtime/src/presence.rs:209-244 | an entry whose references have not changed stays as it was, whatever else the full state says of it |
| Presence.RetainedMetaIsStale | crates/phoenix-channel-runtime/src/presence.rs:213-229 | a full state with new contents for a retained reference is not taken over |
| Presence.EmptiedEntryIsDropped | crates/phoenix-channel-runtime/src/presence.rs:264-278 | an entry that arrives without metas is dropped |
| Presence.ReportedEntries | crates/phoenix-channel-runtime/src/presence.rs:208-244 | what a reported join or leave says of its key: the new metas under the new entry's fields, the vanished ones under the old entry's |
| Presence.UntaggedIsEmpty | crates/phoenix-channel-runtime/src/presence.rs:256-279 | a meta without a reference counts as one with an empty reference |
| Presence.ChangesAreDifferences | crates/phoenix-channel-runtime/src/presence.rs:208-244 | the reported joins and leaves are exactly the two differences of references per key |
| Presence.SecondSyncIsSilentIff | crates/phoenix-channel-runtime/src/presence.rs:203-247 | syncing the same full state again reports nothing, exactly under that condition |
| Presence.SnapshotCovers | crates/phoenix-channel-runtime/src/presence.rs:174-182 | a snapshot with its waiting diffs reports every reference that appeared and every one that vanished |
| PresenceTracking.ArrivalOrderIrrelevant | crates/phoenix-channel-runtime/src/presence.rs:166-194 | wherever the snapshot of a generation arrives among its diffs, the tracker ends in the same state |
| PresenceTracking.ArrivalOrderIff | crates/phoenix-channel-runtime/src/presence.rs:166-194 | the outcome is the snapshot and then every diff in order, exactly if the frames carry a join reference or the snapshot comes last |
| PresenceTracking.WithoutGeneration | crates/phoenix-channel-runtime/src/presence.rs:181-187 | without a join reference every diff after the snapshot waits, for any tracker, snapshot and diffs |
| PresenceTracking.PlacementsDiffer | crates/phoenix-channel-runtime/src/presence.rs:181-187 | without a join reference two placements of the snapshot among the same diffs give the same tracker only if they are the same placement |
| PresenceTracking.GenerationIsNeeded | crates/phoenix-channel-runtime/src/presence.rs:181-187 | the shown states differ too: an arrival after an empty snapshot is not shown |
| PresenceTracking.UpdatesAreCovered | crates/phoenix-channel-runtime/src/presence.rs:166-194 | every update reports whatever it made appear or vanish, and refused frames change nothing shown |
| PresenceTracking.ApplyDecides | crates/phoenix-channel-runtime/src/presence.rs:166-194 | a frame is ignored exactly if its event is neither name, refused exactly if it is and its payload is binary or undecodable, kept waiting exactly if it is a diff of a generation the tracker does not hold, and synced otherwise |
| PresenceTracking.ApplyReaches | crates/phoenix-channel-runtime/src/presence.rs:166-194 | which references each key shows after a snapshot with its waiting diffs, or after a diff |
| EventStreams.EventSubscriber.SendBounded | crates/phoenix-channel-client/src/client/mod.rs:2770-2789 | the marker for what was missed goes first, then the event; what each outcome of the two sends leaves |
| EventStreams.OfferDelivers | crates/phoenix-channel-client/src/client/mod.rs:2770-2789 | the exact effect of an offer: a marker before anything else, an event sent or counted, a stream closed when its receiver is gone |
| EventStreams.OfferKeepsFaithIff | crates/phoenix-channel-client/src/client/mod.rs:2770-2789 | an offer keeps every gap in its exact place exactly unless the count was already saturated |
| EventStreams.StreamIsFaithful | crates/phoenix-channel-client/src/client/mod.rs:2770-2789 | for any capacity and drop pattern a stream shows every event in its place or counts it in a gap there |
| EventStreams.PlainIsContiguous | crates/phoenix-channel-client/src/client/mod.rs:2770-2789 | a stretch without markers is a contiguous run of the offered events |
| PresenceStream.ChannelPresence.Next | crates/phoenix-channel-client/src/client/presence.rs:105-166 | deliveries in order, lifecycle events and gaps as they are met; after a gap nothing is consumed or delivered; a decoding error is delivered only for a consumed presence frame that is binary or refused, and other messages deliver nothing |
| PresenceStream.ChannelPresence.Resync | crates/phoenix-channel-client/src/client/presence.rs:94-102 | clears what is shown; only when every step succeeds may events be consumed again |
| PresenceStream.ChannelPresence.Track | crates/phoenix-channel-client/src/client/presence.rs:117-142 | an update is reported as each joining key once, each shown leaving key once, and the mark |
| PresenceStream.ShownRunIsContiguous | crates/phoenix-channel-client/src/client/presence.rs:105-166 | the shown state is the outcome of consecutive offered events up to where the consumer has read |
| PresenceStream.ConsumerShowsASlice | crates/phoenix-channel-client/src/client/presence.rs:105-166 | over any delivery attempts with any drops, the tracker's state is the outcome of a slice of the events offered to its subscription |
| PresenceStream.ReportsMean | crates/phoenix-channel-client/src/client/presence.rs:117-142 | a report lists each joining key with its entry before, then each leaving key that was shown, then the mark, which comes last |
| NativeWorkerLaws.NextKeepsInv | crates/phoenix-channel-runtime-native/src/managed.rs:1284-1345 | every interleaving of hosts, operations and the worker keeps the handshake's invariant |
| NativeWorkerLaws.StartsIffNotCancelled | crates/phoenix-channel-runtime-native/src/managed.rs:1370-1592 | a command is started exactly when no cancellation of its request was processed before it |
| NativeWorkerLaws.CancelledIsNotRunning | crates/phoenix-channel-runtime-native/src/managed.rs:1294-1300 | once a cancellation has been processed its operation is not running |
| NativeWorkerLaws.CancelledNeverStarts | crates/phoenix-channel-runtime-native/src/managed.rs:1294-1300 | and it is never started or running again, however the run continues |
| NativeWorkerLaws.EveryRequestStartsOnce | crates/phoenix-channel-runtime-native/src/managed.rs:1611-1623 | over a whole run no request is started twice, a handled one that was never cancelled was started, and one whose cancellation was processed before it was handled was never started |
| NativeWorkerLaws.DrainedWorkerIsIdle | crates/phoenix-channel-runtime-native/src/managed.rs:1284-1345 | once the control queue is drained and no operation runs, the worker tracks none, and it holds a cancellation only of an announced request |
| NativeWorkerLaws.LingersIff | crates/phoenix-channel-runtime-native/src/managed.rs:1287-1305 | a handled request stays announced on every continuation exactly if its operation is not running and has not reported |
| NativeWorkerLaws.AnnouncementLingersIff | crates/phoenix-channel-runtime-native/src/managed.rs:1287-1299 | the announcement of a request that is done at once lingers for good exactly if its command was taken before it |
| NativeWorkerLaws.AnnouncementsCanLinger | crates/phoenix-channel-runtime-native/src/managed.rs:1287-1299 | a concrete run leaves the announcement of a handled channel creation behind on every continuation |
| NativeWorkerObject.HostRequestGuard.constructor | crates/phoenix-channel-runtime-native/src/managed.rs:898-920 | a request is announced, then guarded, then sent: the host's two steps of the specification |
| NativeWorkerObject.HostRequestGuard.Settle | crates/phoenix-channel-runtime-native/src/managed.rs:921-926 | only a successful result disarms the guard: the host's success step |
| NativeWorkerObject.HostRequestGuard.Drop | crates/phoenix-channel-runtime-native/src/managed.rs:952-958 | an armed guard cancels its request when it is dropped: the host's drop step |
| NativeWorkerObject.WorkerLoop.HandleControl | crates/phoenix-channel-runtime-native/src/managed.rs:1290-1305 | what each control command does to the worker's three sets |
| NativeWorkerObject.WorkerLoop.HandleHostCommand | crates/phoenix-channel-runtime-native/src/managed.rs:1370-1592 | a command is skipped if its cancellation is on record and started otherwise |
| NativeWorkerObject.WorkerLoop.Step | crates/phoenix-channel-runtime-native/src/managed.rs:1284-1345 | one turn takes the head of either queue: the worker's step of the specification |
| CodecMethods.EncodePush | crates/phoenix-channel-runtime/src/codec.rs:126-148 | the growing vector holds the kind, the four sizes, the fields and the payload; the first oversized field is refused; the literal bytes are CodecBytes.PushIsWritten |
| CodecMethods.BinaryFields | crates/phoenix-channel-runtime/src/codec.rs:195-219 | the moving offset cuts the fields the sizes describe and never leaves the input |
| CodecMethods.DecodeBinary | crates/phoenix-channel-runtime/src/codec.rs:150-193 | every input is decoded or refused with the source's own error; the literal layouts are CodecBytes.PushIsRead, ReplyIsRead and BroadcastIsRead |
| CodecBytes.PushIsRead | crates/phoenix-channel-runtime/src/codec.rs:155-165 | the bytes 0, three sizes, three fields and a payload are the push of these fields, or refused for the first field that is not UTF-8 |
| CodecBytes.ReplyIsRead | crates/phoenix-channel-runtime/src/codec.rs:166-181 | the bytes 1, four sizes, four fields and a payload are the reply of these fields, whose event is "phx_reply", or refused for the first field that is not UTF-8 |
| CodecBytes.BroadcastIsRead | crates/phoenix-channel-runtime/src/codec.rs:180-190 | the bytes 2, two sizes, two fields and a payload are the broadcast of these fields, or refused for the first field that is not UTF-8 |
| CodecBytes.RefusedLayouts | crates/phoenix-channel-runtime/src/codec.rs:150-219 | an input is truncated exactly if it is shorter than its own sizes say, and of unknown kind exactly if its first byte is above 2 |
| CodecBytes.PushIsWritten | crates/phoenix-channel-runtime/src/codec.rs:126-148 | an encoded push is the byte 0, its four sizes, its four fields and the payload; the first field over 255 bytes is named by the error |
| CodecBytes.IsUtf8Iff | crates/phoenix-channel-runtime/src/codec.rs:221-233 | the accepted fields are exactly the UTF-8 encodings of sequences of Unicode scalar values |
| CodecLaws.DecodeInvertsSerialize | crates/phoenix-channel-runtime/src/codec.rs:150-193 | every readable server message in the three layouts decodes to the frame it stands for |
| CodecLaws.AcceptedReserializes | crates/phoenix-channel-runtime/src/codec.rs:150-219 | an accepted input re-serialises to the same bytes |
| CodecLaws.AcceptedIff | crates/phoenix-channel-runtime/src/codec.rs:150-219 | an input is accepted exactly when it is the serialisation of a readable message |
| CodecLaws.EncodeFailsIff | crates/phoenix-channel-runtime/src/codec.rs:235-240 | encoding fails exactly when a field is over 255 bytes |
| CodecLaws.EncodeInjective | crates/phoenix-channel-runtime/src/codec.rs:126-148 | equal bytes come from equal pushes, up to an absent and an empty reference |
| CodecLaws.EchoedPushDecodes | crates/phoenix-channel-runtime/src/codec.rs:166-181 | a push whose kind byte is set to reply decodes to its own references, topic and payload with the event as status |
| CodecLaws.PushIsMisread | crates/phoenix-channel-runtime/src/codec.rs:131-164 | how every client push is read unchanged: each field cut one byte too early, the event and payload left in the body |
| CodecLaws.ClientPushIsNotAServerPush | crates/phoenix-channel-runtime/src/codec.rs:131-164 | a client push whose bytes are accepted unchanged is read with the event swallowed by the body, never as the push that was sent |

## Left out

- Counters: references, request ids and payload ids are unbounded numbers; the wrap-around after 2^64 - 1 allocations is not modelled.
- OfferKeepsFaithIff: the count of missed events saturates as in the source, and the condition says so; `StreamIsFaithful` is for fewer than 2^64 offered events.
- Durations, backoff delays, `join_attempt`, the join timeout carried per channel and the clock: timers may fire at any time instead.
- The bias of `select_biased!`: any ready action may come first, which includes the biased order.
- Telemetry, tracing, socket and channel subscribers' own bookkeeping inside the driver, and the statuses' change notifications.
- Shutdown: the driver stops with its channels shown as closed; what happens to responders that are dropped with it is not modelled.
- The responders of `Connect`, `Disconnect` and `Shutdown`, which the loop answers at once.
- Transports and connectors, page lifecycle, LongPoll, endpoint URLs and connection configuration: foreign calls.
- JSON text frames and typed decoding: payloads are opaque but for the reply envelope; presence maps are given as decoded or refused.
- Which entries a refused presence diff has applied depends on the map's order: the model says that they are whole entries and what they do, not which.
- The size limits of the limited codec, which compare two lengths.
- UTF-8 strings are their bytes; `str::from_utf8` is section 4 of RFC 3629.
- The worker's table of channels, its event pumps, shutdown, and thread start and join.
- `Session` and the web runtime: short sequential wrappers that would add only easy members.
- "A cancelled client call is never sent": not claimed, since the lifecycle queue can overtake the command queue; `FatesAreFinal` covers a request from its acceptance on.
