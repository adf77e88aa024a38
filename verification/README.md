# Verification of the SFU core

A Dafny 4.11 model of the selective forwarding unit in `internal/sfu`, of the room ownership in Redis that it relies on,
and of three self-contained algorithms beside it. `dafny verify dfyconfig.toml` checks everything.

Code that many goroutines run at once is modelled as a machine: a datatype for the shared state, a datatype of steps
(one step for each section under a lock, each atomic operation and each call that can interleave), and a function that
gives the state after a step or says that the step is not possible. A run is any sequence of steps by any number of
goroutines, nodes, peers and tracks, and the main results speak about every run. Code that changes objects in place is
modelled by classes with the same fields, whose methods are proved against functions on values.

## What is modelled

| file | models | kind |
|---|---|---|
| `Ownership.dfy` | ownership of a room in `CreateRoom`, `onRoomClosed`, `Close` over the Redis mapping (server.go 104-166, 234-258, 296-325; routing.go 29-59) | machine |
| `Flooding.dfy` | split-horizon forwarding over the bridges of a room (room.go 338-352, 475-483; cascade.go 91-107) | machine |
| `Subscriptions.dfy` | `Join`, `AddReceiver`, `RemoveReceiver`, `Leave`, `Peer.Close` and incoming cascade offers, interleaved | machine |
| `DoubleAdds.dfy` | what becomes of a track that two goroutines subscribe for the same peer | runs of the same machine |
| `CloseProtocol.dfy`, `CloseProgress.dfy`, `CloseCounting.dfy` | the close cascade of server, rooms and peers through `sync.Once` guards, the gauges and the registry | machine |
| `Negotiation.dfy` | `negotiate` and `HandleAnswer` of a peer (section 4 of RFC 3264, section 3.2 of RFC 8829) | machine, and a class on it |
| `Broadcast.dfy` | broadcast of immutable packets through bounded lossy queues: the specification of the fan-out | machine |
| `FanOut.dfy`, `FanOutRefinement.dfy`, `FanOutLedger.dfy` | `readLoop`, `forward`, `WriteRTP`, `writeLoop`, `drainChannel` over two pools of recycled memory | machine |
| `HotPath.dfy` | the same code in place, on byte arrays | classes |
| `Routing.dfy`, `Membership.dfy`, `Rooms.dfy`, `Bridges.dfy` | router, room, peer and bridge call by call, each call with its whole chain of callbacks | classes, and functions on values |
| `LockOrder.dfy` | all mutexes, on every path | programs and a machine |
| `MixedWaiting.dfy` | guards and mutexes together | machine |
| `EventProducer.dfy` | the asynchronous event producer | machine, and a class on it |
| `Itoa.dfy`, `Report.dfy` | `itoa`; `buildReport` | methods |
| `Machines.dfy` | runs of a machine and how often a kind of step occurs in them | shared |
| `Options.dfy`, `Collections.dfy`, `Packets.dfy` | optional values; finite sets, maps and sums; bytes and the size of buffers | shared |

## What was found

* The ownership graph stays acyclic although the read and the write of the mapping are not atomic, mappings expire, and
  a closing guest deletes the mapping of somebody else. Guests of guests do arise (`ChainsOfGuestsArise`). The exception
  is a `RegisterRoom` that takes effect after it has returned: it makes a cycle possible if and only if some node above
  its own in the graph can still read the mapping when it lands (`LandingIsHarmlessExactlyWhen`), and over runs no cycle
  is ever ahead if and only if no write lands so (`HarmlessExactlyWhenNoCycleAhead`). `LateWriteMakesCycle` is a run that
  ends with two guests of each other.
* The loop rule of the cascade goes by names: a neighbour of the origin never gets a track whose owner, a local peer, is
  called `cascade-` and the neighbour's name. It withholds the track from nobody else but the node it came from
  (`OfferStoppedExactlyWhen`). But only the guest negotiates on a bridge, so that a track which the other end adds later
  waits for the guest's next offer (`NewTrackWaits`): when the flooding has come to rest, the track has reached every
  node that it can if and only if nothing waits (`RestIsCompleteExactlyWhen`).
* `negotiate` can forget a change of tracks: when `HandleAnswer` fits between its read of the signalling state
  (peer.go 411) and its write of the flag (415), nobody looks at the flag again (`RenegotiationCanBeLost`). While
  no call gives up, a run forgets nothing if and only if every deferral is written when an answer is outstanding or being handled, another
  goroutine is about to negotiate, or the last offer covers all tracks (`NoLostRenegotiation`). A negotiate that gives
  up, as the first one of a peer that joins a room with tracks and has no handler yet, is made good by the next offer
  that is created, and from there on the same holds (`NoLostSinceOffer`, `HandlerComesLater`).
* A subscription that fits between the unlock in `Peer.Close` (peer.go 279) and the close of the connection (282) stays
  in the router's table after the peer has gone (`GhostEntryArises`). In a settled room the entries of departed peers
  are exactly the subscriptions made in that gap (`DepartedPeersLeaveTheGap`).
* A connection may be given the same track twice: when `Join` sees the new track and `onReceiverAdded` sees the new peer,
  the router hands its old sender to the second (router.go 151-154), and `SubscribeToTrack` adds it again and overwrites
  the first RTP sender (peer.go 220-227; `SecondAddArises`). It never happens three times, and twice exactly when both
  saw the pair and neither failed (`AddedTwiceExactlyWhen`). Then, and only then, the connection keeps one RTP sender
  that `rtpSenders` does not know, also after the track has ended (`OneIsForgottenExactlyWhenAddedTwice`).
* When the second of two such adds fails, its rollback removes the entry that the first one made (peer.go 221-224), and
  the peer keeps a sender that gets nothing (`RollBackTakesEntry`). A pair whose track is
  still there has its entry if and only if it was subscribed after its last rollback
  (`EntryIsMissingExactlyWhenRolledBack`).
* The rooms gauge follows the registry at every moment (`RoomsGaugeIsExact`), but `Server.Close` leaves it too high by
  exactly the rooms that were open (`RoomsGaugeWhenQuiet`). The peers gauge is too high by the peers that joined a room
  after it had closed (`PeersGaugeWhenQuiet`).
* A track that replaces one of the same name reaches its own owner if the old owner was somebody else and the new one is
  in the room (`PublishCompletesExactlyWhen`); a refusal then leaves peer and router in disagreement
  (`PublishAgreesExactlyWhen`). The replaced receiver goes on reading (`Router.AddReceiver`).
* `itoa` is right for every 64-bit number but the smallest, for which it returns a minus without digits.
* `Emit` panics exactly when an event comes after the step in which the loop closed the queue (`PanicsExactlyWhenLate`).

Where comments and code disagree the model follows the code. `Router.Close` announces that it clears the maps
(router.go 332), but keeps `kinds` and does not decrement the gauge of tracks. The comment on `onRoomClosed`
(server.go 293-295) names `Server.Close` among its callers, but the registry is empty by then and the callback returns
early. `SubscribeToTrack` says that a peer is not subscribed to its own tracks (peer.go 203), but leaves that to its
callers.

## Model

| member | source | states |
|---|---|---|
| Ownership.StepKeepsInv | internal/sfu/server.go:129-150 | every step of creation, closing, late unregistering, expiry and server close keeps: the mapping names no guest, and read times grow along parent pointers; a late write does so while its node is no guest |
| Ownership.MappingNamesNoGuest | internal/cluster/routing.go:29-59 | in every run in which no late write lands on a guest the mapping never names a node whose instance is a guest, and no node is its own guest |
| Ownership.TimelyExactlyWhenNoGuestNamed | internal/cluster/routing.go:29-36 | the mapping names a guest at some time of a run if and only if a write that had timed out takes effect while its node is a guest |
| Ownership.PromptRunsAreTimely | internal/sfu/server.go:144-147 | there is no such write when RegisterRoom takes effect before it returns or never |
| Ownership.ReadTimesGrow | internal/sfu/server.go:131-132 | along a walk of parent pointers the times of the Redis reads strictly increase |
| Ownership.GuestGraphIsAcyclic | internal/sfu/server.go:129-150 | in every run whose late writes land harmlessly, by any number of nodes, no walk from guest to the owner it read meets a node twice, so its length is bounded by the number of nodes |
| Ownership.LandingIsHarmlessExactlyWhen | internal/cluster/routing.go:29-36 | a late write lets a cycle arise later if and only if, when it lands, a node above its own can read the mapping now or later |
| Ownership.CalmExactlyWhenNoCycleAhead | internal/sfu/server.go:129-150 | from any state a cycle can arise if and only if there is one already, or a node above the one that the mapping names can read it |
| Ownership.HarmlessExactlyWhenNoCycleAhead | internal/cluster/routing.go:29-36 | at no time of a run is a cycle ahead if and only if every late write of the run lands harmlessly |
| Ownership.TimelyRunsAreHarmless | internal/sfu/server.go:144-147 | writes that land while their node is no guest are harmless |
| Ownership.PointersEnd | internal/sfu/server.go:129-150 | from every node the walk of parent pointers has an end, and that is not a guest |
| Ownership.ChainsOfGuestsArise | internal/sfu/server.go:305-314 | guests of guests are reachable, so acyclicity is not a matter of depth one |
| Ownership.LateWriteMakesCycle | internal/sfu/server.go:144-147 | a run with a late write after which two nodes are guests of each other |
| Flooding.OfferLeadsAway | internal/sfu/room.go:346-352 | an offer that the owner-tag rule lets through leads away from the node where the track was published |
| Flooding.FloodingVisitsOnce | internal/sfu/room.go:338-352 | on any forest of bridges every node gets a track at most once, its origin never, nothing returns over the bridge it came by, and the flooding is over after at most one offer, one renewal and one delivery for each node but the origin |
| Flooding.OfferStoppedExactlyWhen | internal/sfu/room.go:346-352 | a node that holds the track withholds it from a neighbour exactly when it came from there, or, at the origin, when the owner's name is the neighbour's tag |
| Flooding.NeighbourLacksExactlyWhen | internal/sfu/cascade.go:162-164 | at rest, a neighbour of a node with the track lacks it if and only if its tag is the owner's name, at the origin, or it is a guest that has made no offer since the track was added to its bridge |
| Flooding.RestIsCompleteExactlyWhen | internal/sfu/room.go:338-352 | at rest, every node that can be reached from the origin has the track if and only if nothing waits for a guest |
| Flooding.NewTrackWaits | internal/sfu/cascade.go:114-119 | a run that comes to rest with a guest that lacks the track its owner has published |
| Flooding.FloodingOnAnyReachableCluster | internal/sfu/room.go:477-483 | a node gets a track at most once, and the flooding is over after as many steps, on the bridges of every state that the ownership machine reaches with harmless late writes |
| Subscriptions.StepKeepsInv | internal/sfu/router.go:53-85 | the inductive invariant of the two snapshots: entries, RTP senders, owed work and bridges agree after every step |
| Subscriptions.NoLostSubscription | internal/sfu/room.go:128-146 | in every run each live peer has an entry for each present track of another owner, or adding it failed, or a goroutine still owes it; likewise for every registered bridge |
| Subscriptions.SettledRoomIsComplete | internal/sfu/room.go:301-325 | in a settled room a peer is subscribed to exactly the tracks of others, and its RTP senders agree with the router; only a pair whose own AddTrack failed may lack its entry, only one whose RemoveTrack failed may keep a sender |
| Subscriptions.DepartedPeersLeaveTheGap | internal/sfu/peer.go:267-287 | in a settled room the entries of departed peers are exactly the subscriptions made between the two halves of Peer.Close, whatever failed |
| Subscriptions.SettledBridgesAreComplete | internal/sfu/room.go:338-352 | in a settled room a registered bridge carries exactly the tracks that did not come from its node, but for those whose own AddTrack failed |
| Subscriptions.NoGapWithoutLateAddTrack | internal/sfu/peer.go:267-287 | there is no such entry when no AddTrack succeeds for a closed peer |
| Subscriptions.GhostEntryArises | internal/sfu/peer.go:279-282 | a run that leaves a settled room with an entry of a departed peer |
| Subscriptions.NoEcho | internal/sfu/room.go:305-313 | no peer and no bridge is ever subscribed to its own track |
| DoubleAdds.AddedTwiceExactlyWhen | internal/sfu/router.go:150-155 | in every run the connection of a peer is given a track at most twice; the snapshots that held the pair are the adds, failures, skips and loops that still hold it; twice if and only if both snapshots held it and nothing failed, was skipped or is left |
| DoubleAdds.SecondAddArises | internal/sfu/peer.go:218-227 | a run in which a connection is given the same track twice |
| DoubleAdds.OneIsForgottenExactlyWhenAddedTwice | internal/sfu/peer.go:238-264 | while its peer is not closed, a connection has the RTP sender that rtpSenders knows, and one more if and only if the track was added twice; that one is left when the track has ended and the room has settled |
| DoubleAdds.EntryIsMissingExactlyWhenRolledBack | internal/sfu/peer.go:218-227 | while a track is there and a peer not closed, the router has the pair's entry if and only if it was subscribed after its last rollback, the peer has a sender if and only if an add succeeded, and it has one without an entry exactly when both say so |
| DoubleAdds.RollBackTakesEntry | internal/sfu/peer.go:220-224 | a run after which a peer in the room has a sender for a track that is there, and the router has no entry for it |
| CloseProtocol.StepKeepsInv | internal/sfu/room.go:227-273 | every step keeps the invariant that each guard is held by the one goroutine inside it and each peer is taken out by exactly one of swap and departure |
| CloseProtocol.RunKeepsInv | internal/sfu/peer.go:267-296 | the same over every run |
| CloseProgress.NoWaitCycle | internal/sfu/room.go:227-273 | no run reaches goroutines that wait for each other's guards in a circle; chains of waiting have at most five members |
| CloseProgress.SomebodyRuns | internal/sfu/room.go:422-455 | while a call is unfinished some goroutine can go on |
| CloseProgress.CascadeTerminates | internal/sfu/server.go:234-258 | without new calls the cascade takes at most a number of tasks that its starting state bounds |
| CloseProgress.EveryCallFinishes | internal/sfu/peer.go:347-370 | from every state of the protocol all calls can be finished |
| CloseCounting.PeersGaugeIsExact | internal/sfu/room.go:163-198 | at every moment the peers gauge is the number of peers in rooms, plus those a closing room has yet to count, minus those whose Join has yet to count them |
| CloseCounting.RoomsGaugeIsExact | internal/sfu/server.go:296-318 | at every moment the rooms gauge is the registry size, plus the rooms Server.Close took out, plus those dropped and not yet counted, minus those not yet counted in; each of the last two kinds has a goroutine that will |
| CloseCounting.RoomsGaugeWhenQuiet | internal/sfu/server.go:296-318 | when all calls have returned the rooms gauge is the registry size plus the rooms taken out by Server.Close, hence right if and only if there were none; the peers gauge is the number of peers |
| CloseCounting.PeersGaugeWhenQuiet | internal/sfu/room.go:128-152 | when all calls have returned the peers gauge is the number of peers in open rooms plus those in closed ones, hence the former if and only if nobody sits in a closed room |
| CloseCounting.OnCloseFiresOnce | internal/sfu/server.go:104-153 | onClose fires at most once for a room, has fired once and taken the room out of the registry when the room is closed, finds that very room under its name before Server.Close, and a positive limit of rooms is never exceeded |
| CloseCounting.EmptyRoomsAreClosed | internal/sfu/room.go:187-197 | a room that had a peer and has none is closed or being closed, or a goroutine is on its way to close it; when all calls have returned it is closed, its onClose has fired once and it is out of the registry |
| CloseCounting.RegisteredRoomsHavePeers | internal/sfu/server.go:296-318 | a registered room that ever had a peer has one, or a goroutine is on its way to take the room out of the registry; when all calls have returned it has one |
| Negotiation.StepKeepsOneAtATime | internal/sfu/peer.go:389-399 | every step keeps mutual exclusion by negotiationPending, and offers minus answers at zero or one |
| Negotiation.OneOfferAtATime | internal/sfu/peer.go:389-436 | in every run at most one goroutine is in the guarded section, offers set minus answers applied is 0 or 1, and an offer is only set when all earlier ones are answered |
| Negotiation.StepAccounts | internal/sfu/peer.go:447-463 | every step but an unsafe deferral keeps each change of tracks covered by an offer, a goroutine or a watched flag, unless a negotiate has given up since the last offer was created |
| Negotiation.NoLostRenegotiation | internal/sfu/peer.go:153-168 | a run forgets no change of tracks at any time if and only if each of its deferrals is safe: an answer is outstanding or being handled, another goroutine is about to negotiate, the last offer covers all tracks, or a negotiate has given up since that offer; at rest the last offer then covers all tracks |
| Negotiation.NoLostSinceOffer | internal/sfu/peer.go:421-428 | an offer that is created covers whatever was given up or forgotten before it, and from there on the same holds |
| Negotiation.HandlerComesLater | internal/signal/handler.go:246-271 | a run in which the first negotiate of a peer finds no handler and the next one makes up for it |
| Negotiation.DeferralKeepsAccountExactlyWhen | internal/sfu/peer.go:411-418 | a deferral keeps the account if and only if an answer is outstanding or being handled, or another goroutine is about to negotiate |
| Negotiation.RenegotiationCanBeLost | internal/sfu/peer.go:411-416 | a run that forgets a change of tracks: an answer is handled between the read of the state and the write of the flag |
| Negotiation.Peer.EnterSection | internal/sfu/peer.go:381-399 | the locked head of negotiate does what the machine's step does, and enters exactly when open and not pending |
| Negotiation.Peer.LeaveSection | internal/sfu/peer.go:447-463 | the locked tail does what the machine's step does, and asks for another round exactly when the flag was raised |
| Negotiation.Peer.Negotiate | internal/sfu/peer.go:381-464 | negotiate alone takes exactly the machine's steps for each outcome of its calls, and sends an offer exactly when it may and all calls succeed |
| Negotiation.Peer.HandleAnswer | internal/sfu/peer.go:153-168 | an answer that fits an offer takes exactly the machine's two steps; one that is refused, or comes in the stable state, changes nothing |
| Broadcast.StepKeepsFine | internal/sfu/router.go:239-266 | in broadcast of immutable packets every step keeps each lane in order, its queue bounded, its packets accounted for, and each subscriber owed at most the last packet |
| FanOut.EveryStepMovesOne | internal/sfu/sender.go:102-117 | a step of the fan-out moves at most one packet from one place to one other and leaves all others where they are |
| FanOut.EverythingHasOneOwner | internal/sfu/receiver.go:137-178 | in every run each packet is in exactly one of pool, one queue position, one writer's hand or one reader's; each buffer in the pool or with one reader |
| FanOutRefinement.Simulates | internal/sfu/router.go:239-266 | every step of the fan-out over recycled memory is a step of pure broadcast or none |
| FanOutRefinement.Refines | internal/sfu/sender.go:144-178 | every run of the fan-out is a run of pure broadcast |
| FanOutRefinement.SubscriberSeesASubstream | internal/sfu/sender.go:144-178 | what is written to a subscriber's track are payloads read from the publisher's track, in order, none twice and none altered by reuse of memory |
| FanOutRefinement.WrittenIsAPrefixOfAccepted | internal/sfu/sender.go:144-178 | what is written to a subscriber's track is a prefix of what its queue accepted |
| FanOutRefinement.NothingOutOfBounds | internal/sfu/buffer.go:12-26 | in every run each unchecked access is in bounds: reads of up to 1460 bytes, the copy into a packet, the write out of it; queues never exceed their capacity |
| FanOutLedger.Ledger | internal/sfu/sender.go:102-117 | offered = sent + dropped + queued + in hand + drained + failed, with at most one failed |
| FanOutLedger.EveryPacketIsOffered | internal/sfu/router.go:251-254 | at every moment after a subscription the packets read from the track are those written, dropped, queued, in the writer's hand, drained, failed, or still to be offered by the reader: none is skipped, whatever the writer does |
| FanOutLedger.ForwardedIsOffered | internal/sfu/router.go:256-263 | the counter of forwarded packets is the number of offers to all senders, but for forwards still running |
| HotPath.Packet.Fill | internal/sfu/sender.go:105-106 | the copied packet holds the first bytes of the buffer, as many as fit |
| HotPath.PacketPool.Get | internal/sfu/sender.go:36-43 | a packet from the pool is no longer in it, or is new |
| HotPath.Sender.WriteRTP | internal/sfu/sender.go:102-117 | the payload is appended to a queue with room, otherwise counted as dropped with the queue unchanged; memory stays separate |
| HotPath.Sender.WriteTurn | internal/sfu/sender.go:147-178 | one turn drains, writes the first payload with its counts, fails, or waits, as the context, the queue and the write decide; no packet is lost between queue and pool |
| HotPath.Sender.WriteLoop | internal/sfu/sender.go:144-178 | what a loop of turns writes is a prefix of what was queued, and the rest is queued, failed at its first, or drained |
| HotPath.Sender.DrainChannel | internal/sfu/sender.go:181-190 | the queue ends empty and the pool gets its packets in order |
| HotPath.Router.Forward | internal/sfu/router.go:239-266 | every sender is offered the payload, the buffer is unchanged, and the counters grow by the number of senders |
| HotPath.BufferPool.Get | internal/sfu/buffer.go:29-35 | a buffer of 1460 bytes that the pool no longer has, or a new one |
| HotPath.Receiver.ReadTurn | internal/sfu/receiver.go:137-178 | one turn stops at once when the context is cancelled, stops with nothing offered when the read fails, or offers what was read to every sender; the buffer is back in the pool and shared with no queue |
| Routing.EntriesAreSenders | internal/sfu/router.go:351-355 | the table has as many entries as running senders |
| Routing.Router.AddReceiver | internal/sfu/router.go:53-75 | the track's receiver is the new one, its row is kept or begun empty, a replaced receiver still reads, the gauge of tracks grows |
| Routing.Router.Subscribe | internal/sfu/router.go:134-186 | nothing for an unknown track, an error and nothing changed when no sender can be made; otherwise the existing sender or a fresh running one in its place; receivers and senders have the same tracks, running senders are those in the table, the gauge counts them |
| Routing.Router.Unsubscribe | internal/sfu/router.go:189-212 | exactly this entry is gone and its sender stopped |
| Routing.Router.UnsubscribeAll | internal/sfu/router.go:215-231 | exactly this peer's entries are gone from all rows |
| Routing.Router.RemoveReceiver | internal/sfu/router.go:88-122 | the track is gone from all maps, its senders and receiver are stopped; an unknown track changes nothing |
| Routing.Router.Close | internal/sfu/router.go:313-340 | no sender runs and the subscriptions gauge is zero; kinds and the gauge of tracks are untouched |
| Routing.Router.SenderCount | internal/sfu/router.go:343-356 | the sum over the rows is the number of entries and equals the gauge |
| Membership.JoinKeeps | internal/sfu/room.go:128-146 | after Join peers and router agree, and the room is complete exactly when no track of another owner was refused |
| Membership.DepartureKeeps | internal/sfu/room.go:163-198 | a departure keeps agreement and completeness, also when it is the last one and closes the room |
| Membership.PublishCompletesExactlyWhen | internal/sfu/room.go:301-325 | a new track is complete if and only if nobody refused it and it does not replace another owner's while its own owner is in the room |
| Membership.PublishAgreesExactlyWhen | internal/sfu/router.go:55-62 | agreement survives a new track if and only if no present subscriber of a replaced track refused it |
| Membership.UnpublishAgreesExactlyWhen | internal/sfu/room.go:386-408 | agreement survives the end of a track if and only if no subscriber refuses and its owner was not subscribed |
| Membership.AgreementExactlyWhen | internal/sfu/room.go:386-408 | through every sequence of joins, departures, failures, new tracks, ended tracks and closings, with any refusals, peers and router agree after each call if and only if no new track is refused by a subscriber of the one it replaces, and no track ends that a subscriber refuses to drop or its own owner was sent |
| Membership.RoomIsCompleteExactlyWhen | internal/sfu/room.go:101-146 | through every such sequence each track goes to all peers but its owner and both sides agree if and only if, besides, no track is refused by somebody who should get it and none replaces another owner's while its own owner is in the room |
| Membership.EveryCallKeepsRoomComplete | internal/sfu/room.go:301-325 | that is so in every sequence without refusals and without track names in use twice |
| Membership.LimitHolds | internal/sfu/room.go:104-108 | a positive limit of peers is never exceeded, whatever is refused |
| Membership.CompleteCount | internal/sfu/router.go:343-356 | in a complete room the number of senders is tracks times peers less the tracks owned by a peer of the room |
| Membership.MeshCount | internal/sfu/room.go:276-287 | n peers with one track each have n(n-1) senders |
| Rooms.Peer.SubscribeToTrack | internal/sfu/peer.go:200-235 | exactly this entry appears on both sides; none when the track is unknown or no sender can be made, and a refused track leaves none in the router |
| Rooms.Peer.UnsubscribeFromTrack | internal/sfu/peer.go:238-264 | the peer's own entry goes unless the connection refuses |
| Rooms.Peer.Close | internal/sfu/peer.go:267-296 | the first close removes the peer from every row; later ones change nothing |
| Rooms.Room.Join | internal/sfu/room.go:101-160 | full, duplicate and failed connection are told apart in this order and change nothing; otherwise the view becomes what Membership says of the tracks that were missed, with the peer counted |
| Rooms.Room.Publish | internal/sfu/router.go:53-85 | AddReceiver with onReceiverAdded does to the view what Membership says of the peers that were missed |
| Rooms.Room.Unpublish | internal/sfu/router.go:88-127 | RemoveReceiver with onReceiverRemoved does to the view what Membership says |
| Rooms.Room.Leave | internal/sfu/room.go:163-198 | the peer is closed, taken out and counted once; the last one closes the room, which calls onClose once; an unknown peer changes nothing |
| Rooms.Room.Fail | internal/sfu/room.go:422-455 | a failed connection closes its peer and has the same effect as Leave, though its steps come in another order; nothing happens for a peer that is closed already |
| Rooms.Room.Stats | internal/sfu/room.go:276-287 | the three numbers are those of the view |
| Bridges.CascadeBridge.AddTrack | internal/sfu/cascade.go:130-167 | a bridge gains exactly this subscription, or none: known already, no such track, no sender, or refused with the subscription taken back; only an initiator starts an offer |
| Bridges.CascadeBridge.AddAllTracks | internal/sfu/room.go:475-484 | a bridge for a first offer is subscribed to every track that does not come from its node |
| Bridges.CascadeBridge.Close | internal/sfu/cascade.go:215-231 | the rows lose the node's name for every track the bridge holds |
| Bridges.BridgedRoom.Close | internal/sfu/room.go:227-273 | of a room with bridges, once: nothing is left, every peer and every bridge is closed, onClose is called; again: nothing changes |
| Bridges.BridgedRoom.RemoveCascadeBridge | internal/sfu/room.go:363-370 | the bridge is closed and taken out, and the rows lose the node's name for every track it held |
| LockOrder.EveryPathIsOrderly | internal/sfu/room.go:163-198 | every path takes its locks in strictly growing rank, drops them all, and calls the closing guards of peers, rooms and server with none held; the guards of senders and receivers are ranked as locks, since they are entered under the router's mutex |
| LockOrder.NoCircularWait | internal/sfu/peer.go:200-231 | whatever paths any number of goroutines run, none wait for each other in a circle, also with readers queued behind writers |
| LockOrder.SomebodyGoesOn | internal/sfu/cascade.go:130-167 | while a goroutine is unfinished some goroutine waits for nobody and can take its next step |
| MixedWaiting.NoMutexAtGuard | internal/sfu/server.go:187-204 | in every run a goroutine in front of the closing guard of a peer, a room or the server holds no mutex |
| MixedWaiting.NoCircularWait | internal/sfu/room.go:163-198 | no goroutines wait in a circle, some for closing guards and some for mutexes |
| MixedWaiting.SomebodyGoesOn | internal/sfu/peer.go:267-296 | while anything is unfinished some unfinished goroutine waits for nobody, neither at a guard nor for a mutex, and can go on |
| EventProducer.ShutdownIsLossless | internal/kafka/producer.go:109-162 | accepted events are those handed to send, in order and once, followed by the queue; when the loop has returned none is left and emitted = sent + dropped + unmarshalable |
| EventProducer.PanicsExactlyWhenLate | internal/kafka/producer.go:80-90 | Emit panics in a run if and only if it comes after the drain began |
| EventProducer.AsyncProducer.Emit | internal/kafka/producer.go:64-90 | with any buffer size Emit does the machine's step, and panics exactly on a closed queue |
| EventProducer.AsyncProducer.Send | internal/kafka/producer.go:126-154 | send counts its event as sent, dropped or not at all |
| EventProducer.AsyncProducer.Turn | internal/kafka/producer.go:112-122 | one turn of the loop drains and returns, sends the first event, or waits |
| EventProducer.AsyncProducer.Drain | internal/kafka/producer.go:157-162 | the drain is the machine's run that sends every event left, in order, and closes the queue |
| Itoa.WriteDigits | internal/signal/websocket.go:242-248 | the digits of a positive number end up at the end of the array in order, with no zero in front and room for a sign |
| Itoa.Itoa | internal/signal/websocket.go:234-254 | the result reads back as the number if and only if it is not the smallest; it is canonical and has at most 20 bytes |
| Itoa.OneRepresentation | internal/signal/websocket.go:234-254 | a number has only one sequence of digits without a zero in front |
| Report.BuildReport | internal/loadtest/runner.go:231-266 | connected + failed = total, errors by stage are the failures at each stage and at most the failed, percentiles are percentiles of the latencies and P50 <= P95 <= P99 <= max |
| Report.IndexFindsPercentile | internal/loadtest/runner.go:259-261 | the index is in range, and in sorted order at most the stated share of values lies below the value there and more than that share at or below it |
| Report.PercentileIsUnique | internal/loadtest/runner.go:259-261 | that property determines the value |
| Report.PercentilesAreOrdered | internal/loadtest/runner.go:259-262 | percentiles are ordered like their shares |
| Report.SortSorts | internal/loadtest/runner.go:258 | sorting orders the values and keeps each as often as it was |

## Left out

- Ownership.GuestGraphIsAcyclic: reads take effect within their calls or not at all; a late write is a step, and a late deletion is an expiry. One room is modelled, since rooms share no key.
- Ownership.StepKeepsInv: `KeepRoomAlive` only postpones the expiry, which may come at any time here.
- Flooding.NeighbourLacksExactlyWhen: an answer of the other end is taken to carry all tracks that it has added by then; bridges do not change while one track spreads.
- Subscriptions.NoLostSubscription: track and peer identities are not reused while in use; callbacks go by identity in the code and would hit the wrong object otherwise. Replacement of a track is treated in Membership.
- Subscriptions.SettledRoomIsComplete: `Room.Close` and the removal of bridges are not interleaved with subscriptions.
- MixedWaiting.NoCircularWait: which programs a goroutine runs between its tasks is left open, and a call for which the closing protocol has nothing to do returns at once.
- CloseProgress.EveryCallFinishes: under a scheduler that lets every goroutine that can go on do so eventually; no fairness is modelled beyond CascadeTerminates.
- Negotiation.NoLostRenegotiation: failing calls and a missing handler give up a change in the code, so nothing is claimed from there to the next offer that is created. Pion's own signalling is reduced to stable and have-local-offer.
- Negotiation.Peer.Negotiate: the class runs one goroutine alone; interleavings are the machine's.
- FanOutRefinement.SubscriberSeesASubstream: one reader per track and one sender per lane; queue capacities are positive, as the configuration demands. Reading a packet and writing it to a track are single steps.
- HotPath.Receiver.ReadTurn: one call at a time, one track with its senders; interleavings are treated in FanOut. The switch that disables the pools and `PacketBuffer` are not modelled.
- Routing.Router.Subscribe: stopping a sender or a receiver takes it out of the set of running ones; its goroutine is in FanOut.
- Rooms.Room.Leave: the tracks of a departed peer stay until the goroutine that published them calls `RemoveReceiver`, which is Unpublish here.
- Rooms.Room.Close: is about a room without bridges; Bridges.BridgedRoom.Close closes them as well. The offers of a new track to bridges are steps of Subscriptions.
- Report.BuildReport: percentages and latencies are exact numbers; rounding of floats is not modelled.
- Itoa.Itoa: the characters are bytes, not Go strings.
- `SFUServer` as an object: its methods are steps of Ownership and CloseProtocol on values, without aliasing of rooms between registry and callers.
- Server and room statistics are read without interleaving; `ServerStats` is a sum of the room numbers and would only add easy members.
- Prometheus registration and histograms, logging, timing, key-frame requests, tickers: no state worth proving.
- Pion internals, Redis and Kafka clients, Pub/Sub transport and JSON: outcomes of calls are parameters or choices of the run.
- `internal/config`, `internal/turn`, `internal/cluster/node.go`, the HTTP and WebSocket handlers apart from `itoa`, the load-test client and the commands: I/O and plumbing.
