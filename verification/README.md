# Helicopter game server: a verified model

Helicopter relays messages between the peers of a game session. A peer is a WebSocket connection;
each peer has a bounded queue of outgoing messages, emptied by a coroutine that is started when a
message finds the queue inactive. A session keeps its peers in a map, may have a host, numbers
synchronized events and runs a ping-based failure detector. A game keeps its sessions and one
pinger coroutine, and a registry keeps the games. Everything runs on several threads, and the only
protection is a handful of mutexes.

The project models this group of classes twice, and proves that Session and Peer objects refine the
session protocol.

* **As objects.** `PeerSession` and `GameServer` hold the classes Peer, Session, Game and Registry
  with their fields, updated in place by methods that follow the source. Their contracts say what
  one call does when nothing interleaves with it.
* **As step systems.** `Mailboxes` (one queue), `Protocol` (one session), `PingProtocol` (the
  failure detector), `Games`, `Lifecycle`, `LifecycleRaces` and `Locks` describe what threads do one
  critical section at a time, for any number of peers and threads and in any order. The theorems
  speak about every run.

`Refinement` connects the two: whatever a Session and its Peers are asked to do, one request after
the other (connections arriving and departing, messages of every kind, accepted or turned down,
pongs, kick orders, turns of coroutines, ends of sends, rounds of checks and of pings), the objects
end up showing a state of `Protocol` that some run of the protocol reaches. What is proved about
every run therefore holds of those objects. `Projection` shows that a session's run, seen from one
peer's queue, is a run of `Mailboxes`.

The specification functions are shared: the objects' contracts are written with the same
`Enqueue`, `Turned`, `Emptied`, `Checked`, `Ponged`, `Report`, `Feed`, `Created`, `Deleted` and
`Judge` that the step systems are made of. What these functions mean is stated a second time without
them: in the methods' contracts by fields and parameters, and over runs by `Mailboxes.QueueIsFifo`,
`PingProtocol.DroppedIffFoundFailing`, `BestPing.EarliestArgMin`, `Frames.Reassembly`,
`Games.PingerEndsIff`, `Lifecycle.AdmittedIff` and `Lifecycle.ReleasedIff`.

## Files

| file | contents |
|---|---|
| Messages.dfy | messages, settings, error codes, and the order any two offered messages must respect |
| Mailboxes.dfy | a peer's queue, coroutine and socket, one step per critical section |
| Protocol.dfy, ProtocolInvariant.dfy, ProtocolTheorems.dfy | a session with any number of peers and threads, its inductive invariant, and what follows for every run |
| Projection.dfy | a session's run as a run of each peer's queue |
| Delivery.dfy | to whom a message or a kick goes and how often, under interleaving |
| Sequential.dfy | whole calls as runs of the protocol |
| Refinement.dfy | the objects, whatever they are asked to do, as runs of the protocol |
| Progress.dfy | release of the peers mutex and of backlogs |
| PingRules.dfy, BestPing.dfy, PingProtocol.dfy | the failure detector and the record of the best ping |
| Frames.dfy | reassembly of messages from WebSocket frames |
| Locks.dfy | the order in which mutexes are taken |
| Games.dfy, Lifecycle.dfy | session maps and pingers; connections coming and going, each callback one step |
| LifecycleRaces.dfy | the same callbacks in their separate critical sections |
| PeerSession.dfy, GameServer.dfy | the classes |

## What is assumed about the environment

* The microsecond clock does not go back, and each round of pings gets a timestamp that no earlier
  round had (`PingProtocol.Can`, steps `SetRound` and `Report`).
* A peer's incoming messages are handled one at a time.
* The callback that creates a connection has returned before the one that destroys it starts.
* Each game's settings are stored under the game's own id, as `putGameConfig` does
  (src/config/GamesConfig.cpp:38-44).
* Sending a frame either succeeds or fails; either way the coroutine comes back to its loop.
  Invalidating a connection does not call back into these classes.

Clock readings, the JSON mapper, the iteration order of hash maps, the outcome of a send and the
scheduling of threads are parameters or nondeterministic choices.

## Where the code and its documentation differ

The model follows the code.

* The repository's README.md:84 lets a peer miss synchronized events only through queue overflow. An
  event is also lost when an invalidation discards the queue it waits in
  (`Sequential.GapWithoutOverflow`), and when its write fails, because the coroutine goes on to the
  next message although the socket stays open (`Sequential.GapWithOpenSocket`). These are the only
  ways: by `ProtocolTheorems.DeliveryExplained`, in every run the events that a peer has been sent, is
  being sent or has queued are all those of its membership if and only if none was offered to a full
  queue, none was in the queue when it was cleared, and no write of one failed.
* src/config/GamesConfig.hpp:77-81 counts a ping as failed when the peer does not answer it. The
  code also charges a peer for the round that was sent before it joined, so with
  `maxFailedPings` below 2 a newcomer can be dropped before it has been pinged:
  `PingProtocol.PunctualityPaysIff`.
* src/game/Game.hpp:55-76 calls the session operations not thread-safe; all of them hold the game's
  mutex.
* src/config/GamesConfig.hpp:50-59 promises that the game is over when the host leaves and that the
  number of peers is limited. Neither is enforced.

## What fails under overlapping callbacks

Looking a session up and joining it are separate critical sections (src/game/Registry.cpp:114-166),
and so are leaving a session empty and deleting it by name (src/game/Registry.cpp:181-185). When
they overlap, a session can lose its place in the game's map while it has peers:
`LifecycleRaces.SecondSessionIsErased` is such a run, and `LifecycleRaces.SoundIffClear` gives, for
every run, the exact condition under which sessions stay registered exactly while they have peers.

## Model

| member | source | states |
|---|---|---|
| Mailboxes.NoLostWakeup | src/game/Peer.cpp:146-178 | in every interleaving a queue has at most one coroutine, only while active, and a non-empty queue with an open socket has exactly one; a live coroutine can always move, whenever the socket is nulled |
| Mailboxes.Conservation | src/game/Peer.cpp:126-183 | accepted messages are popped, queued or cleared exactly once in order, cleared only after an invalidation; the bound holds; refusal happens exactly on a full queue; frames go out in the order popped |
| Mailboxes.DrainerStops | src/game/Peer.cpp:146-164 | alone with n queued messages a coroutine pops one a turn and is gone after exactly n + 1 turns, whether or not its sends fail |
| Mailboxes.PoppedInTurn | src/game/Peer.cpp:153-154 | whatever is offered meanwhile, a message with k ahead of it is the (k + 1)-th popped, unless cleared |
| Mailboxes.NothingAfterInvalidation | src/game/Peer.cpp:172-178 | once the socket is gone and the last coroutine has finished, nothing is ever popped or written again |
| Mailboxes.BacklogCanBeSent | src/game/Peer.cpp:146-178 | from every reachable state with an open socket the whole backlog can be sent in order by the coroutine, started first if a caller is about to start it |
| Mailboxes.QueueIsFifo | src/game/Peer.cpp:146-183 | over every run and for every message, by an account of its own: a message offered with room was taken, one offered without was refused, a turn took the oldest, a clear discarded all that waited, and the rest is waiting in order |
| Mailboxes.StepIsFifo | src/game/Peer.cpp:146-183 | the same for one step |
| Mailboxes.OfferAccount | src/game/Peer.cpp:168-180 | an offer met with room is queued at the back, one met without changes only the record of refusals, whatever the message; nothing else adds or refuses |
| Mailboxes.RemovalAccount | src/game/Peer.cpp:146-160 | a turn removes exactly the oldest message and gives it to the coroutine; a clear leaves the queue empty and discards all of it in order; nothing else removes anything, and only a disconnect closes the socket |
| Mailboxes.WritesAreRecorded | src/game/Peer.cpp:158-164 | over every run each report on a write, good or bad, is about the message that was in flight |
| Mailboxes.StepKeepsInv | src/game/Peer.cpp:126-183 | every critical section of queue and socket keeps the invariant of control and message ledger |
| Mailboxes.RunKeepsInv | src/game/Peer.cpp:126-183 | so does every run |
| Mailboxes.ClearKeepsLedger | src/game/Peer.cpp:271-274 | clearing the queue accounts for every message it discards |
| Mailboxes.PoppedIsOrderly | src/game/Peer.cpp:146-183 | order among offered messages is inherited by what is popped and by what is written |
| Mailboxes.EventsAreLostIff | src/game/Peer.cpp:169-182 | over any run events are refused exactly if one was offered to a full queue, and discarded exactly if the queue was cleared with one in it |
| Mailboxes.EventsFailIff | src/game/Peer.cpp:146-164 | over any run the write of an event is among the failed attempts exactly if some send of an event ended badly |
| Projection.QueueRun | src/game/Peer.cpp:126-183 | seen from any peer's queue, a run of the session is a run of that queue from its fresh state |
| Delivery.FanOutMultiplicity | src/game/Peer.cpp:316-364 | in every interleaving a message is never offered to a peer more often than its audience asked for when the snapshot was taken, and exactly as often once its sender has worked through the snapshot: others once for a broadcast, as often as listed for a direct message, the host once for a message to it; never the sender, an unlisted peer or a later one |
| Delivery.StepKeepsTotal | src/game/Peer.cpp:316-421 | every step of every thread keeps what a peer has received plus what it is still owed |
| Delivery.IssuedInFull | src/game/Session.cpp:99-128 | when a message is issued, what is owed is what its audience asks for of the members of that moment, and nobody has been offered it |
| Delivery.EventMultiplicity | src/game/Session.cpp:135-142 | in every interleaving an event is offered exactly once to every peer whose membership it falls into, and to nobody else |
| Delivery.KickMultiplicity | src/game/Peer.cpp:371-400 | in every interleaving the kicks that a peer has ordered against another, and those it is about to order, are as many as the listings of that id in its kick orders, counting an order only against members of the moment in which its victims were looked up, and never the sender |
| Delivery.StepKeepsKicks | src/game/Peer.cpp:390-396 | every step of every thread keeps kicks given plus kicks still to give, but for what a look-up of victims adds |
| Sequential.KickIsARun | src/game/Peer.cpp:371-400 | in the protocol only the host can order kicks, and its order, run alone, kicks the listed other members in request order and changes nothing else |
| ProtocolTheorems.TotalOrder | src/game/Session.cpp:130-144 | in every interleaving each peer's stream of synchronized events is a subsequence of the session's log with rising ids, and any two peers agree on the order of every pair both received |
| ProtocolTheorems.StreamFollowsLog | src/game/Session.cpp:130-144 | the same for one peer in any state that satisfies the invariant |
| ProtocolTheorems.GapsExplained | src/game/Session.cpp:135-142 | every event of a membership is refused on a full queue, popped, discarded or queued, exactly once; popped events, whatever became of their write, and queued ones are the contiguous range if and only if no event was offered to a full queue and the queue was never cleared with an event in it |
| ProtocolTheorems.DeliveryExplained | src/game/Peer.cpp:146-183 | in every interleaving every event of a membership has been written to the socket, is being written, is queued, was refused, was discarded or failed to be written, exactly once; those written, being written and queued are the contiguous range if and only if no event was offered to a full queue, the queue was never cleared with an event in it and no write of an event failed |
| ProtocolTheorems.EventsOfASocket | src/game/Peer.cpp:146-183 | the same accounting for one queue in any state that satisfies its invariant |
| ProtocolTheorems.EventsOfABox | src/game/Peer.cpp:126-183 | the same accounting for one queue in any state that satisfies its invariant |
| ProtocolTheorems.OffersAddUp | src/game/Peer.cpp:168-182 | offered events are the taken and the refused ones |
| ProtocolTheorems.SettlementsAddUp | src/game/Peer.cpp:146-160 | settled events are the popped and the cleared ones |
| ProtocolTheorems.AttemptsAddUp | src/game/Peer.cpp:146-164 | attempted events are the written ones and those whose write failed |
| ProtocolTheorems.SenderOrder | src/game/Peer.cpp:316-369 | no peer is sent two messages of one sender in reverse, be they broadcasts, direct messages, messages to the host or events, although queues are filled outside the peers mutex |
| ProtocolTheorems.RosterMirror | src/game/Session.cpp:50-97 | replaying the JOINED and LEFT messages offered to the host gives the session's peers without the host and without clients that were there before it; nobody is announced or retired twice, or retired first |
| ProtocolTheorems.HostAuthority | src/game/Registry.cpp:107-118 | the host is the creating connection, in the map under its id; every kick was ordered by it and hits somebody else |
| ProtocolTheorems.HostNeverReturns | src/game/Session.cpp:87-97 | in every run, once the host has been removed there is never a host again, whoever joins |
| ProtocolTheorems.GoneHostStaysGone | src/game/Session.cpp:87-97 | the same from any state in which the creator is leaving or gone |
| ProtocolTheorems.GoneForGood | src/game/Session.cpp:87-97 | no step brings a removed creator back |
| ProtocolTheorems.EveryQueueIsDrained | src/game/Peer.cpp:146-178 | single consumer, bound and no lost wakeup for every queue of a running session |
| ProtocolTheorems.ReachableInvariant | src/game/Session.cpp:50-144 | the session invariant holds in every reachable state |
| ProtocolInvariant.StepKeepsInvariant | src/game/Session.cpp:50-144 | every step of every thread keeps the session invariant |
| ProtocolInvariant.RunKeepsInvariant | src/game/Session.cpp:50-144 | so does every run |
| ProtocolInvariant.StepKeepsThreads | src/game/Session.cpp:50-144 | every step keeps the peers mutex, the stages of connections, the host role, the handlers and the event log consistent |
| ProtocolInvariant.StepKeepsLogs | src/game/Session.cpp:130-144 | event ids are consecutive and kicks are the creator's, after every step |
| ProtocolInvariant.RecipientKeepsBox | src/game/Session.cpp:140-142 | the peer that a step offers a message to is offered exactly that message, in order with all earlier ones |
| ProtocolInvariant.BystanderKeepsBox | src/game/Session.cpp:140-142 | every other peer is offered nothing |
| ProtocolInvariant.OfferedInOrder | src/game/Peer.cpp:316-421 | what is offered now is in order with everything offered to the same peer before |
| ProtocolInvariant.OfferedRange | src/game/Session.cpp:130-144 | an offer extends the range of events a peer has been offered by exactly the event offered |
| ProtocolInvariant.KnownForGood | src/game/Session.cpp:50-144 | what an offered message says about the session stays true |
| ProtocolInvariant.RosterHears | src/game/Session.cpp:58-95 | the host hears of every change of the roster, in the step that makes it, and of nothing else |
| ProtocolInvariant.NewHostKnowsNobody | src/game/Session.cpp:55-56 | a host that arrives has been told of nobody, and nobody counts as announced |
| Progress.PeersMutexIsReleased | src/game/Session.cpp:130-144 | from every reachable state the peers mutex, and every queue mutex held within it or elsewhere, can be released by mutex holders alone, whatever queues and sockets look like |
| Progress.BacklogIsSent | src/game/Peer.cpp:146-178 | from every reachable state of a session a peer with an open socket can be sent its whole backlog in order without anybody else's help |
| Progress.HolderFinishes | src/game/Session.cpp:50-97 | the thread inside the peers mutex can finish its section, the look at the last socket included |
| Progress.QueuesAreReleased | src/game/Peer.cpp:172-178 | callers that hold queue mutexes can release them |
| Refinement.Serve | src/game/Session.cpp:50-201 | whatever a new session and its peers are asked to do, one request after the other, the objects show a state that some run of the protocol reaches |
| Refinement.ServeAll | src/game/Session.cpp:50-201 | the same from any shown state, which keeps the protocol's invariant; with the protocol's state the objects show every ping record and the round's timestamp |
| Refinement.ServiceIsHistory | src/game/Session.cpp:50-201 | serving requests is a history of whole calls of the protocol: pongs, kick orders, refusals and rounds of pings are no calls, and a round of checks is the dropping of exactly the members that fail it |
| Refinement.RunChecks | src/game/Session.cpp:150-163 | a round of checks leaves the objects showing the state without the queues of the members that have failed too often, and everybody's new count |
| Refinement.RunPings | src/game/Session.cpp:165-179 | a round of pings changes nothing but the round's timestamp |
| Refinement.RunSays | src/game/Peer.cpp:423-445 | a pong changes the sender's ping record and nothing else that is shown; a kick order or a refused message changes none of it |
| Refinement.RunForward | src/game/Peer.cpp:316-421 | handleBroadcast, handleDirectMessage and handleClientMessage leave the objects representing the protocol's outcome of the call |
| Refinement.RunAnnounce | src/game/Session.cpp:130-144 | so does handleSynchronizedEvent |
| Refinement.RunArrive | src/game/Session.cpp:50-70 | so do generateNewPeerId and addPeer |
| Refinement.RunDepart | src/game/Registry.cpp:176-181 | so do invalidateSocket and removePeerById |
| Refinement.RunTurn | src/game/Peer.cpp:146-160 | so does a turn of the coroutine |
| Refinement.RunInvalidate | src/game/Peer.cpp:262-275 | so does invalidateSocket |
| Refinement.Overhear | src/game/Peer.cpp:423-445 | pongs, kick orders and refused messages leave queues, issued messages, members, host, event counter and ping timestamp as they are, and only a pong changes a ping record, the sender's |
| Sequential.HistoryIsARun | src/game/Session.cpp:50-144 | every history of whole calls on protocol states is a run of the protocol's steps and keeps its invariant |
| Sequential.WhatMayBeAsked | src/game/Peer.cpp:316-421 | no history bars anything that the code allows: after any history clients can arrive, a host exactly if there never was one, every peer can send whatever its handler accepts, and exactly the members can depart |
| Sequential.CallIsARun | src/game/Session.cpp:50-144 | every whole call on a protocol state is a run of the protocol's steps that ends in the outcome that the objects are shown to represent |
| Sequential.ForwardIsARun | src/game/Peer.cpp:316-421 | forwarding with nobody else moving is a run that offers the message as often as the audience asks for and changes nothing else |
| Sequential.GapWithoutOverflow | src/game/Peer.cpp:271-290 | a history of whole calls in which an event is lost although no queue was ever full |
| Sequential.GapWithOpenSocket | src/game/Peer.cpp:158-164 | a history of whole calls in which an event is lost although no queue was ever full or cleared: its write fails, and the peer stays a member with an open socket and nothing queued or in flight |
| Sequential.EventIsARun | src/game/Session.cpp:130-144 | a synchronized event, run alone, is offered once to every member under the next id |
| Sequential.JoinIsARun | src/game/Registry.cpp:156-166 | a join, run alone, greets the new peer and tells the host |
| Sequential.LeaveIsARun | src/game/Registry.cpp:174-181 | a disconnect, run alone, drops socket and queue, removes the peer and tells the host that is left |
| Sequential.InvalidateNow | src/game/Peer.cpp:262-275 | invalidateSocket, run alone, is a run of the protocol that closes the socket and discards the queue |
| Sequential.DropEach | src/game/Session.cpp:150-163 | a round of checks, run alone, is a run of the protocol that closes the sockets and discards the queues of the peers it drops, in any order |
| Protocol.InsideRun | src/game/Peer.cpp:126-183 | what one queue does between offers it does within the session, and nothing else changes |
| Sequential.FanOut | src/game/Peer.cpp:350-360 | a loop over a snapshot reaches every peer as often as it is listed |
| Sequential.AnnounceAll | src/game/Session.cpp:140-142 | the loop over the map reaches every member once, whatever the order |
| Sequential.ListedCounts | src/game/Session.cpp:108-128 | how often each peer is listed: members as often as requested, never the sender |
| Sequential.LookupCounts | src/game/Session.cpp:118-125 | a member is looked up as often as its id is requested; null and unknown ids are skipped |
| Frames.Reassembly | src/game/Peer.cpp:460-494 | however a byte string is cut into non-empty frames, it is parsed whole with nothing rejected if and only if it fits; the buffer ends empty |
| Frames.TrafficRoundTrip | src/game/Peer.cpp:460-494 | over a whole connection every message is parsed, separately, and all arrive unchanged if and only if all fit |
| Frames.BufferBound | src/game/Peer.cpp:462-489 | the buffer never exceeds the limit |
| Frames.EndIsNeverRejected | src/game/Peer.cpp:462-473 | the call that ends a message is never rejected, even after rejected frames |
| Frames.FeedFragments | src/game/Peer.cpp:462-489 | the buffer is the concatenation of the frames that fitted; nothing is rejected if and only if everything fits |
| Locks.NoDeadlock | src/game/Game.cpp:49-63 | with any number of threads, sessions and peers, as long as a thread is unfinished some thread can step |
| Locks.EverybodyCanFinish | src/game/Game.cpp:49-63 | from every reachable state all threads can finish what they have started |
| Locks.EveryOperationIsDisciplined | src/game/Session.cpp:130-179 | every operation takes its mutexes in strictly rising rank and gives all of them back |
| Locks.Unblock | src/game/Peer.cpp:168-178 | the chain of threads waiting for one another ends at one that can step |
| Locks.QueueMessageFits | src/game/Peer.cpp:168-183 | the queue mutex, then the socket mutex |
| Locks.InvalidateSocketFits | src/game/Peer.cpp:262-275 | the socket mutex and the queue mutex, one after the other and not nested |
| Locks.CheckAllFits | src/game/Peer.cpp:277-292 | the peer's ping mutex around an invalidation |
| Locks.CheckRoundsFit | src/game/Session.cpp:150-163 | the session's ping mutex is released before the peers mutex is taken |
| Locks.PingRoundsFit | src/game/Session.cpp:165-179 | the same when pinging |
| Locks.PeersQueueFits | src/game/Session.cpp:130-144 | queues are filled under the peers mutex |
| Locks.GetGameByIdFits | src/game/Registry.cpp:125-143 | the registry's mutex around that of the settings |
| Locks.OnAfterCreateFits | src/game/Registry.cpp:145-168 | the connect callback |
| Locks.OnBeforeDestroyFits | src/game/Registry.cpp:170-193 | the disconnect callback |
| PingProtocol.ExactCount | src/game/Peer.cpp:277-311 | m_failedPings is the number of rounds since the join or the last recorded pong that differ from the acknowledged timestamp, which is never ahead of the session's |
| PingProtocol.SilentPeerIsDropped | src/game/Peer.cpp:281-290 | from any reachable state a peer with no pong recorded is invalidated no later than its (maxFailedPings + 1)-th check |
| PingProtocol.DroppedIffFoundFailing | src/game/Peer.cpp:277-292 | in every run a peer is dropped if and only if some check of it finds that at least maxFailedPings rounds since its last recorded pong differ from the acknowledged timestamp |
| PingProtocol.CheckCounts | src/game/Peer.cpp:281-287 | one check drops a peer exactly if its count, the present round included, has reached maxFailedPings |
| PingProtocol.AnswerIsRecorded | src/game/Peer.cpp:294-314 | a ping answered before anything else happens leaves no debt and no failure, and the round acknowledged |
| PingProtocol.PunctualPeerIsKept | src/game/Session.cpp:150-179 | with maxFailedPings of at least 2 a peer that has recorded every answer before the next check is never invalidated, even if it joined mid-round |
| PingProtocol.PunctualityPaysIff | src/game/Peer.cpp:281-290 | punctual peers are safe in every run if and only if maxFailedPings is at least 2 |
| PingProtocol.NewcomerIsWronged | src/game/Peer.cpp:281-290 | with less, a run in which a newcomer is dropped before its first ping |
| PingProtocol.AtMostOneMatch | src/game/Peer.cpp:281-283 | distinct rounds match an acknowledged timestamp at most once |
| PingProtocol.SilenceAddsUp | src/game/Peer.cpp:277-292 | without a recorded pong every check counts |
| PingProtocol.StepKeepsInv | src/game/Session.cpp:150-201 | every step of pinger and peers keeps count, punctuality and pinger phase consistent, with report and record as separate critical sections |
| PingProtocol.RecordIsEarliestBest | src/game/Session.cpp:181-201 | in every run the session's record is the smallest accepted ping time, its first holder, and the start of that holder's unbroken tenure |
| BestPing.EarliestArgMin | src/game/Session.cpp:190-197 | the same for any sequence of accepted pongs |
| BestPing.FasterPong | src/game/Session.cpp:190-197 | a faster pong takes the record, and starts a tenure unless its peer holds it already |
| BestPing.SlowerPong | src/game/Session.cpp:190 | a pong that is no faster changes nothing |
| Games.PingerIsUnique | src/game/Game.cpp:47-93 | in every interleaving a game has exactly one live pinger while marked active and none otherwise, and one whenever there are sessions |
| Games.SessionKeepsPinger | src/game/Game.cpp:51-65 | while a session stays in the map the pinger lives and the session is there to be pinged |
| Games.PingerEndsIff | src/game/Game.cpp:47-55 | after any past a turn of the pinger ends it exactly if no session is left, and leaves the sessions alone |
| Lifecycle.RegisteredIffInhabited | src/game/Registry.cpp:145-193 | after every callback a session is in its game's map if and only if it has a peer, and its game has its pinger |
| Lifecycle.AdmittedIff | src/game/Registry.cpp:83-123 | after any past a connection is admitted exactly if no parameter is missing, its game is made or configured, and the name is free for a host or taken for a client; what is then made, and that nothing else changes |
| Lifecycle.ReleasedIff | src/game/Registry.cpp:170-193 | after any past a disconnect takes the peer out of its session, and the name is given up exactly if nobody is left |
| Lifecycle.PeersShareTheirSession | src/game/Registry.cpp:83-123 | connections open under one game id and session id share one Session object, under different peer ids |
| Lifecycle.OneHostPerSession | src/game/Registry.cpp:107-112 | a Session object has at most one connection in the host role |
| Lifecycle.StepKeepsInv | src/game/Registry.cpp:145-193 | connects, disconnects and pinger turns keep maps, members and links consistent |
| LifecycleRaces.SoundIffClear | src/game/Registry.cpp:145-193 | in separate critical sections and for every run: in all its states, however the callbacks under way are completed, sessions are registered exactly if they have a peer, if and only if in none of them a connection is between look-up and addPeer while another is about to delete the same session |
| LifecycleRaces.CompletionsAreSoundIff | src/game/Registry.cpp:145-193 | the same for one state up to and including the first overlap, and any completion |
| LifecycleRaces.EveryRunCanComplete | src/game/Registry.cpp:145-193 | the callbacks under way can always be completed |
| LifecycleRaces.SecondSessionIsErased | src/game/Registry.cpp:181-185 | a run in which a client left in an orphaned session deletes another session of the same name under its host's feet |
| LifecycleRaces.StepKeepsGood | src/game/Registry.cpp:149-185 | until an overlap, a session is registered exactly while a connection is joining it, in it or about to delete it |
| LifecycleRaces.DoomedIsLost | src/game/Game.cpp:104-107 | after an overlap every completion leaves a peer in an unregistered session |
| PeerSession.Peer.constructor | src/game/Peer.cpp:32-42 | a new peer's queue, buffer and ping fields |
| PeerSession.Peer.QueueMessage | src/game/Peer.cpp:126-183 | true exactly when there is a message and room for it, and then the message is at the back of the queue, whatever it is; otherwise the queue is as it was; a coroutine is started when the queue was inactive and the socket is open |
| PeerSession.EnqueueTimesFills | src/game/Peer.cpp:168-180 | offering a message any number of times queues it as often as there is room, behind all others |
| PeerSession.Peer.Act | src/game/Peer.cpp:146-160 | a turn of the coroutine: the oldest message, or the end and inactivity |
| PeerSession.ReverseBack | src/game/Peer.cpp:153-171 | push_front and pop_back make a first-in, first-out queue |
| PeerSession.Peer.InvalidateSocket | src/game/Peer.cpp:262-275 | the socket is gone and the queue empty; activity and coroutines stay |
| PeerSession.NoticesUntilClosed | src/game/Peer.cpp:185-252 | over any history of calls on a peer, the pings and kicks sent are those ordered before the socket was closed, in order, and the socket never reopens |
| PeerSession.Peer.CheckPingsRules | src/game/Peer.cpp:277-292 | the failure count rises unless the round was acknowledged; below maxFailedPings socket and queue stay as they were, otherwise the socket is gone and the queue empty |
| PeerSession.Peer.HandlePong | src/game/Peer.cpp:294-314 | a pong for the current round gives its ping time, resets the count and enters the record; any other only sets the ping time to -1; without a timestamp it is an error |
| PeerSession.Peer.HandleBroadcast | src/game/Peer.cpp:316-334 | every other member is offered the message once |
| PeerSession.Peer.HandleDirectMessage | src/game/Peer.cpp:336-364 | every other member is offered the message as often as its id is listed; a missing payload or list is an error and nothing is sent |
| PeerSession.Peer.HandleSynchronizedEvent | src/game/Peer.cpp:366-369 | every member, the sender included, is offered the next event once |
| PeerSession.Peer.HandleClientMessage | src/game/Peer.cpp:402-421 | only the host is offered the message; no host, or being the host, is an error |
| PeerSession.Peer.HandleKickMessage | src/game/Peer.cpp:371-400 | without a host INVALID_STATE, from anybody but the host OPERATION_NOT_PERMITTED, from the host without ids BAD_MESSAGE, and nothing else comes of it; otherwise every other member with an open socket gets as many kick notices as its id is listed; who gains a notice was kicked by the host |
| PeerSession.Peer.KickListed | src/game/Peer.cpp:388-396 | each other member gets as many kick notices as its id is listed, if its socket is open, and the sender none |
| PeerSession.Peer.HandleMessage | src/game/Peer.cpp:423-445 | which handler runs, what each leaves untouched, and the error for each refusal, those of kick orders included; no member gains a notice but by a kick order of the host |
| PeerSession.Peer.ReadMessage | src/game/Peer.cpp:460-494 | a frame is stored, rejected as too large, or completes a message that is parsed and handled |
| PeerSession.Peer.MessageComplete | src/game/Peer.cpp:470-486 | the buffer is emptied whether or not the message can be parsed |
| PeerSession.Session.constructor | src/game/Session.cpp:31-40 | a new session's fields |
| PeerSession.Session.GenerateNewPeerId | src/game/Session.cpp:146-148 | an id that no peer has, and the counter passes it |
| PeerSession.Session.AddPeer | src/game/Session.cpp:50-70 | the map gains the peer, which is greeted; a host is installed, or the present host told |
| PeerSession.Session.RemovePeerById | src/game/Session.cpp:87-97 | the map loses the id; a host of that id is gone, any other host is told; whether the session is empty |
| PeerSession.Session.GetAllPeers | src/game/Session.cpp:99-106 | all members, each once, in whatever order |
| PeerSession.Session.GetPeers | src/game/Session.cpp:108-128 | the requested members in request order |
| PeerSession.MembersFound | src/game/Session.cpp:118-125 | each member is found exactly as often as its id is requested, and nobody else |
| Messages.FindCounts | src/game/Session.cpp:118-125 | the same for any look-up of ids |
| Messages.FindConcat | src/game/Session.cpp:118-125 | a look-up goes through the request in order |
| Messages.FindOne | src/game/Session.cpp:118-125 | one id finds what is known under it, if anything |
| PeerSession.Session.BroadcastSynchronizedEvent | src/game/Session.cpp:130-144 | every member is offered the event under the counter's old value, and the counter rises by one |
| PeerSession.Session.CheckAllPeersPings | src/game/Session.cpp:150-163 | every member is checked against the current round |
| PeerSession.Session.PingAllPeers | src/game/Session.cpp:165-179 | the round's timestamp is set and every member pinged with it |
| PeerSession.Session.ReportPeerPong | src/game/Session.cpp:181-201 | a pong for another round gives -1 and changes nothing; otherwise the ping time, and the record takes it into account |
| PeerSession.OfferEach | src/game/Session.cpp:140-142 | the loop offers once to each peer, independently of the order |
| PeerSession.OfferOthers | src/game/Peer.cpp:350-360 | the loop offers to each listed peer but the sender, as often as listed |
| PeerSession.CheckEach | src/game/Session.cpp:159-161 | the loop checks each peer once |
| PeerSession.PingEach | src/game/Session.cpp:175-177 | the loop pings each peer once |
| PeerSession.KickOthers | src/game/Peer.cpp:390-396 | the loop kicks each listed peer but the sender |
| GameServer.Game.constructor | src/game/Game.cpp:29-34 | a new game has no sessions and no pinger |
| GameServer.Game.CreateNewSession | src/game/Game.cpp:78-93 | null and no change for a taken id; otherwise a fresh session in the map and a pinger |
| GameServer.Game.DeleteSession | src/game/Game.cpp:104-107 | the map loses the id |
| GameServer.Game.PingerTurn | src/game/Game.cpp:47-67 | without sessions no pinger is left and none is marked active; otherwise the pinger lives, and every peer of every session is checked against the old round and then pinged with its session's new timestamp |
| GameServer.CheckSessions | src/game/Game.cpp:57-59 | the loop checks every session once |
| GameServer.PingSessions | src/game/Game.cpp:61-63 | the loop pings every session once |
| GameServer.Registry.GetGameById | src/game/Registry.cpp:125-143 | the game of that id, made on first use from its settings, or null |
| GameServer.Registry.GetSessionForPeer | src/game/Registry.cpp:83-123 | from the parameters, the settings and the session maps: each error exactly when it is due, and no error in every other case; a new session under the name for a host, the one that bears it for a client; what it does to the game |
| GameServer.Registry.HostSession | src/game/Registry.cpp:107-112 | a host gets a new empty session unless the name is taken |
| GameServer.Registry.ClientSession | src/game/Registry.cpp:113-118 | a client gets the live session of that name, if any |
| GameServer.Registry.OnAfterCreate | src/game/Registry.cpp:145-168 | the same conditions for each error and for admission; an admitted connection becomes a greeted peer of its session and the host is told; a refused one changes no session; registered sessions are those with peers |
| GameServer.Registry.OnBeforeDestroy | src/game/Registry.cpp:170-193 | the peer is out of its session, its socket gone and its queue empty whatever it held, the remaining host told, and the session's name given up exactly if it is left empty |
| GameServer.Registry.Part | src/game/Registry.cpp:176-181 | invalidation and removal, with at most this one session left without peers |
| GameServer.Registry.Close | src/game/Registry.cpp:183-187 | the empty session leaves its game |
| GameServer.Registry.Join | src/game/Registry.cpp:156-166 | the new peer completes its session |
| GameServer.Admit | src/game/Registry.cpp:156-166 | a peer with a fresh id is added, and no other session is touched |
| GameServer.Leave | src/game/Registry.cpp:176-181 | one peer is invalidated and removed, and no other session is touched |
| GameServer.Enroll | src/game/Registry.cpp:156-166 | every connected peer is still found in its session under its id, and so is the new one |
| GameServer.Withdraw | src/game/Registry.cpp:176-181 | every other connected peer is still found in its session under its id |

## Left out

- WebSocket I/O, the JSON mapping, TLS, HTTP controllers, `Runner`, `App` and command line: plumbing over oatpp. A send is an attempt that succeeds or fails, parsing is a function parameter.
- The asynchronous write lock `m_writeLock`, object lifetimes, and `onPing`, `onPong`, `onClose` and `sendMessageAsync`: they depend on oatpp internals that are not part of this model.
- `maxPeers`, `staticHost` and the NEW_HOST message: declared in the source and not enforced anywhere, so nothing is stated about them. `setHost` has no caller.
- Integer widths: ids, counters and timestamps are unbounded.
- Error message texts, logging, and the order in which a JSON payload's type is chosen.
- That HELLO comes first: it is queued after the peers mutex has been released, so other messages can precede it.
- Lifecycle.RegisteredIffInhabited: takes each callback as one step; what is left of the property when callbacks of different connections overlap is `LifecycleRaces.SoundIffClear`, which in turn leaves out roles, refusals and pingers.
- An order between broadcasts of different senders: they are queued outside the session's mutex, and none is promised.
- Ping and kick frames are not messages of the queue: the object model lists them as notices, and the session protocol has only the kick orders.
- PeerSession.Peer.Act: the executor is a count of coroutines, and an asynchronous send is a step of `Mailboxes`, not of the class.
- PeerSession.Session.GetAllPeers: a `for` over a hash map is a loop that picks an arbitrary remaining element; loops with effects on peers run over such a list, in methods of their own.
- GameServer.Registry.OnAfterCreate: the socket and its listener are not objects of the model; a refused connection's error is the method's result.
- Locks.NoDeadlock: operations are given as their sequences of acquisitions and releases, with peers, sessions and branches as parameters, and not derived from the method bodies.
- Refinement.ServeAll: covers requests that do not overlap; overlapping calls are the step systems' subject. Which kicks and pings are sent is not among what the objects are shown to represent: `PeerSession.KickOthers`, `PeerSession.NoticesUntilClosed` and `Delivery.KickMultiplicity` speak of them.
- PingProtocol.PunctualPeerIsKept: `late` records whether some check found the peer owing an answer, as a history and not as a field of the source.
