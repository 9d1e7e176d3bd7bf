# CORSHub, verified

CORSHub is a caster for GNSS corrections. Base stations push RTCM3 bytes for a mountpoint, the caster
fans them out to the rovers subscribed to it, and a second egress streams the same frames as signed UDP
datagrams to authenticated sessions. Everything runs on one event loop: the code between two suspensions
is one atomic step, and that is what a step of each model here is.

`dafny verify dfyconfig.toml` checks the whole project.

## The modules

`RtcmSplitter` - the RTCM3 stream splitter and the carry-over buffer of each mountpoint. The reference is a
grammar: junk without a preamble, whole frames, one incomplete frame. The splitter computes the one parse
its input has, the remainder always fits under the discard limit (so the guard never drops data and the
oversize branch is dead), and over every interleaving of chunks, closes and unregistrations each mountpoint
gets exactly the frames of one split over its whole feed.

`Transport` - the bounded drop-oldest queue of one subscriber with its sentinel, and the fan-out of one
transport. A ledger follows what becomes of every accepted frame. Over every run of publishes, shutdowns,
`get` calls, wake-ups, cancellations and timeouts: accepted frames are those consumed, evicted or discarded
plus those queued; a frame is evicted exactly when the fifteenth frame after it is accepted while it is
still queued; nobody is left blocked on a cancelled subscriber; a drain never marks an item done too often.
`Caster` ends with the link between the transport object and the caster's own list of subscribers.

`Caster` - the registry of mountpoints and open transports, with all subscribers. Open transports are
always those of registered mountpoints, publishing never fails its lookup, its answer is the number of
subscribers that accepted, and every frame a rover gets was published on its own mountpoint, on the very
transport it subscribed to, after it subscribed, in order and at most once. `CasterReaper` follows the passes
of its reaper over whole runs: a mountpoint fresh at its turn goes all the same, and that takes an earlier
one of the same pass with subscribers to wait for.

`UdpSessions`, `UdpSafety`, `UdpRuns`, `UdpReaper`, `UdpDelivery`, `UdpSilence`, `UdpPositions`,
`UdpRequests`, `UdpTable`, `UdpSubscriptions`, `UdpScenarios`, `UdpServer`, `SignOnce` - the UDP session
protocol on top of the caster: hello, keepalive, switch, bye, eviction, reaping, the egress task of each
session, and the signing cache. The transition system is wider than the event loop: spawned handlers run in
any order, and a cancelled egress task may go on receiving frames until its cancellation reaches it.
`UdpSafety` proves what every step keeps and `UdpRuns` what follows over whole runs (`IsRun`; every list of
events has one). `UdpReaper` says which datagrams renew a session, whom the reaper picks, and every way a
session can end; a session heard from at least every TTL is never picked. `UdpDelivery` follows the frames from
the base station to the datagrams: one datagram for each frame a current task receives. `UdpSilence` says when
a session on the table stops being served, why, and what it takes to be served again; `UdpPositions` which
report every tracked position comes from, and which positions outlive their session. `UdpRequests` says over
whole runs what each request does and how it is answered: which one decides where a session is, when it goes
with its rover, and exactly when a reported place evicts it. `UdpTable` gives the order of the mountpoint table
and the site of each listing, `UdpSubscriptions` that no egress task leaves a subscription behind.
`UdpScenarios` shows runs from the start in which these things happen. `UdpServer` is the server as a class
whose methods are the steps and keep the invariant, and `SignOnce` counts signatures.

`RateLimit` - the token bucket and the TTL cache around it. The bucket is characterised exactly: a call is
allowed if and only if granting it keeps every window within capacity plus refill. The cache is invisible
if and only if a bucket can refill from empty within its idle time.

`Nearest` - the choice of the nearest mountpoint and the three distance checks.

`Text`, `SourceTable` - the source table (RTCM 10410.1 section 4.1) and the STR header parser. Printing a
mountpoint and parsing it back gives the same metadata if and only if a record can carry it; the condition
is spelled out field by field.

`GgaReader` - the bounded line reader of rover positions. Every chunking of a body yields exactly its
newline-terminated lines if and only if each of them fits the bound.

`ArpTracker` - the antenna reference point of each mountpoint: slow drift is noticed, and twice the
threshold is the exact bound.

`Wrappers` holds the option type.

## Where the code differs from what one would expect

* Joining a subscriber's queue never ends once a frame was consumed or evicted, although `drain` is
  described as letting it complete: neither path marks an item done (`Transport.JoinEndsIff`); one frame is
  enough (`Transport.JoinOfOneFrameNeverEnds`).
* Closing a mountpoint fails its lookup exactly if it was closed before and neither registered nor
  unregistered since (`Caster.CloseFailsIff`); closing twice is enough (`Caster.ClosingTwiceFails`).
* A mountpoint the caster's reaper listed is unregistered even if it publishes, or is registered anew, before
  its turn comes: `CasterReaper.ReapedThoughSeen` is such a run, `CasterReaper.FreshWhenUnregisteredIff` says
  exactly when it was fresh by then, and `CasterReaper.SeenOnlyWhileItWaits` that this needs an earlier one of
  the pass whose subscribers were still to be shut down.
* Tearing a UDP session down clears its position under its current mountpoint only. A keepalive stores the
  position under the old mountpoint before the handoff it causes, so that one stays behind
  (`UdpRuns.TeardownForgetsIff`, `UdpRuns.HandoffLeavesPositionBehind`). A switch leaves one behind as well
  (`UdpScenarios.PositionIsLeftBehind`); `UdpPositions.PositionOutlivesSessionIff` is the exact condition.
* A session whose base closed its transport stays on the table, and its deadline is renewed whenever it is
  heard, but it is served nothing any more, even when the base is back and it asks for that base once more
  (`UdpScenarios.BackAndNotServed`, `UdpSilence.SilentUntilMoved`).
* A UDP session picked by a reaper pass is torn down even if a datagram of it arrives before its turn comes:
  `UdpScenarios.LateNewsDoesNotSave` is such a run, and `UdpReaper.FreshWhenReapedIff` says exactly when a session
  heard from within the TTL is torn down by the reaper.
* The rover route's mask check computes a distance to a missing coordinate when a mountpoint has a mask but
  no place; the UDP check admits there (`Nearest.ChecksAgreeUnlessUnlocated`). No route of the repository sets a
  mask, so this takes one set through `NTRIPCaster.register`.
* A mountpoint without coordinates, format or country comes back from its own STR record with the parser's
  defaults (`SourceTable.RoundTripIff`).

## Model

| member | source | states |
|---|---|---|
| RtcmSplitter.SplitRtcmFrames | src/corshub/ntrip/v2/caster.py:76-106 | the scanning loop returns the frames and remainder of the reference split, and its oversize branch cannot be reached |
| RtcmSplitter.FindPreamble | src/corshub/ntrip/v2/caster.py:91-94 | the first preamble at or after a position, or none |
| RtcmSplitter.SplitFollowsAnyParse | src/corshub/ntrip/v2/caster.py:79-85 | any reading of a stream as junk, frames and an incomplete frame is the reading of the splitter |
| RtcmSplitter.SplitIsTheParse | src/corshub/ntrip/v2/caster.py:76-106 | frames and remainder are the result exactly if they are a parse of the input; so frames are disjoint ordered slices with a preamble and the length of their length field, and only preamble-free bytes are skipped |
| RtcmSplitter.SentFramesComeBack | src/corshub/ntrip/v2/caster.py:79-85 | payloads of at most 1023 bytes, framed, with any preamble-free bytes between them, split back to exactly those frames |
| RtcmSplitter.RemainderBelowLimit | src/corshub/ntrip/v2/caster.py:131-134 | the remainder is an incomplete frame shorter than 1029 bytes, so the discard guard never loses data |
| RtcmSplitter.SplitIsIncremental | src/corshub/ntrip/v2/caster.py:119-134 | splitting the remainder together with the next bytes continues the split of everything so far |
| RtcmSplitter.FrameBuffer.Observe | src/corshub/ntrip/v2/caster.py:128-136 | one chunk hands on the frames of buffer plus chunk, keeps exactly the remainder, and has an entry only for a non-empty one |
| RtcmSplitter.FrameBuffer.Drop | src/corshub/ntrip/v2/caster.py:480-498 | closing or unregistering forgets the buffer of that mountpoint and of no other |
| RtcmSplitter.ChunkingIsInvisible | src/corshub/ntrip/v2/caster.py:119-134 | for every cut into chunks and every interleaving of mountpoints and drops, each mountpoint gets the frames and holds the remainder of one split over each of its whole feeds |
| Transport.QueueTransportSubscriber.PutNowait | src/corshub/ntrip/v2/transport.py:98-108 | a non-blocking put fails exactly on a full queue, counts an unfinished item and wakes a blocked consumer |
| Transport.QueueTransportSubscriber.Drain | src/corshub/ntrip/v2/transport.py:110-122 | the drain loop, including its early end on a task_done too many |
| Transport.QueueTransportSubscriber.Cleanup | src/corshub/ntrip/v2/transport.py:124-133 | cancels, drains and leaves the sentinel |
| Transport.QueueTransportSubscriber.Shutdown | src/corshub/ntrip/v2/transport.py:135-143 | cleans up once, and nothing on a cancelled subscriber |
| Transport.QueueTransportSubscriber.Publish | src/corshub/ntrip/v2/transport.py:145-167 | accepts exactly when not cancelled, evicting the oldest item of a full queue first |
| Transport.QueueTransportSubscriber.BeginGet | src/corshub/ntrip/v2/transport.py:169-175 | the end of the stream when cancelled, else the head of the queue or blocking |
| Transport.QueueTransportSubscriber.ResumeGet | src/corshub/ntrip/v2/transport.py:174-180 | a woken consumer takes the head: a frame, or the sentinel as the end of the stream |
| Transport.QueueTransport.Subscribe | src/corshub/ntrip/v2/transport.py:205-211 | a fresh subscriber at the end of the list |
| Transport.QueueTransport.Leave | src/corshub/ntrip/v2/transport.py:213-218 | the subscriber is taken off the list if still there, and shut down |
| Transport.QueueTransport.Detach | src/corshub/ntrip/v2/transport.py:224-225 | shutting down up to its suspension: the list is emptied and its subscribers are still to be shut down |
| Transport.QueueTransport.Shutdown | src/corshub/ntrip/v2/transport.py:220-227 | the list is emptied and every subscriber on it shut down |
| Transport.QueueTransport.Publish | src/corshub/ntrip/v2/transport.py:229-249 | every listed subscriber is offered the frame, in order, and the count is that of the live ones |
| Transport.RemoveFirst | src/corshub/ntrip/v2/transport.py:214-216 | removing the first occurrence from the list |
| Transport.DrainNeverUnderflows | src/corshub/ntrip/v2/transport.py:110-122 | with at least as many unfinished as queued items, draining empties the queue without a fault |
| Transport.EveryEventKeepsLedger | src/corshub/ntrip/v2/transport.py:102-184 | every step keeps the ledger: the queue is the sentinel alone or exactly the accepted frames whose fate is open, in order, at most fifteen |
| Transport.AcceptedAfter | src/corshub/ntrip/v2/transport.py:135-167 | a publish is accepted exactly by a live subscriber; shutting down cancels for good |
| Transport.LedgerBalances | src/corshub/ntrip/v2/transport.py:77-184 | in every reachable state accepted frames are consumed, evicted, discarded or queued; consumption is in order and without repetition |
| Transport.ShutdownNeverHangs | src/corshub/ntrip/v2/transport.py:102-143 | a blocked consumer is not cancelled and a shutdown wakes it; a woken one on a cancelled subscriber finds the sentinel; later gets end the stream, nothing is enqueued, and no get faults |
| Transport.EvictedIffFifteenBehind | src/corshub/ntrip/v2/transport.py:156-164 | frame k is evicted exactly when frame k+15 is accepted while k is still queued |
| Transport.JoinEndsIff | src/corshub/ntrip/v2/transport.py:110-122 | the queue counts as fully processed exactly when it is empty and no frame was ever consumed or evicted |
| Transport.JoinOfOneFrameNeverEnds | src/corshub/ntrip/v2/transport.py:110-122 | one frame published and consumed leaves a queue that never counts as processed |
| Transport.InterruptedGet | src/corshub/ntrip/v2/transport.py:169-184 | a get whose task is cancelled ends the subscription for good; one that timed out leaves everything else as it was |
| Caster.NTRIPCaster.Register | src/corshub/ntrip/v2/caster.py:436-458 | registering or re-registering, with the invalid name refused |
| Caster.NTRIPCaster.OpenTransport | src/corshub/ntrip/v2/caster.py:443-456 | a fresh transport becomes the mountpoint's |
| Caster.NTRIPCaster.Close | src/corshub/ntrip/v2/caster.py:480-489 | closing, with its failing lookup |
| Caster.NTRIPCaster.Unregister | src/corshub/ntrip/v2/caster.py:491-502 | idempotent removal of mountpoint and transport |
| Caster.NTRIPCaster.DropTransport | src/corshub/ntrip/v2/transport.py:220-227 | exactly the subscribers listed by that transport are delisted and due to be shut down |
| Caster.NTRIPCaster.Subscribe | src/corshub/ntrip/v2/caster.py:629-640 | a new listed subscriber of the open transport, or the lookup error |
| Caster.NTRIPCaster.Publish | src/corshub/ntrip/v2/caster.py:561-582 | the timestamp is renewed, the frame offered, and the answer the number of live subscribers |
| Caster.NTRIPCaster.FanOut | src/corshub/ntrip/v2/transport.py:229-249 | the loop offers the frame to every subscriber of that transport and to no other |
| Caster.NTRIPCaster.Consume | src/corshub/ntrip/v2/transport.py:169-184 | one step of a subscriber's consumer changes that subscriber only |
| Caster.NTRIPCaster.Leave | src/corshub/ntrip/v2/transport.py:213-218 | the end of a subscription changes that subscriber only |
| Caster.NTRIPCaster.ListStale | src/corshub/ntrip/v2/caster.py:673-675 | the mountpoints last seen before the cutoff, exactly |
| Caster.NTRIPCaster.ReapOn | src/corshub/ntrip/v2/caster.py:677-678 | the loop unregisters one listed mountpoint after the other up to the first that has subscribers to wait for; exactly those are gone |
| Caster.NTRIPCaster.Reap | src/corshub/ntrip/v2/caster.py:669-681 | a pass up to its first suspension; one that never suspends removes exactly the stale mountpoints, with their transports, and the system stays sound |
| Caster.ShutdownIsExplained | src/corshub/ntrip/v2/caster.py:480-502 | a subscriber's shutdown is scheduled only because the mountpoint of its transport was closed or unregistered after it joined |
| CasterReaper.EveryRequestListHasItsRun | src/corshub/ntrip/v2/caster.py:436-502 | runs are exactly the state sequences of request lists, one each |
| CasterReaper.LastSeenIsTheLastSight | src/corshub/ntrip/v2/caster.py:561-568 | the last-seen time of a mountpoint is that of the last publication on its open transport or of its registration |
| CasterReaper.FreshWhenUnregisteredIff | src/corshub/ntrip/v2/caster.py:673-678 | a mountpoint stale when it was listed is gone after its turn; by then it is fresh exactly if it published on its open transport or was registered anew in between |
| CasterReaper.SeenOnlyWhileItWaits | src/corshub/ntrip/v2/caster.py:675-678 | anything that makes a mountpoint seen during a pass comes while the pass waits for subscribers of one it has just unregistered |
| CasterReaper.ReapedThoughFresh | src/corshub/ntrip/v2/caster.py:669-678 | so a listed mountpoint fresh at its turn is unregistered all the same, and there was an earlier one of the pass that had subscribers |
| CasterReaper.ReapedThoughSeen | src/corshub/ntrip/v2/caster.py:675-678 | a run in which that happens |
| Caster.EveryRequestKeepsSystem | src/corshub/ntrip/v2/caster.py:436-502 | every step keeps registry, logs, subscribers and ledgers consistent |
| Caster.RunKeepsSystem | src/corshub/ntrip/v2/caster.py:436-582 | so does every run; in particular open transports are those of registered mountpoints |
| Caster.LogIsExplained | src/corshub/ntrip/v2/caster.py:561-582 | every frame in a transport's log was published on its own mountpoint while it was open |
| Caster.RequestFailsIff | src/corshub/ntrip/v2/caster.py:436-502 | registering fails exactly for a new mountpoint with a bad name, subscribing exactly for one that is not open, unregistering never; a failure changes nothing |
| Caster.JoinIsExplained | src/corshub/ntrip/v2/caster.py:635-640 | every subscriber joined by a request on its transport's mountpoint while that was open |
| Caster.RoverGetsItsOwnFrames | src/corshub/ntrip/v2/caster.py:561-640 | every frame a rover got was published on its mountpoint and its transport after it subscribed, in order and at most once |
| Caster.EverySendIsLogged | src/corshub/ntrip/v2/caster.py:561-571 | no publication on an open transport is lost from its log |
| Caster.LiveRoverAcceptsEverything | src/corshub/ntrip/v2/transport.py:145-167 | a listed, live rover accepted every frame published on its transport since it joined |
| Caster.PublishReachesTheLive | src/corshub/ntrip/v2/caster.py:561-582 | publishing never fails its lookup and its answer is the number of subscribers that accepted the frame |
| Caster.CloseFailsIff | src/corshub/ntrip/v2/caster.py:480-489 | closing fails exactly on a mountpoint without an open transport that is registered: closed before, and neither registered nor unregistered since |
| Caster.ClosingTwiceFails | src/corshub/ntrip/v2/caster.py:480-489 | closing a mountpoint twice fails |
| Caster.BlockedRoverIsFedOrWoken | src/corshub/ntrip/v2/transport.py:135-184 | a blocked rover is on an open transport or is due to be woken to the end of its stream |
| Caster.PublishThrough | src/corshub/ntrip/v2/transport.py:229-249 | publishing on a transport object does to its list what the caster's step does to the listed subscribers, and counts the same |
| Caster.SubscribeThrough | src/corshub/ntrip/v2/transport.py:205-211 | so does subscribing |
| Caster.CloseThrough | src/corshub/ntrip/v2/transport.py:220-225 | so does closing, and the subscribers that leave are those that were listed |
| Caster.LeaveThrough | src/corshub/ntrip/v2/transport.py:213-218 | so does leaving |
| RateLimit.RateLimiter.Allow | src/corshub/http/ratelimit.py:57-73 | the answer and the new cache are those of the specification, on the shared mutable buckets |
| RateLimit.RateLimiter.Expire | src/corshub/http/ratelimit.py:55-72 | assigning to the TTL cache drops exactly the expired entries |
| RateLimit.RateLimiter.Put | src/corshub/http/ratelimit.py:72 | and renews the entry of the key alone |
| RateLimit.TokensAreTheTightestWindow | src/corshub/http/ratelimit.py:57-73 | at any later time the bucket holds at least x exactly if taking x keeps every window within capacity plus refill, whatever the costs, clock and parameters |
| RateLimit.AllowedIffEveryWindowFits | src/corshub/http/ratelimit.py:57-73 | with the expiring cache, a call is allowed exactly if every window stays within the bound; only calls on the same key occur |
| RateLimit.GlobalBound | src/corshub/http/ratelimit.py:57-73 | no stretch of a run grants a key more than a burst plus the refill of that stretch |
| RateLimit.CachesAgree | src/corshub/http/ratelimit.py:55-73 | the expiring cache and one that keeps every bucket agree on every run |
| RateLimit.TtlCacheIsInvisibleIff | src/corshub/http/ratelimit.py:43-73 | the cache never changes an answer exactly when refill times idle TTL reaches the capacity |
| RateLimit.ForgettingShows | src/corshub/http/ratelimit.py:55-73 | otherwise two calls show the difference |
| Nearest.FindNearest | src/corshub/rtcm/udp.py:411-423 | the selection loop of the UDP server |
| Nearest.ScanFindsTheNearest | src/corshub/services/v1/ntrip/nearest.py:49-66 | after any prefix, the candidate is the first of minimum distance among located mountpoints within their mask |
| Nearest.NearestIff | src/corshub/services/v1/ntrip/nearest.py:49-66 | a mountpoint is chosen exactly if it is that one, and none exactly if none is in range |
| Nearest.NearestIsAdmitted | src/corshub/services/v1/ntrip/read.py:138-147 | the mountpoint chosen for a position is neither out of range for the UDP server nor refused by the rover route |
| Nearest.ChecksAgreeUnlessUnlocated | src/corshub/services/v1/ntrip/read.py:143-147 | the two mask checks agree except on a mountpoint with a mask and no place |
| Nearest.MaskGateIff | src/corshub/services/v1/ntrip/read.py:138-147 | exactly when the rover route's check stops a rover, and how |
| UdpSessions.Resolve | src/corshub/rtcm/udp.py:379-409 | what is resolved is allowed by the token scope |
| UdpSessions.ResolveIff | src/corshub/rtcm/udp.py:52-409 | a request is granted exactly if the token's scope is "*", "NEAREST" or the mountpoint itself, and it names a listed mountpoint, or for NEAREST the nearest one to a given position |
| UdpSessions.RefusalIff | src/corshub/rtcm/udp.py:388-409 | and it is refused with each error code under exactly these conditions: no position; nothing in range or not listed; a concrete scope that is another mountpoint |
| UdpSessions.RequestsAreTheRun | src/corshub/rtcm/udp.py:320-350 | the caster under the server is the caster after the requests made so far |
| UdpServer.RTCMDatagramServer.ResolveMountpoint | src/corshub/rtcm/udp.py:379-409 | authorization and resolution with its error codes |
| UdpServer.RTCMDatagramServer.SpawnHello | src/corshub/rtcm/udp.py:191-194 | a hello is handled later, by a task of its own |
| UdpServer.RTCMDatagramServer.HandleDatagram | src/corshub/rtcm/udp.py:196-211 | dispatch of a datagram of a known session, and no effect for an unknown one |
| UdpServer.RTCMDatagramServer.Refresh | src/corshub/rtcm/udp.py:201-204 | address and deadline of that session, and nothing else |
| UdpServer.RTCMDatagramServer.HandleHello | src/corshub/rtcm/udp.py:218-264 | opening a session, or the error sent back |
| UdpServer.RTCMDatagramServer.HandleKeepalive | src/corshub/rtcm/udp.py:266-284 | position, handoff or eviction |
| UdpServer.RTCMDatagramServer.HandleSwitch | src/corshub/rtcm/udp.py:286-295 | an authorized switch, or the error sent back |
| UdpServer.RTCMDatagramServer.Repoint | src/corshub/rtcm/udp.py:297-305 | new mountpoint and task, the old task cancelled, nothing on the same mountpoint |
| UdpServer.RTCMDatagramServer.Teardown | src/corshub/rtcm/udp.py:445-457 | removal from the table, gauge, position and task, once |
| UdpServer.RTCMDatagramServer.Evict | src/corshub/rtcm/udp.py:440-443 | the error, then teardown |
| UdpServer.RTCMDatagramServer.SignCorrection | src/corshub/rtcm/udp.py:352-375 | reuse for the identical bytes object, else a new correction in the cache |
| UdpServer.RTCMDatagramServer.StartEgress | src/corshub/rtcm/udp.py:320-330 | the first run of an egress task: subscription, or error and teardown |
| UdpServer.RTCMDatagramServer.PumpFrame | src/corshub/rtcm/udp.py:333-350 | one frame: the check on the task, signing, numbering, the size cap and the send |
| UdpServer.RTCMDatagramServer.Pump | src/corshub/rtcm/udp.py:332-337 | one round of the pump, from its `get` on |
| UdpServer.RTCMDatagramServer.RunPump | src/corshub/rtcm/udp.py:332-350 | the loop runs rounds until it is suspended or its stream is over, and gets there |
| UdpServer.RTCMDatagramServer.DeliverCancel | src/corshub/rtcm/udp.py:320-330 | a cancelled task leaves its subscription |
| UdpServer.RTCMDatagramServer.RunJob | src/corshub/rtcm/udp.py:206-216 | the spawned handlers |
| UdpServer.RTCMDatagramServer.ListStale | src/corshub/rtcm/udp.py:462-463 | the sessions past their deadline, once each |
| UdpServer.RTCMDatagramServer.ReapPass | src/corshub/rtcm/udp.py:462-465 | the stale sessions are listed and the first is torn down in the same step |
| UdpServer.RTCMDatagramServer.ReapNext | src/corshub/rtcm/udp.py:464-465 | the reaper goes on with the next session it listed |
| UdpSafety.RepointedKeepsAll | src/corshub/rtcm/udp.py:297-305 | a handoff keeps the invariant although the old task goes on |
| UdpSafety.FrameKeeps | src/corshub/rtcm/udp.py:333-350 | so does a pumped frame, because of the check on the current task |
| UdpSafety.GotServes | src/corshub/rtcm/udp.py:320-337 | what the current task gets was published on the mountpoint its session is on |
| UdpSafety.EveryEventKeepsServer | src/corshub/rtcm/udp.py:183-467 | every step keeps tasks, sessions, datagrams, cache and gauge consistent |
| UdpSafety.ServerStaysSound | src/corshub/rtcm/udp.py:183-467 | so does every run |
| UdpSafety.StepBuilds | src/corshub/rtcm/udp.py:332-350 | only a pump round of a session's current task builds a datagram for it, and one that fits leaves for its address |
| UdpSafety.StepMovesOn | src/corshub/rtcm/udp.py:297-305 | no step makes an earlier task current again or changes a session's scope |
| UdpRuns.EveryEventListHasItsRun | src/corshub/rtcm/udp.py:183-467 | runs are exactly the state sequences of event lists, one each |
| UdpRuns.EveryCorrectionIsGenuine | src/corshub/rtcm/udp.py:320-375 | in every interleaving, each datagram built for a session names the mountpoint the session was on at that moment, carries a frame published there by a request made before that step, is signed over its own payload and has the next sequence number |
| UdpRuns.SentIsWhatFits | src/corshub/rtcm/udp.py:342-348 | the corrections sent to a session are exactly the built ones within the size cap, in order: gaps in the numbers are the oversize drops |
| UdpRuns.SequenceNumbersDiffer | src/corshub/rtcm/udp.py:76-79 | numbers are consecutive modulo 2^32 across switches, and differ for datagrams fewer than 2^32 apart |
| UdpRuns.SupersededTaskIsSilent | src/corshub/rtcm/udp.py:334-336 | a superseded or torn-down task never builds or sends anything again, whenever its cancellation arrives |
| UdpRuns.OneActiveTaskPerSession | src/corshub/rtcm/udp.py:297-305 | a session has at most one egress task neither ended nor cancelled |
| UdpRuns.ConcreteScopePins | src/corshub/rtcm/udp.py:307-309 | every session is always on a mountpoint its token allows; with any scope other than "*" and "NEAREST" it stays there for life |
| UdpRequests.TokenDecides | src/corshub/rtcm/udp.py:52-244 | a session opened by a hello has that hello's scope in every later state, and with any other than "*" and "NEAREST" it is on exactly that mountpoint |
| UdpRequests.StepObeys | src/corshub/rtcm/udp.py:236-305 | where a session is and whether it follows its rover change in a step exactly as a granted hello or switch, or an accepted place, says |
| UdpRequests.SessionIsAsLastGranted | src/corshub/rtcm/udp.py:236-295 | in every reachable state a session follows its rover exactly if its last granted request asked for NEAREST, and is otherwise on the mountpoint that granted |
| UdpRequests.RoverIsFollowedIff | src/corshub/rtcm/udp.py:266-281 | an accepted place puts a session that last asked for NEAREST on the first nearest listing in range if its token allows it; every other accepted place leaves its session where it is |
| UdpRequests.KeepaliveEvictsIff | src/corshub/rtcm/udp.py:274-284 | an accepted place spawns the eviction of its session exactly if no listing is in range, for one that last asked for NEAREST, or else if the granted mountpoint has a place and a positive mask and is farther than that |
| UdpRequests.EvictionEnds | src/corshub/rtcm/udp.py:440-450 | running an eviction sends exactly the out-of-range error to the session's address and takes it off the table |
| UdpRequests.DatagramSpawnsExactly | src/corshub/rtcm/udp.py:196-211 | a switch or bye spawns exactly its handler with what it asks for; a datagram of an unknown session does nothing |
| UdpRequests.GrantWasAskedFor | src/corshub/rtcm/udp.py:192-218 | every request granted was brought by an earlier datagram with that very token, mountpoint and position |
| UdpRequests.StepAnswers | src/corshub/rtcm/udp.py:218-331 | who is told what in every step but a pump round: a hello its session, mountpoint, key and intervals or why not, a switch only why not, an eviction and an egress without its mountpoint the error, nobody anything else |
| UdpRequests.TruncatedIff | src/corshub/rtcm/udp.py:258 | the TTL told is its whole part, towards zero |
| UdpRuns.RepeatedKeepaliveIsQuiet | src/corshub/rtcm/udp.py:266-284 | after a keepalive that evicts nobody, a second from the same place neither moves nor evicts |
| UdpRuns.NearestSessionStaysPut | src/corshub/rtcm/udp.py:274-281 | a session on the mountpoint nearest to it stays there |
| UdpRuns.TeardownIsIdempotent | src/corshub/rtcm/udp.py:445-447 | tearing down twice is tearing down once |
| UdpRuns.TeardownForgetsIff | src/corshub/rtcm/udp.py:449 | teardown clears every position of a session exactly if none was kept under another mountpoint |
| UdpRuns.HandoffLeavesPositionBehind | src/corshub/rtcm/udp.py:272-281 | a keepalive handoff keeps one |
| UdpRuns.TableFollowsRegistry | src/corshub/ntrip/v2/caster.py:504-506 | the table sessions are resolved against lists exactly the registered mountpoints, each once |
| UdpTable.TableIsByRegistration | src/corshub/ntrip/v2/caster.py:436-458 | in every reachable state that table is in the order of registration, each mountpoint with the site its latest registration gave |
| UdpReaper.StepRenews | src/corshub/rtcm/udp.py:196-204 | a step sets a session's address and deadline exactly if it accepts a datagram of it, and then to those of that datagram |
| UdpReaper.BookkeepingIsExact | src/corshub/rtcm/udp.py:201-247 | over every run the gauge is the size of the table, and every session's address and deadline are those of the latest datagram of the run accepted from it |
| UdpReaper.ReapPassPicksTheSilent | src/corshub/rtcm/udp.py:459-465 | a pass picks exactly the registered sessions whose latest accepted datagram is longer ago than the TTL |
| UdpReaper.ReapedOnlyAfterSilence | src/corshub/rtcm/udp.py:459-465 | whoever the reaper still has to tear down was picked by an earlier pass, being silent then |
| UdpReaper.KeptAliveIsNeverQueued | src/corshub/rtcm/udp.py:462-465 | nor is such a session ever among those the reaper still has to tear down |
| UdpReaper.KeptAliveIsNeverPicked | src/corshub/rtcm/udp.py:427-465 | with a clock that never goes back, a session whose datagrams, and whose last one and each later pass, are at most the TTL apart is never picked |
| UdpReaper.StepLeaves | src/corshub/rtcm/udp.py:440-465 | the steps that take a registered session off the table, exactly |
| UdpReaper.SessionEndsOnlyFor | src/corshub/rtcm/udp.py:206-465 | a session ends only by its own bye, by a reported place out of reach, for want of its mountpoint when its egress starts, or picked by a pass |
| UdpReaper.KeptAliveEndsOnlyFor | src/corshub/rtcm/udp.py:206-465 | one heard from at least every TTL ends only for the first three |
| UdpReaper.FreshWhenReapedIff | src/corshub/rtcm/udp.py:462-465 | a session the reaper gets to later in its list has been heard from within the TTL, and goes all the same, exactly if a datagram of it came in after the pass, late enough |
| UdpScenarios.LateNewsDoesNotSave | src/corshub/rtcm/udp.py:462-465 | a run in which that happens |
| UdpDelivery.DatagramsAreTheFramesReceived | src/corshub/rtcm/udp.py:332-350 | in every reachable state the datagrams a current egress task built carry, in order and one each, the frames its subscriber handed out |
| UdpDelivery.PublishedIsAccountedFor | src/corshub/rtcm/udp.py:320-350 | every frame published on the transport since a current task subscribed was accepted, and waits, was pushed out by newer ones, or is in a datagram of that task |
| UdpPositions.StepTracks | src/corshub/rtcm/udp.py:266-450 | a step changes the position kept for a session under a mountpoint only by a report, the end of the mountpoint, or the end of the session on it |
| UdpPositions.PositionIsTheLastReportIff | src/corshub/rtcm/udp.py:266-272 | in every reachable state a position is kept for a session under a mountpoint exactly if it is the last one reported there, and neither was the mountpoint closed nor did the session end on it since |
| UdpPositions.PositionOutlivesSessionIff | src/corshub/rtcm/udp.py:445-449 | a position outlives its session exactly if it is the last one reported on a mountpoint the session had left by its end, by handoff or switch, and that mountpoint was not closed or unregistered since |
| UdpScenarios.PositionIsLeftBehind | src/corshub/rtcm/udp.py:285-305 | a run in which a switch leaves one behind |
| UdpSilence.StepAssigns | src/corshub/rtcm/udp.py:266-305 | a session gets another task exactly by being sent to a different mountpoint, and loses its task exactly by being taken off the table |
| UdpSilence.CurrentTaskEndedIff | src/corshub/rtcm/udp.py:320-333 | the current task of a session on the table is never cancelled, and has ended exactly if an earlier round of it found its subscriber shut down |
| UdpSilence.EndOfStreamIff | src/corshub/ntrip/v2/transport.py:169-180 | in a sound queue a round finds the end of the stream exactly if the subscriber was cancelled |
| UdpSilence.SilentBecauseClosed | src/corshub/ntrip/v2/caster.py:480-502 | a session on the table whose task has ended is on a mountpoint that was closed or unregistered while the task was reading from it, whose shutdown ran, and whose end a later round met |
| UdpSilence.SilentUntilMoved | src/corshub/rtcm/udp.py:297-333 | from then on it builds nothing and stays on the table, exactly until a step sends it to a different mountpoint or takes it off the table |
| UdpScenarios.BackAndNotServed | src/corshub/rtcm/udp.py:285-300 | a run in which the base is back, the session is heard, asks for that base, is granted it, and is still served nothing |
| UdpSubscriptions.NoSubscriptionLeaks | src/corshub/ntrip/v2/transport.py:205-218 | from the moment an egress task joined a transport it is streaming from it, or its subscriber is off the list and shut down |
| UdpSubscriptions.SupersededNeverJoins | src/corshub/rtcm/udp.py:297-331 | a task superseded or torn down before it started never joins a transport |
| SignOnce.SigningsAreStretches | src/corshub/rtcm/udp.py:352-375 | the signatures made for a mountpoint are the stretches of equal frames asked for it |
| SignOnce.ServerSignsStretches | src/corshub/rtcm/udp.py:332-375 | so it is for the calls of every run of the server, whose cache is the cache of those calls |
| SignOnce.StretchesAreFramesIff | src/corshub/rtcm/udp.py:355-358 | a list of frames has at least as many stretches as frames, and just as many exactly if none comes up again after another |
| SignOnce.RunSignsEachFrameOnceIff | src/corshub/rtcm/udp.py:355-358 | in every run the signatures for a mountpoint are at least its frames, and just as many, however many sessions pump each, exactly if the sessions pump in lock-step |
| SignOnce.LockStepSignsEachFrameOnce | src/corshub/rtcm/udp.py:355-358 | calls made frame by frame sign each frame once, however many there are |
| SignOnce.ReturnedIsGenuine | src/corshub/rtcm/udp.py:352-375 | what a call returns names its mountpoint and frame and is signed over its own payload; a new frame is signed at the time of the call, a repeated one returns the cached correction |
| SourceTable.ParseNtripStr | src/corshub/ntrip/v2/headers.py:59-183 | the parser overwrites its defaults field by field, each on its own |
| SourceTable.HeaderFieldsIff | src/corshub/ntrip/v2/headers.py:98-105 | of a header's pieces the parser sees all, stripped, unless the first is a STR in any case, then all but that |
| SourceTable.CompliantRecordReadsAlike | src/corshub/ntrip/v2/headers.py:100-105 | a record sent without its leading STR, with or without the empty last field, reads as the record itself unless the name is taken for a STR |
| SourceTable.FieldsSay | src/corshub/ntrip/v2/headers.py:146-183 | each number and choice of the metadata, exactly as its own field says, out of range counting for nothing |
| SourceTable.TextFieldsSay | src/corshub/ntrip/v2/headers.py:131-176 | the texts, each from its own field, with the defaults of empty ones |
| SourceTable.PlaceFieldsSay | src/corshub/ntrip/v2/headers.py:151-163 | country and coordinates are read only in a record of at least ten fields, and only in range |
| SourceTable.HeaderFieldsOfRecord | src/corshub/ntrip/v2/headers.py:98-105 | the parser sees the printed fields, stripped, without the leading STR |
| SourceTable.PlainReadersAreStandard | src/corshub/ntrip/v2/headers.py:110-135 | what is relied on of the number readers and upper case is met by plain decimals and ASCII |
| SourceTable.PrintableIff | src/corshub/ntrip/v2/sourcetable.py:39 | an integer can be printed exactly if it has at most 4300 digits |
| SourceTable.RecordReadsBack | src/corshub/ntrip/v2/sourcetable.py:26-54 | what comes back of any mountpoint that can be printed and whose texts hold no separator |
| SourceTable.RoundTripIff | src/corshub/ntrip/v2/headers.py:98-183 | printing succeeds and parsing returns exactly the metadata if and only if the record can carry it |
| SourceTable.TableSplitsIff | src/corshub/ntrip/v2/sourcetable.py:57-65 | splitting a printed table on CRLF recovers every record in order and ENDSOURCETABLE exactly if no field holds a CRLF |
| SourceTable.TableDeliversEveryMountpoint | src/corshub/ntrip/v2/sourcetable.py:57-65 | from mountpoints to the table to a reader's metadata nothing is lost |
| Text.SplitUndoesJoinIff | src/corshub/ntrip/v2/sourcetable.py:32-65 | splitting undoes joining exactly on pieces free of the separator |
| Text.StripTakesBlanks | src/corshub/ntrip/v2/headers.py:98 | stripping takes blanks off both ends and nothing else |
| Text.FixedRoundTrip | src/corshub/ntrip/v2/sourcetable.py:43-44 | a number printed with two decimals reads back as its nearest hundredth |
| Text.RoundedIff | src/corshub/ntrip/v2/sourcetable.py:43-44 | which is the number itself exactly if it has two decimals, and never further than half a hundredth |
| Text.TiesGoToEven | src/corshub/ntrip/v2/sourcetable.py:43-44 | halfway between two hundredths the even one is printed |
| Text.IntRoundTrip | src/corshub/ntrip/v2/sourcetable.py:39 | a printed integer reads back |
| GgaReader.ReadRoverGga | src/corshub/services/v1/ntrip/read.py:84-99 | the nested loops parse the lines of the specification, keep its buffer, and store the position of the last parseable line |
| GgaReader.CutIff | src/corshub/services/v1/ntrip/read.py:86-88 | the lines of a body are exactly what its newlines end, each without it, and the rest is what follows the last one |
| GgaReader.ReceivedIsBounded | src/corshub/services/v1/ntrip/read.py:76-99 | after each chunk the buffer holds no newline and at most 4096 bytes |
| GgaReader.LastFixIff | src/corshub/services/v1/ntrip/read.py:93-96 | the stored position is that of the last parseable line, if any |
| GgaReader.LinesAreThoseOfTheBodyIff | src/corshub/services/v1/ntrip/read.py:84-99 | the lines parsed are those of the body exactly if no line is ended after more than the bound of it had arrived |
| GgaReader.EveryChunkingReadsTheLinesIff | src/corshub/services/v1/ntrip/read.py:84-99 | every chunking of a body reads exactly its lines if and only if each line fits the bound |
| ArpTracker.Tracker.Observe | src/corshub/ntrip/v2/caster.py:156-173 | the reference and the counter after a report |
| ArpTracker.SteadyReportsStayNear | src/corshub/ntrip/v2/caster.py:165-171 | each of x, y and z of a report since the last counted change is within the threshold of the reference |
| ArpTracker.DriftIsNoticed | src/corshub/ntrip/v2/caster.py:165-171 | between two reports more than twice the threshold apart in x, y or z, either way, a change is counted |
| ArpTracker.DriftUpToTwiceCanHide | src/corshub/ntrip/v2/caster.py:165-171 | up to twice the threshold a run exists that counts none |
| ArpTracker.ChangeIsReal | src/corshub/ntrip/v2/caster.py:169-171 | a counted change is more than the threshold away in x, y or z from an earlier report with no change in between |
| ArpTracker.CounterCountsTheChanges | src/corshub/ntrip/v2/caster.py:169-171 | the counter of a mountpoint is the number of its changes |

## Left out

- Encodings and cryptography: datagrams are values with an uninterpreted size, tokens arrive as verified claims, signing is any function, and encoding a correction is one-to-one.
- HTTP routes, WebSockets, OIDC, the policy client, configuration, logging, metrics other than the session gauge and the ARP change counter, and the statistics of signal quality.
- The distance on the globe is any function of two places, parsing a GGA line any partial function of its bytes, and message decoding and CRC checks are not modelled.
- Floating-point rounding: time, tokens, coordinates and ARP positions are reals.
- RateLimit.RateLimiter.Allow: reads its clock once a call, where the cache reads it again on lookup and on storing; overflow of the cache's maximum size is not modelled.
- Session identifiers: a random identifier already in use is taken not to occur.
- Caster.NTRIPCaster.Subscribe: subscribers and transports are numbered values inside the caster rather than shared objects; the objects themselves are `Transport.QueueTransportSubscriber` and `Transport.QueueTransport`.
- UdpServer.RTCMDatagramServer.ReapPass: the stale sessions are listed in any order rather than that of the table, and each teardown after the first is a step of its own even if the one before had no task to wait for; stopping the server is not modelled.
- UdpServer.RTCMDatagramServer.HandleHello: errors carry their code without the message.
- Transport.QueueTransport.Shutdown: shuts the subscribers down with nothing in between, where each shutdown is a task of its own; `Transport.QueueTransport.Detach` and the steps of `Caster` keep them apart.
- Caster.NTRIPCaster.Reap: the method is a pass up to its first suspension; a whole pass, with other steps in between, is `CasterReaper.IsPass`. The stale mountpoints are listed in any order.
- UdpServer.RTCMDatagramServer.HandleKeepalive: the server keeps the positions of its own sessions; those of HTTP rovers on the same mountpoints are not part of the table.
- Sends only to registered sessions: not claimed, since a switch still pending when its session is torn down starts a task for it; what such a task sends is genuine all the same.
- UdpServer.RTCMDatagramServer.ResolveMountpoint: reads a table of names, places and masks kept beside the server, which follows the caster's registry, rather than the registry itself.
- Caster.NTRIPCaster.Register: keeps only whether the name is valid and when it was last seen; name patterns are a flag.
- SourceTable.ParseNtripStr: the language's number readers and upper case are parameters, of which only what `SourceTable.Standard` says is relied on.
- SourceTable.RoundTripIff: the fallback name is taken to be trimmed and free of semicolons, as mountpoint names are.
- Frames dropped by the bounded quality queue before they reach the splitter: the feeds of `RtcmSplitter` are the chunks processed.
