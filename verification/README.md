# wireguard-rs, verified

A model in Dafny of the core of wireguard-rs, a userspace WireGuard: its replay filter, the
sessions of a peer, the handlers of the peer server as one state machine, configuration,
routing, rate limiting, HChaCha20, the cookie exchange and the message formats. `dafny
verify dfyconfig.toml` checks all of it.

## How it is built

There are two layers.

The first layer is made of values and functions. `PeerModel` describes a peer with its past,
current and next session, its timers and its queue; `World` describes the shared state (peers
by name, the maps from public keys, indices and routes to peers, the packets handed to the
tunnel) and one function for each handler. A `Run` is a sequence of states, from the empty one,
in which each follows from the one before by some input: a handshake message, a transport
message, a packet from the tunnel, a timer, a configuration update or a clock tick. What the
outside decides (numbers drawn at random, whether UDP and Noise succeed, which of several
writes fail) is part of the input, so a theorem about runs holds for all of it.

The second layer is made of objects that change in place, as in the program: `AntiReplay`,
`Peer`, the shared `State` with its handlers, the limiter, and the two ends of the cookie
exchange. Each method is proved to do what the function of the first layer says. In `PeerServer`
and `Configuration` several maps refer to the same peer objects; `State.Represents` says which
value they stand for. `Dispatch.HandleArrival` takes the objects from one state of a run to the
next, so what is proved of runs holds of them at any time.

The main results:

- `Runs.StepLink`, `Runs.EverySessionMapped`, `Runs.IndexMapExact`: when the index map follows
  the sessions through all rotations, and exactly which steps break that; `SessionMap.StepMapped`
  and `SessionMap.MappedExactly`: exactly when a session of a configured peer can be found.
- `Replays.ReplayRefused`, `Receipts.RefusedExactly`, `Theorems.NoncesIncrease`, `Theorems.EgressInOrder`,
  `Theorems.RetriesBounded`, `Theorems.InitiationsApart`, `Replays.InitiationReplayIgnored`,
  `Theorems.WipeKeepsUsable`: what holds of the messages of any run.
- `Theorems.ConfigurationConsistent`, `Theorems.DeliveriesAreRouted`: configuration and
  cryptokey routing in every reachable state.
- `Traffic.EgressQueues`, `Traffic.EgressInitiates`, `Arrivals.TransportAchieves`,
  `Keepalives.KeepalivesExact`: exactly what each packet, message and timer of a run leads to.
- `Origins.EveryMessageAddressed`, `Clocks.TimersExact`: where address, index and timer values come
  from, over whole runs.
- `Updates.SettingsUpdated`, `Updates.RoutesUpdated`: exactly what an update changes.
- `AntiReplay.AntiReplay.Update`: the ring of words against the set of all counters.
- `ConfigParser.ParsePairs` and `ConfigParser.ParsedByKind`: the one-pass parser against groups.
- `RateLimiter.RateBound`: the bound on the rate with garbage collection.
- `XChaCha20Poly1305.Hchacha20` and `XChaCha20Poly1305.PermutationInverse`.
- `Cookie.CookieExchange` and `Messages.TunnelRoundTrip`: two parties over the wire formats.

## Where the program does less than one would expect

The model follows the program in these cases. For each there is the exact condition and an
input or a run at which the property fails.

- A handshake response that cannot be read has already taken the next session, whose index
  stays in the index map (src/peer.rs:320-323): `StepInvariants.OnResponseLink`. If that peer is
  removed, the index keeps its object alive (`StepInvariants.ForgottenIsFree`), and a later step for
  the object may take out an index that another peer uses by then: `SessionMap.StepMapped` and
  `SessionMap.MappedExactly` say exactly when, and `StaleIndex.RemovalCanUnmap` is a run.
- A wipe goes by the age of the last completed handshake alone, so it may take a next session that
  was just made (src/interface/peer_server.rs:500-504): `Theorems.WipeDropsExactly` and
  `WipeRun.WipeDropsNext`.
- The first byte of a datagram is looked at before its length (src/message.rs:28), and the socket
  hands empty datagrams on (src/udp/frame.rs:36-42), so the program panics exactly on those:
  `Messages.Parse`.
- A received counter is recorded before the message is authenticated (src/peer.rs:347-352).
  `Receipts.RefusedExactly` says which messages shut out which, and `ForgedRun.ForgedShutsOutGenuine`
  is a run in which a message that cannot be decrypted shuts out a genuine one.
- The mac1 of an initiation is read at another place than it is written (src/message.rs:47-49,
  src/peer.rs:241-242), so cookie replies to initiations are not consumed:
  `Cookie.InitiationReplyConsumed` and `Cookie.InitiationReplyRefused`.
- The limiter credits only the fraction of a second that passed (src/ratelimiter.rs:63), so only
  an upper bound holds: `RateLimiter.RefillExact` and `RateLimiter.Starved`. Nothing polls the
  limiter (src/interface/peer_server.rs:562-625), so in the program as it stands entries are never
  collected, and the proviso of `RateLimiter.Starved` always holds.
- The second count of a TAI64N label wraps around 64 bits: `Timestamps.Tai64nOrder` and
  `Timestamps.Tai64nWraps`. So does the 16-bit length of an IPv6 packet: `IpPackets.LengthExact`
  and `IpPackets.LengthWraps`.
- A queued packet resets the attempt counter (src/peer.rs:178-185), so retries are bounded only by
  the number of packets queued: `Theorems.RetriesBounded` and `RetryRun.RetriesReached`.

## Model

| member | source | states |
|---|---|---|
| AntiReplay.AntiReplay.constructor | src/anti_replay.rs:34-39 | a new filter has accepted nothing |
| AntiReplay.AntiReplay.Restore | src/anti_replay.rs:22-25 | a filter made from stored words and the last counter stands for the set of counters they were stored for |
| AntiReplay.AntiReplay.Check | src/anti_replay.rs:44-58 | for every 64-bit counter the ring says yes exactly when the counter is above the last one, or is at most 2016 behind it and is not in the set of all counters ever accepted; no index leaves the ring and nothing overflows |
| AntiReplay.AntiReplay.Advance | src/anti_replay.rs:64-79 | clears the words of exactly the blocks that enter the ring, and keeps those of every block that stays in it |
| AntiReplay.AntiReplay.UpdateStore | src/anti_replay.rs:61-85 | storing a counter adds exactly that counter to the set of all accepted ones, whatever words the move of the window cleared |
| AntiReplay.AntiReplay.Update | src/anti_replay.rs:87-94 | succeeds exactly when the check does, and changes nothing otherwise |
| AntiReplay.MoveKeeps | src/anti_replay.rs:64-79 | after a move of the window the ring agrees with the set of accepted counters over the new window |
| AntiReplay.StoreKeeps | src/anti_replay.rs:81-84 | setting one bit makes the ring agree with the set that has one more counter, without touching any other counter of the window |
| AntiReplay.PassedOnce | src/anti_replay.rs:44-94 | of any sequence of counters, in any order and with any duplicates, none gets through twice and the accepted set grows by exactly those that got through |
| AntiReplay.FreshExactly | src/anti_replay.rs:44-58 | a counter is refused exactly when it was accepted before or a counter more than 2016 above it was |
| AntiReplay.AcceptShutsOut | src/anti_replay.rs:61-94 | accepting one counter makes another one, fresh until then, refused if and only if it is the same or the window moves past it |
| AntiReplay.PassFilter | src/peer.rs:347-352 | offering a counter to the filter that a session stores answers and changes it as the set of accepted counters says |
| Timestamps.BigEndianOrder | src/timestamp.rs:18-25 | big-endian encodings of one width compare byte by byte as the numbers do |
| Timestamps.Tai64nOrder | src/timestamp.rs:10-25 | the byte order of two TAI64N labels is the order of (seconds, nanoseconds) if and only if both second counts lie on the same side of the 64-bit wrap of the label |
| Timestamps.Tai64nWraps | src/timestamp.rs:18-25 | the last second before the wrap and the one after it compare the wrong way |
| IpPackets.Parse | src/ip_packet.rs:16-22 | a packet is read as IPv4 or IPv6 exactly by its first four bits and only if the fixed header is there |
| IpPackets.HeaderV4 | src/ip_packet.rs:24-44 | length and addresses of an IPv4 packet are the bytes 2 to 3, 12 to 15 and 16 to 19, most significant first |
| IpPackets.HeaderV6 | src/ip_packet.rs:24-44 | length and addresses of an IPv6 packet are those of the bytes 4 to 5, 8 to 23 and 24 to 39, byte by byte |
| IpPackets.PadExactly | src/peer.rs:395-401 | a padded packet is the packet and then zeros, up to the next multiple of sixteen |
| IpPackets.LengthExact | src/ip_packet.rs:38-44 | the 16-bit length is the one the header declares if and only if an IPv6 payload is at most 65495 bytes long, hence for every packet that may be sent |
| IpPackets.LengthWraps | src/ip_packet.rs:38-44 | an IPv6 header with 65496 bytes of payload has length 0, and what it heads is taken for a keepalive |
| IpPackets.UnpadPad | src/peer.rs:342-361 | padding and cutting back returns the packet if and only if it is a keepalive or its header declares its size |
| IpPackets.ParsePad | src/peer.rs:395-401 | padding changes neither addresses nor declared length |
| PeerObject.Peer.constructor | src/peer.rs:153-165 | a new peer has the given settings and no session, queue or timer state |
| PeerObject.Peer.FindSession | src/peer.rs:167-176 | the slot whose session has the index, next before current before past |
| PeerObject.Peer.GetMappedIndices | src/peer.rs:222-228 | exactly the indices of the sessions the peer holds |
| PeerObject.Peer.Wipe | src/peer.rs:131-137 | empties the three slots and returns exactly the indices they had |
| PeerObject.Peer.NeedsNewHandshake | src/peer.rs:187-211 | agrees with the specification in each of its branches, which `Traffic.DueExactly` spells out, and never asks a session that is not in transport mode for its nonce |
| PeerObject.Peer.ReadyForTransport | src/peer.rs:213-220 | a current session that is neither too old nor out of nonces |
| PeerObject.Peer.QueueEgress | src/peer.rs:178-185 | appends to a queue that is not full and resets the attempt counter; a full queue drops the packet and keeps the counter |
| PeerObject.Peer.InitiateNewSession | src/peer.rs:230-255 | fails without an endpoint or when Noise fails, leaving the peer as it was; otherwise the next slot holds the new session and the index that fell out is returned |
| PeerObject.Peer.CompleteIncomingHandshake | src/peer.rs:272-299 | fails on a timestamp that is not newer, leaving the peer as it was; otherwise pushes a transport session, remembers timestamp and address, and returns the index that fell out |
| PeerObject.Peer.ProcessIncomingHandshakeResponse | src/peer.rs:320-337 | promotes next to current and current to past; when the response cannot be read, the next session is already gone |
| PeerObject.Peer.HandleIncomingTransport | src/peer.rs:339-390 | refuses unknown, not ready, expired and replayed messages unchanged, by the ring that the session stores; records the counter before decryption; the first message on next promotes it and returns the index that fell out |
| PeerObject.Peer.Record | src/peer.rs:351-352 | the ring of the session lets a counter through exactly when it is not a replay, and remembers it |
| PeerObject.Peer.HandleOutgoingTransport | src/peer.rs:392-419 | sends under the next nonce of the current session, or fails without changing anything; `Origins.EveryMessageAddressed` says where the index and the address come from |
| PeerInvariants.PushOk | src/peer.rs:247-252 | pushing a session into next keeps the invariant of a peer |
| PeerInvariants.SendInitiationOk | src/interface/peer_server.rs:374-398 | an initiation sent after the minimum interval keeps the peer invariant, in particular the distance between initiations |
| PeerInvariants.CompleteIncomingOk | src/peer.rs:272-299 | accepting an initiation keeps the peer invariant, in particular the strict order of accepted timestamps |
| PeerInvariants.AcceptResponseOk | src/peer.rs:320-337 | accepting a response keeps the peer invariant: the new current session is in transport mode and born no later than the handshake completed |
| PeerInvariants.DropNextOk | src/peer.rs:320-323 | losing the next session keeps the peer invariant |
| PeerInvariants.IncomingOk | src/peer.rs:339-390 | every branch of receiving keeps the peer invariant, including the two that fail after the counter is recorded |
| PeerInvariants.OutgoingOk | src/peer.rs:392-419 | sending keeps the peer invariant: nonces of a session rise, every message that is not a keepalive carries a queued packet, and these leave in queue order |
| PeerInvariants.DrainOk | src/interface/peer_server.rs:264-272 | a drain loop that stops at the first error keeps the peer invariant, whichever of its messages fail |
| PeerInvariants.DrainAllOk | src/interface/peer_server.rs:304-311 | so does the drain loop that goes on after errors |
| PeerInvariants.WipeIsLate | src/interface/peer_server.rs:496-505 | once the wipe is due, the current session is neither ready nor able to send |
| Router.Added | src/router.rs:28-39 | after adding, the listed prefixes lead to the peer and every other prefix leads where it did |
| Router.Removed | src/router.rs:41-52 | after removing, the listed prefixes lead nowhere, whoever owned them, and every other prefix leads where it did |
| Router.LongestMatch | src/router.rs:59-64 | the route found covers the address, and no longer route of the table does; `Router.CoversExactly` says what covering is |
| Router.LongestMatchUnique | src/router.rs:59-64 | the longest covering route is the only one of its length |
| Router.CoversExactly | src/router.rs:59-64 | the route of a prefix covers an address if and only if both are of one family and agree when divided by two to the number of bits after the prefix |
| Router.SameRoute | src/router.rs:34-39 | two prefixes are one entry of the table if and only if they have the same length and begin with the same bits |
| Router.LookupExactly | src/router.rs:59-64 | an address is looked up to a peer if and only if a prefix that leads to this peer matches it and no longer prefix of the table does |
| Router.RoutedExactly | src/router.rs:66-81 | a packet is routed to, or comes from, a peer if and only if that peer owns its destination or source in that sense |
| PeerServer.State.constructor | src/interface/mod.rs:38-44 | the empty shared state |
| PeerServer.UnusedIndex | src/interface/peer_server.rs:137-144 | the first number drawn that is not in the index map |
| PeerServer.DrainQueue | src/interface/peer_server.rs:264-272 | refines the drain of the specification, message by message, up to the first failure |
| PeerServer.DrainAll | src/interface/peer_server.rs:304-311 | refines the drain that empties the queue first and goes on after failures |
| PeerServer.SendHandshakeInitTo | src/interface/peer_server.rs:374-398 | the shared objects afterwards are in the state of the specified step, and the result is its result |
| PeerServer.HandleIngressHandshakeInit | src/interface/peer_server.rs:188-230 | the shared objects afterwards are in the state of the specified step, for every way it can fail |
| PeerServer.HandleIngressHandshakeResp | src/interface/peer_server.rs:232-280 | the shared objects afterwards are in the state of the specified step, including a response that fails after it took the next session |
| PeerServer.HandleIngressTransport | src/interface/peer_server.rs:290-332 | the shared objects and the tunnel afterwards are in the state of the specified step |
| PeerServer.ValidateSource | src/router.rs:73-81 | a packet is accepted exactly when the owner of the longest prefix covering its source has the public key of the peer |
| PeerServer.HandleEgressPacket | src/interface/peer_server.rs:334-363 | the shared objects afterwards are in the state of the specified step |
| PeerServer.RekeyPeer | src/interface/peer_server.rs:403-440 | the rekey branches of the timer handler refine the specified step |
| PeerServer.PassiveKeepalivePeer | src/interface/peer_server.rs:441-474 | the passive keepalive branch refines the specified step |
| PeerServer.PersistentKeepalivePeer | src/interface/peer_server.rs:475-495 | the persistent keepalive branch refines the specified step |
| PeerServer.WipePeer | src/interface/peer_server.rs:496-508 | the wipe branch refines the specified step and unmaps exactly the indices of the peer |
| PeerServer.HandleTimer | src/interface/peer_server.rs:400-511 | a timer acts only while some map still holds the peer object, and then as specified |
| PeerServer.HandleNewKeepalive | src/interface/peer_server.rs:536-549 | a newly configured keepalive interval sends one keepalive |
| World.FirstUnused | src/interface/peer_server.rs:137-144 | a number found is one of those drawn and unused; none is found only if all were in use |
| WorldInvariants.PushRelinks | src/interface/peer_server.rs:384-392 | after a push the index map has the entries of the new sessions for this peer, no stale one that was not there before, and those of all others as before; inserting before or after unmapping makes no difference |
| WorldInvariants.PromoteRelinks | src/interface/peer_server.rs:299-302 | after a promotion, unmapping the dead index leaves the entries of all sessions and no new stale one |
| WorldInvariants.RelinkLinked | src/interface/peer_server.rs:219-224 | replacing the entries of one configured peer keeps every session of every peer mapped to its owner |
| StepInvariants.SendHandshakeInitLink | src/interface/peer_server.rs:374-398 | starting a handshake keeps the index map in agreement with the sessions |
| StepInvariants.OnInitiationOk | src/interface/peer_server.rs:188-230 | answering an initiation keeps all invariants |
| StepInvariants.OnResponseLink | src/interface/peer_server.rs:232-280 | a response for a configured peer keeps every session mapped; it leaves exactly one new stale index when it drops the next session, and none otherwise |
| StepInvariants.OnTransportLink | src/interface/peer_server.rs:290-332 | a transport message for a configured peer keeps the index map in agreement with the sessions, across promotion, drain and a new handshake |
| StepInvariants.OnEgressOk | src/interface/peer_server.rs:334-363 | sending a packet keeps all invariants |
| StepInvariants.OnTimerLink | src/interface/peer_server.rs:400-511 | a timer message for a configured peer keeps the index map in agreement with the sessions |
| StepInvariants.OnTimerBase | src/interface/peer_server.rs:400-511 | every timer message keeps the peer invariants and the configuration |
| StepInvariants.ForgetLink | src/interface/config.rs:231-236 | removing a peer unmaps no session of another one; afterwards every index leads to a configured peer if and only if each entry that led to the removed one was one of its sessions |
| StepInvariants.ForgottenIsFree | src/interface/config.rs:231-236 | a removed peer object is still held if and only if some entry led to it that is none of its sessions |
| StepInvariants.ChangePeerConfig | src/interface/config.rs:270-291 | reconfiguring a peer keeps routes, keys and limits consistent, with and without replacing its allowed IPs |
| StepInvariants.AddPeerConfig | src/interface/config.rs:291-309 | adding a peer keeps them consistent, also when it takes routes over from others |
| StepInvariants.HandleUpdateBase | src/interface/config.rs:238-324 | every update keeps the configuration consistent and every peer invariant |
| StepInvariants.HandleUpdateLink | src/interface/config.rs:238-324 | an update keeps the index map right if and only if it is not a removal that leaves a stale entry, and never makes an index stale |
| StepInvariants.HandleUpdateLinked | src/interface/config.rs:238-324 | no update unmaps a session of a configured peer |
| Runs.StepBase | src/interface/peer_server.rs:188-549 | every step of the system keeps the peer invariants and the consistency of the configuration, and histories only grow |
| Runs.StepLink | src/interface/peer_server.rs:188-549 | from a state in which every session is mapped and every index leads to a configured peer, exactly two kinds of step break that or make an index stale: the removal of a peer to which a stale index leads, and a response that drops the next session |
| Runs.RunBase | src/interface/peer_server.rs:188-549 | in every reachable state every step is defined: no nonce is asked of a session that has none, no index leads outside |
| Runs.EverySessionMapped | src/peer.rs:320-337 | in every run without a removal that leaves a stale entry, however many responses fail, each session of a configured peer is found under its own index, no two share one, and every held peer is configured |
| Runs.WithoutRemovalsNoneStale | src/interface/peer_server.rs:253-262 | runs without removals of single peers are of that kind |
| Runs.WithoutDropsNoneStale | src/interface/peer_server.rs:253-262 | so are runs in which no response drops a session, with any removals |
| Runs.IndexMapExact | src/interface/peer_server.rs:219-224 | in every run in which no response drops a session, with any removals, the index map is exactly the map from the indices of the sessions of configured peers to their owners |
| StaleIndex.RemovalCanUnmap | src/peer.rs:320-323 | a concrete run of a failed response and a removal whose last step, a response for the removed peer, unmaps a live session of another peer |
| SessionMap.StepMapped | src/interface/peer_server.rs:253-262 | for every step: one for a configured peer, or for none, never unmaps a session; one for a peer object that is no longer configured does so if and only if an index it takes out is in use by a configured peer |
| SessionMap.MappedExactly | src/interface/peer_server.rs:253-262 | for every run: all sessions of configured peers are found under their indices up to some state if and only if no step up to there is of that kind |
| SessionMap.UnlinksOwnIndices | src/peer.rs:222-228 | a step takes out only indices of sessions that its peer object holds, so an object without sessions never unmaps anything |
| Theorems.AtMostOnce | src/peer.rs:339-390 | a counter that once passed the replay check of a session is refused by it in every later state, in whatever slot it is |
| Theorems.NoncesIncrease | src/peer.rs:392-419 | in every state of every run all nonces of messages sent are below the limit, and those of one session strictly increase |
| Theorems.EgressInOrder | src/peer.rs:178-185 | in every state of every run the queue is bounded, and every message sent that is not a keepalive carries the padded bytes of a packet queued; these leave in queue order, each at most once |
| Theorems.InitiationsApart | src/interface/peer_server.rs:374-383 | any two initiations sent to one peer, by any handler, are the rekey timeout apart |
| Attempts.StepAdds | src/interface/peer_server.rs:374-421 | every step adds to the record of a peer exactly the initiation it hands to the socket and the retry it makes |
| Attempts.InitiatingStepsApart | src/interface/peer_server.rs:374-398 | any two steps of a run that send an initiation to one peer are the rekey timeout apart |
| Theorems.RetriesBounded | src/interface/peer_server.rs:400-421 | in any stretch of any run the rekey timer retries at most 17 times, less the attempts already made, and 17 times more for each packet queued in it |
| Attempts.RetryingStepsBounded | src/interface/peer_server.rs:400-421 | the same bound on the number of steps of the stretch that retry |
| RetryRun.RetriesReached | src/interface/peer_server.rs:400-421 | a run of 34 retries with one packet queued in between: the bound is reached |
| Theorems.NoInitiationTwice | src/peer.rs:275-294 | a timestamp accepted in some state, or an older one, is refused in every later state |
| Theorems.WipeKeepsUsable | src/interface/peer_server.rs:496-505 | in every reachable state a wipe does nothing while the current session is ready or can send |
| Theorems.WipeDropsExactly | src/interface/peer_server.rs:496-508 | a wipe throws away a session that could still take messages if and only if it is due and the past or next session is such a one; the current one never is |
| WipeRun.WipeDropsNext | src/interface/peer_server.rs:496-508 | a run in which a wipe throws away a next session made at that very moment |
| Theorems.ConfigurationConsistent | src/interface/config.rs:238-324 | in every reachable state: each route leads to a configured peer that lists it, each key is that of its peer, the own key is no peer, and the number of peers is bounded |
| Theorems.DeliveriesAreRouted | src/interface/peer_server.rs:290-332 | each packet handed to the tunnel was decrypted by the peer its index led to, and the longest allowed-IP prefix that begins with the same bits as its source is listed by a configured peer with the same public key |
| Theorems.DeliveredByOwner | src/router.rs:73-81 | unless a removal left a stale index, the peer object that decrypted the packet is itself the owner of the longest prefix |
| Arrivals.TransportAchieves | src/interface/peer_server.rs:290-332 | at every step of every run: exactly when a transport message is delivered and as what, and exactly when it makes the peer send an initiation, in terms of receipts, ages, attempts, nonces and prefixes |
| Arrivals.AdmitsExactly | src/peer.rs:342-352 | a session takes a counter if and only if it is in transport mode, less than 180 seconds old, and neither this counter nor one more than 2016 above it was received |
| Arrivals.ProceedExactly | src/interface/peer_server.rs:315-331 | a handshake is started if one is due, and the packet is delivered unless that fails or its source belongs to another key |
| Traffic.EgressQueues | src/interface/peer_server.rs:334-363 | at every step of every run: a packet from the tunnel is queued for the peer that owns its destination, if there is room, and for no other; if the session is ready and nothing stands in the way the whole queue is sent in order, each packet under the next nonce; if it is not ready nothing is |
| Traffic.EgressOwner | src/router.rs:66-71 | the peer that a packet is queued for is configured and lists the longest prefix that begins with the same bits as its destination |
| Traffic.EgressInitiates | src/interface/peer_server.rs:340-362 | at every step of every run a packet from the tunnel makes the peer send an initiation if and only if it is for this peer, no send fails, one can be started, and one is due: 17 attempts at a pending one, or no session, or the last one completed more than 120 seconds ago, or the nonces used up |
| Traffic.DueExactly | src/peer.rs:187-211 | when a handshake is due on sending and on receiving, by attempts, session, age (120 and 165 seconds) and nonces |
| Traffic.DrainExactly | src/interface/peer_server.rs:264-272 | draining succeeds if and only if there are an address, a socket and nonces for all packets and no write fails; then all are sent, in order |
| Origins.EveryMessageAddressed | src/peer.rs:392-419 | every message ever sent in any run was sent to the address of the last authentic message from the peer or the one configured since, under the index that the last initiation or response to make its session ready gave, and less than 180 seconds after that |
| Origins.OriginsKnown | src/peer.rs:272-390 | in every state of every run the address of a peer and the index and age of each session that is ready are those |
| Origins.StepMoves | src/interface/peer_server.rs:188-549 | how every step moves the address, the sessions and the messages sent of every peer |
| Origins.InitiationAccepted | src/interface/peer_server.rs:188-230 | at every step of every run an initiation has an effect on a peer if and only if it is admitted, names it, is newer than all before, and can be answered; then there is a new session that is ready, under an unused index |
| Origins.StartPushes | src/interface/peer_server.rs:374-398 | starting a handshake puts a session that is not ready into next, under an unused index, and moves what was there to past |
| Clocks.TimersExact | src/peer.rs:58-67 | at every step of every run: which timer values of a peer are set, to the time of the step, and by what: data sent or received, authentic messages, completed handshakes, the keepalive flag and the attempt counter |
| Keepalives.KeepalivesExact | src/interface/peer_server.rs:441-495 | at every step of every run a timer, or a new keepalive interval, sends exactly one empty message if a keepalive is due and the session can send, and nothing otherwise |
| Keepalives.ResponseConfirms | src/interface/peer_server.rs:253-279 | a response that is accepted makes next current, and sends the waiting packets on it or, if there are none, one keepalive |
| Keepalives.FirstMessageFlushes | src/interface/peer_server.rs:299-311 | the first message on a session sends the waiting packets on it, and none waits any longer |
| Theorems.SomeIndexUnused | src/interface/peer_server.rs:137-144 | in every run without a removal that leaves a stale entry, at most three indices for each peer and one for each dropped session are taken; while these are fewer than 2^32 a free one exists, so the search can end |
| Theorems.StaleBounded | src/peer.rs:320-323 | there are never more stale indices than next sessions dropped so far |
| Replays.ReplayRefused | src/peer.rs:339-352 | of two messages of a run that reach one session with the same counter at most one passes the replay check, and the other changes nothing |
| Receipts.StepRecords | src/peer.rs:347-352 | every step of the system adds to the receipts of a peer exactly the counter that passed a replay check in it |
| Receipts.ReceiptsAreMessages | src/peer.rs:347-352 | the receipts of a peer are exactly the messages of the run that passed a replay check |
| Receipts.RefusedExactly | src/peer.rs:339-352 | a message that a session would take is refused if and only if an earlier message of the run, genuine or not, passed its replay check with the same counter or one more than 2016 above |
| Receipts.ForgedShutsOut | src/peer.rs:351-356 | a message that cannot be decrypted shuts out exactly the later messages with its counter or one more than 2016 below it |
| ForgedRun.ForgedShutsOutGenuine | src/peer.rs:351-356 | a run in which such a message shuts out a genuine one that would have passed before |
| Replays.InitiationReplayIgnored | src/peer.rs:275-294 | an initiation no newer than one that had an effect before has no effect |
| Configuration.AddAllowedIps | src/router.rs:28-39 | refines the addition of routes of the specification |
| Configuration.RemoveAllowedIps | src/router.rs:41-52 | refines the removal of routes of the specification |
| Configuration.Forget | src/interface/config.rs:231-236 | removes the key, the mapped indices and the listed routes of the peer |
| Configuration.Change | src/interface/config.rs:270-291 | merges the settings and moves the routes as the specification does, which `Updates.SettingsUpdated` and `Updates.RoutesUpdated` spell out, and tells of a new keepalive interval exactly when there is one |
| Configuration.AddNew | src/interface/config.rs:291-309 | makes a new peer object and links it |
| Configuration.HandleUpdateEvent | src/interface/config.rs:238-324 | state and result of every update are those of the specification, including unknown peers, the own key and a full device |
| Updates.SettingsUpdated | src/interface/config.rs:270-291 | an update of a configured peer sets exactly the settings it gives, adds or replaces its allowed IPs, and changes no other peer |
| Updates.RoutesUpdated | src/interface/config.rs:270-291 | afterwards the prefixes given, and the old ones unless replaced, lead to that peer, replaced ones lead nowhere, and all others lead where they did |
| Updates.PeerAdded | src/interface/config.rs:291-309 | an update for an unknown key adds a peer with the given settings, except for the own key and on a full device |
| Updates.RoutesAdded | src/interface/config.rs:291-309 | then the prefixes given lead to it and all others where they did |
| Updates.PeerRemoved | src/interface/config.rs:311-322 | removing a peer removes its key, its indices and the prefixes it lists, and nothing else |
| Updates.InterfaceUpdated | src/interface/config.rs:240-268 | keys, port and mark of the interface are exactly those given |
| Dispatch.HandleArrival | src/interface/peer_server.rs:562-625 | handling any message, timer, update or clock tick takes the shared objects from a state of a run to the next state of a run |
| Dispatch.Start | src/interface/peer_server.rs:70-85 | a new server is in the first state of every run |
| ConfigParser.DecodesAll | src/interface/config.rs:62-89 | a list of pairs is refused exactly when some value is malformed |
| ConfigParser.ParsePairs | src/interface/config.rs:55-101 | the one-pass loop with its pending-peer variables yields the events described by groups of pairs: in order, one for each public key with exactly its attributes, and the interface settings |
| ConfigParser.ParsedByKind | src/interface/config.rs:55-101 | the same for any way to decode the values |
| ConfigParser.EventsByKind | src/interface/config.rs:55-101 | the same for lists that are already decoded |
| ConfigParser.LeadingAttributesIgnored | src/interface/config.rs:55-101 | attributes before the first public key have no effect on any event |
| ConfigParser.InterfaceKeys | src/interface/config.rs:64-67 | which keys set which settings of the interface, and that malformed values are errors |
| ConfigParser.RemoveKey | src/interface/config.rs:72-80 | a public key and remove is the removal of that peer |
| ConfigParser.ReplaceKey | src/interface/config.rs:71-83 | a public key and replace_allowed_ips is an update that replaces |
| ConfigParser.PresharedKeyKey | src/interface/config.rs:68 | which key sets the preshared key |
| ConfigParser.KeepaliveKey | src/interface/config.rs:69 | which key sets the keepalive interval |
| ConfigParser.EndpointKey | src/interface/config.rs:70 | which key sets the endpoint |
| ConfigParser.AllowedIpKey | src/interface/config.rs:84-87 | which key adds an allowed IP |
| RateLimiter.RateLimiter.CheckAllowed | src/ratelimiter.rs:61-79 | refines one step of the token bucket |
| RateLimiter.RateLimiter.HandleGc | src/ratelimiter.rs:81-83 | keeps exactly the entries that were used within the collection interval |
| RateLimiter.AllowExactly | src/ratelimiter.rs:61-79 | a packet passes if and only if its address is new or its credit with the fraction of a second that passed is more than the cost; what is left is capped at a full bucket |
| RateLimiter.CollectExactly | src/ratelimiter.rs:81-83 | an entry is kept if and only if it was used within the last second |
| RateLimiter.CollectedIsFull | src/ratelimiter.rs:81-83 | the ideal bucket of a collected address was full |
| RateLimiter.RateBound | src/ratelimiter.rs:18-21 | in any stretch of any history of packets and collections, the packets of one address that pass cost at most a full bucket plus the time the stretch took |
| RateLimiter.RefillExact | src/ratelimiter.rs:62-68 | the credit is that of the ideal bucket if and only if less than a second passed or the fraction of a second fills the bucket |
| RateLimiter.Starved | src/ratelimiter.rs:61-79 | after four packets at one instant an address that sends at whole seconds never gets through again while its entry is not collected |
| XChaCha20Poly1305.RotateInverse | src/xchacha20poly1305.rs:35-129 | rotating back undoes a rotation |
| XChaCha20Poly1305.XorBitExactly | src/xchacha20poly1305.rs:35-129 | a bit of an exclusive or is set if and only if the bits of its operands differ |
| XChaCha20Poly1305.QuarterRoundExample | src/xchacha20poly1305.rs:34-45 | the test vector of section 2.1.1 of RFC 8439 |
| XChaCha20Poly1305.WordsXor | src/xchacha20poly1305.rs:35-129 | the exclusive or of the words used here satisfies what the test vector asks of one |
| XChaCha20Poly1305.DoubleRoundIndices | src/xchacha20poly1305.rs:34-130 | the eight quarter rounds act on the words that section 2.3 of RFC 8439 names, in its order |
| XChaCha20Poly1305.SetupBytes | src/xchacha20poly1305.rs:14-30 | the sixteen words before the rounds are the constant, the key and the nonce, four little-endian bytes each |
| XChaCha20Poly1305.OutputBytes | src/xchacha20poly1305.rs:133-140 | the bytes given out are the words 0 to 3 and 12 to 15 |
| XChaCha20Poly1305.QuarterRoundInverse | src/xchacha20poly1305.rs:35-129 | the quarter round has a two-sided inverse |
| XChaCha20Poly1305.PermutationInverse | src/xchacha20poly1305.rs:33-130 | any number of double rounds of column and diagonal quarter rounds has a two-sided inverse |
| XChaCha20Poly1305.UnrolledDoubleRound | src/xchacha20poly1305.rs:34-130 | the unrolled body equals four column and four diagonal quarter rounds |
| XChaCha20Poly1305.UnrolledRounds | src/xchacha20poly1305.rs:32-130 | the loop equals that many double rounds |
| XChaCha20Poly1305.Hchacha20 | src/xchacha20poly1305.rs:13-141 | the output buffer holds the first and last row after ten double rounds on the state set up from key and nonce |
| XChaCha20Poly1305.DecryptEncrypt | src/xchacha20poly1305.rs:143-170 | decryption returns the input for the same associated data, and fails for any other of 16 bytes if the cipher rejects those |
| XChaCha20Poly1305.LawfulExists | src/xchacha20poly1305.rs:143-170 | the laws asked of the cipher can be kept |
| Messages.LeRoundTrip | src/message.rs:39-41 | little-endian fields are read as they were written |
| Messages.Parse | src/message.rs:24-36 | a datagram is read as a kind exactly when its first byte and its length say so, is refused otherwise, and makes the program panic exactly when it is empty |
| Messages.InitiationFields | src/peer.rs:234-246 | a built initiation is read back field by field, except that the reader takes sixteen bytes of the Noise message for mac1 |
| Messages.ResponseFields | src/peer.rs:301-314 | a built response is read back field by field, and the MACs lie where they are checked |
| Messages.CookieReplyFields | src/message.rs:100-139 | a built cookie reply is read back field by field |
| Messages.TransportFields | src/message.rs:150-166 | a built transport message is read back field by field |
| Messages.TunnelRoundTrip | src/peer.rs:342-361 | pad, encrypt, frame, parse, decrypt and cut returns the packet if and only if it is a keepalive or declares its size |
| Messages.WellFormedRoundTrip | src/peer.rs:392-418 | hence every well-formed packet of at most the maximal content size comes out as it went in |
| Messages.CipherExists | src/peer.rs:392-418 | the law asked of the cipher of a session can be kept |
| Cookie.Validator.constructor | src/cookie.rs:43-55 | the keys are derived from the public key, and there is no secret yet |
| Cookie.Validator.GenerateReply | src/cookie.rs:84-108 | replaces a secret that is too old, and encrypts the cookie of the source under mac1 |
| Cookie.Generator.constructor | src/cookie.rs:112-125 | the keys are those of the validator for the same public key |
| Cookie.Generator.ConsumeReply | src/cookie.rs:127-139 | stores the cookie if the reply opens under the last mac1, and changes nothing otherwise |
| Cookie.Generator.BuildMacs | src/cookie.rs:141-152 | mac2 is present exactly while the cookie is fresh, and mac1 is remembered |
| Cookie.Mac1Accepted | src/cookie.rs:57-63 | a mac1 is accepted by the validator for a key if and only if it is the one built for that key and message |
| Cookie.SoundExists | src/cookie.rs:43-55 | all that is asked of hash and cipher can be had at once |
| Cookie.ResponseMac1 | src/message.rs:78-84 | the mac1 that the receiver reads in a response is the one its sender remembers |
| Cookie.SecretStays | src/cookie.rs:84-92 | no answer replaces a secret that is still fresh |
| Cookie.SecretAfterAnswer | src/cookie.rs:84-92 | after an answer the secret is fresh: a new one exactly when there was none or it was more than 120 seconds old |
| Cookie.Mac2Built | src/cookie.rs:141-152 | a mac2 is built exactly when a cookie was received at most 120 seconds ago |
| Cookie.ReplyConsumed | src/cookie.rs:127-139 | a reply for a mac1 is consumed when that is the last mac1 built, and gives the cookie of the source; if the cipher rejects other associated data, it is consumed only then |
| Cookie.Mac2Accepted | src/cookie.rs:65-82 | the mac2 of a response built with the cookie of a source passes if and only if the secret is fresh; `Cookie.OtherMac2Refused` and `Cookie.OtherSourceRefused` are the refusals |
| Cookie.OtherMac2Refused | src/cookie.rs:65-82 | any sixteen bytes in the place of mac2 pass if and only if they are the mac2 built and the secret is fresh |
| Cookie.OtherSourceRefused | src/cookie.rs:65-82 | the same response from another source passes if and only if the secret is fresh and the hashes under the cookies of both sources coincide |
| Cookie.CookieExchange | src/cookie.rs:65-153 | the whole exchange over responses: the first one built and read, the reply to the mac1 read there consumed, further messages and answers on both sides, and the mac2 of the next one passes for the same source while the secret is fresh |
| Cookie.InitiationReplyConsumed | src/message.rs:47-49 | over an initiation, if the cipher rejects other associated data, the reply is consumed if and only if sixteen bytes inside the Noise message happen to equal mac1 |
| Cookie.InitiationReplyRefused | src/message.rs:47-49 | an initiation whose reply is refused |

## Left out

- Sockets, UDP, signals, the grim reaper, futures, channels and logging: a handler is one step at one instant, and its messages arrive in any order.
- Text-level configuration (`ConfigurationCodec`, hexadecimal keys, addresses, `to_config_string`): decoding of values is a parameter of the parser.
- Noise, Blake2s, ChaCha20-Poly1305 and X25519: abstract. Opening inverts sealing; hashes of up to 32 bytes have their length; a successful write advances the nonce by one; the remaining behaviour is arbitrary. Only where a refusal is claimed (`Cookie.ReplyConsumed`, `Cookie.InitiationReplyConsumed`) the cipher is also asked to reject other associated data of 16 bytes, which a real cipher does but for a negligible chance. `Cookie.SoundExists` and `Messages.CipherExists` show that this can be had.
- Timer delays and cancellation: any timer message may arrive at any time at which the weak reference to its peer can be upgraded, and a configured keepalive may be announced for any peer, so runs of the model include all runs of the timer wheel.
- The checks of MAC, cookie and rate in front of the handshake handlers are one flag of the message there; they are modelled on their own in `Cookie` and `RateLimiter`.
- A response read on a next session that is already in transport mode may succeed in the model; the program's Noise library decides that.
- The panic on an empty datagram ends the program; runs of the model have no such datagram, and what they say holds up to it.
- `treebitmap` is a map searched by longest match; a prefix longer than an address covers nothing.
- Masks and shifts of 32-bit words are written with division and remainder, and the loop of HChaCha20 counts double rounds instead of rounds.
- Byte counters, firewall marks, rebinding of sockets, and load measurement: no property here turns on them.
- Liveness (that a handshake completes, that a queued packet is sent) is not promised by the program and not stated.
- Histories of a peer (messages sent and received, packets queued, initiations, timestamps, retries) and session numbers are kept by the model to state the theorems; no handler looks at them, and in the objects they are ghost. A message sent is recorded as it is given out for the socket, whether or not the socket then takes it.
- PeerServer.UnusedIndex: for the numbers that the generator will draw; it gives none when all of them are taken, where the program would go on drawing. `Theorems.SomeIndexUnused` says when a free one exists.
- Cookie.CookieExchange: for handshake responses; for initiations see `Cookie.InitiationReplyConsumed`.
