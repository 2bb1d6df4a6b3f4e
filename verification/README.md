# Weyvelength, verified

A Dafny model of Weyvelength: a lobby server that keeps rooms of connected
clients, a polled client that mirrors its room from server events and builds a
peer-to-peer mesh with the other members, and the fragment stream between them.

The server handles one event at a time on a single thread, so it is a state
machine over accept, session start, receive and disconnect. The client never
applies its own writes: it folds what the server sends into a cache. The central
result is that this always works. Whatever clients send, however steps are
interleaved and however long messages wait, what a client has not yet seen turns
its cache into the server's room (`System.Convergence`); and the same holds
through codec, framing, write queue, socket chunks and reassembly
(`EndToEnd.ArrivedWhole`).

| file | contents |
|---|---|
| `Protocol`, `Seqs` | messages, limits, sequence facts |
| `Rooms`, `Replica`, `Replication` | server steps, the client cache, and why each step keeps both in agreement |
| `Outcomes`, `Laws`, `History` | what each request achieves and who hears of it, who may change what, properties of whole server runs |
| `Mesh`, `MeshRuns`, `MeshTrace`, `Glare` | the peer-to-peer state machine, what its runs keep, what they amount to, two clients dialing each other |
| `System`, `ClientRuns` | one server, any clients, their streams; each client's mesh as a run of its own |
| `Codec`, `Framing`, `Readers`, `Sizes`, `Outbound` | the wire, from message to bytes and back |
| `EndToEnd` | all layers composed |
| `ServerImpl`, `ClientImpl` | the server and client objects, updated in place, each method proved against the step it implements |

`dafny verify dfyconfig.toml` checks everything.

## Assumptions

- Connection ids do not wrap: `Accept` needs an id left in the 32-bit counter.
- A new room's code is any unused string of the configured length; length 0 means 8, so codes are never empty.
- A `Client` object lives for one connection, and nothing is claimed for bytes read in the same poll as end-of-file.
- libjuice is opaque. Its answers are inputs, its events arbitrary, and an agent handle is the number of agents created before it, so handles are never reused. A payload is recorded as handed over; where `c_str()` would stop at a zero byte is libjuice's reading of it.
- Integers are little-endian, as `zpp_bits` writes them on the supported hosts. The decoder takes any byte for an enum and any non-zero byte for true, ignores bytes after the message, and a length beyond the input fails. It resizes the container to that length first (`Shared/thirdparty/zpp_bits/zpp_bits.h:2821-2834`), so a huge count can throw before it fails: the server's Session catches that and ends, the client's Poll lets it through. `Readers.ReadersAgree` and the client object take the resize to succeed.
- `std::map` iterates in ascending key order.
- The description exchange of `Glare` is between two members whose signals to each other arrive in order (`History.RelayIsFifo`). It excludes teardown of the pair's own links and unanswerable dials; `Glare.GlareExact` shows that exactly these break it.
- Size results need a bounded configuration (`Sizes.ConfigFits`); `Sizes.CodeBoundIsTight` shows the bound on the code length is the right one.

## Model

| member | source | states |
|---|---|---|
| `System.Convergence` | Client/src/client.cpp:295-352 | In every run of server, clients and streams, for every live client, folding its undelivered messages into its cache gives exactly the server's view: id, room, host, flags, data, member data, and itself followed by the other members. |
| `System.DrainedClientAgrees` | Client/src/client.cpp:295-364 | A client with nothing undelivered equals its room field by field; its member list is itself, then the room's list without it. |
| `System.StreamShape` | Client/src/client.cpp:228-273 | Every queue position fits the cache its prefix leaves: AssignRoomId only on a cleared cache, joins name strangers, departures, hosts, data, chat and signals name members, a signal never names the receiver, and every change of host or data changes something (RoomAccessChanged may repeat what the cache holds, as on a join to an open room). |
| `System.MeshSpansRoom` | Client/src/p2p_mesh.cpp:190-216 | In every run every key of `links` and `attempts` is another member of the cached room, although descriptions are handled without looking at the member list. |
| `System.IndexAgreement` | Server/include/weyvelength_server.h:29-54 | In every reachable state a connection names a room iff that room lists it; members are distinct and non-empty, the host is one of them, bans and members are disjoint, data belongs to members, and every size limit holds. |
| `System.RunKeeps` | Server/src/weyvelength_server.cpp:80-112 | The joint invariant of server, streams, caches and meshes holds after every sequence of actions. |
| `System.DispatchKeeps` | Client/src/client.cpp:257-268 | Handling one fitting message keeps cache and mesh well formed and the mesh within the room. |
| `Replication.StepGood` | Server/src/weyvelength_server.cpp:170-212 | Every server step keeps the two indexes in agreement and queues to each connection a well-formed stream from its old view to its new one. |
| `Replication.WelcomeHydrates` | Server/src/weyvelength_server.cpp:280-301 | The events replayed to a joiner turn an empty cache into the room as the joiner sees it, whatever the room's members, data and member data. |
| `Replication.DepartureLeads` | Server/src/weyvelength_server.cpp:540-551 | PeerLeft, with HostChanged after a host's exit, takes a remaining member's view of the old room to that of the new one. |
| `Replication.SetMemberDataOutcome` | Server/src/weyvelength_server.cpp:412-435 | The server's nested update, with its dropped empty maps, is the update the clients replay. |
| `Replication.BanIsMarkedRemoval` | Server/src/weyvelength_server.cpp:468-472 | A ban queues what a kick would and differs only in the mark it leaves on the surviving room. |
| `Replication.JoinGood` | Server/src/weyvelength_server.cpp:251-307 | A join keeps the indexes and brings joiner and members alike to their new views. |
| `Replication.DisconnectGood` | Server/src/weyvelength_server.cpp:102-109 | The end of a session keeps the indexes and every other replica. |
| `Replica.FitsAt` | Client/src/client.cpp:295-352 | In a well-formed stream the message at each position fits the cache folded from those before it. |
| `Replica.ApplyKeepsCacheOk` | Client/src/client.cpp:295-364 | A fitting message keeps the cache well formed: cleared outside a room, else itself first, members distinct, data only of members. |
| `Outcomes.InRoomVerdict` | Server/src/weyvelength_server.cpp:364-530 | Eight in-room requests: refused iff the sender is not entitled, then with no effect but one error, the first check that fails, quoting the right thing; otherwise the room becomes exactly what was asked for, and every connection is queued exactly its notice: a kicked member KickedByHost, a banned one BannedByHost, the others PeerLeft, and nobody anything if nothing changed. |
| `Outcomes.HeardExactly` | Server/src/weyvelength_server.cpp:171-212 | Every step queues for every connection exactly the messages it should hear, in order: greeting, replies, errors, welcome, relays, announcements and farewells. |
| `Outcomes.DigitsDenote` | Server/src/weyvelength_server.cpp:446-446 | The id quoted in a NoSuchMember error is, read as a decimal number, the id that was asked for. |
| `Outcomes.Sessions` | Server/src/weyvelength_server.cpp:75-112 | Accepting adds the next id, disconnecting removes one, a session's start marks it started, and no other step changes who is connected. |
| `Outcomes.DataAscends` | Server/src/weyvelength_server.cpp:293-295 | A joiner is told the room's data in ascending key order. |
| `Outcomes.MembersAscend` | Server/src/weyvelength_server.cpp:297-301 | A joiner is told member data in ascending order of member, then of key. |
| `Outcomes.Admission` | Server/src/weyvelength_server.cpp:251-307 | A join is refused iff the sender is in a room, or the room does not exist, has banned it, is closed or has another password, and then for the first of these that applies, without effect; otherwise the joiner is appended and its folded cache is the room. |
| `Outcomes.Creation` | Server/src/weyvelength_server.cpp:232-249 | Creating succeeds iff the sender is in no room; then it alone is member and host and its folded cache says so. |
| `Outcomes.Leaving` | Server/src/weyvelength_server.cpp:309-318 | A leave is refused outside a room, else confirmed to the leaver by its own id only. |
| `Outcomes.Departure` | Server/src/weyvelength_server.cpp:532-556 | The room closes iff the leaver was alone in it; otherwise it loses exactly that member and its data, and the head of the remaining list hosts if the host left. |
| `Outcomes.EvictableIsMember` | Server/src/weyvelength_server.cpp:444-448 | The check made through the connection table is the check against the member list, by index agreement. |
| `Laws.StepLawful` | Server/src/weyvelength_server.cpp:216-230 | Every step touches one room: membership, host, settings, bans and member data change only by the sender's right, rooms appear and vanish only with their sole member, and messages go only to the sender and that room. |
| `Laws.Isolation` | Server/src/weyvelength_server.cpp:170-212 | A step leaves every other room and every outsider's queue untouched. |
| `History.ChatIsLogSuffix` | Server/src/weyvelength_server.cpp:320-330 | In every run the chat queued to a member since it joined is the room's log from its join point on, its own lines included. |
| `History.ChatTotalOrder` | Server/src/weyvelength_server.cpp:328-329 | Two members have seen the same chat sequence over their common stay. |
| `History.MembersInJoinOrder` | Server/src/weyvelength_server.cpp:303-304 | The member list is in order of joining in every run. |
| `History.HostSuccession` | Server/src/weyvelength_server.cpp:547-552 | When the host goes, the successor has been in the room longer than every other remaining member. |
| `History.EvictionKeepsRoom` | Server/src/weyvelength_server.cpp:438-475 | A kick or ban never removes the room it acts on, nor changes its host. |
| `History.BanPermanence` | Server/src/weyvelength_server.cpp:265-268 | Over a room's lifetime the ban list only grows, and nobody once on it is a member later. |
| `History.SettingsNeedHost` | Server/src/weyvelength_server.cpp:216-230 | In a run where no current host of the room speaks, data, access settings and bans stay as they are. |
| `History.HostChangesIff` | Server/src/weyvelength_server.cpp:477-495 | In a room that survives a step, the host changes iff that host hands over to another member, leaves or disconnects. |
| `History.HostNeedsCause` | Server/src/weyvelength_server.cpp:477-495 | Over whole runs a host that does none of these stays host, whatever else it or anyone does. |
| `History.NoticesAreTrue` | Server/src/weyvelength_server.cpp:450-472 | In every step a client is told BannedByHost iff the step puts it on a ban list, and KickedByHost iff its host's kick removes it, and then nothing else. |
| `History.GreetedFirst` | Server/src/weyvelength_server.cpp:93-94 | In every run everything queued to a started connection begins with its id and the configured ICE servers, neither is ever sent again, and before its start it is sent nothing. |
| `History.CodesAreSized` | Server/src/weyvelength_server.cpp:41-42 | In every run a room's code has the configured length, 8 if none is configured. |
| `History.IdsCountUp` | Server/src/weyvelength_server.cpp:80-82 | In every run ids are handed out one by one from 1. |
| `History.RelayIsFifo` | Server/src/weyvelength_server.cpp:344-362 | While two clients share a room, the signals of one queued to the other are exactly those addressed to it, unchanged and in order. |
| `Mesh.RunDisciplined` | Client/src/p2p_mesh.cpp:96-216 | Over every run no agent is created twice, described twice, used after its destruction or leaked; an agent lives exactly while one link stands on it. |
| `Mesh.DeadAgentsAreMute` | Client/src/p2p_mesh.cpp:232-236 | An event queued by an agent that is not alive changes nothing at all. |
| `MeshRuns.OneRemotePerAgent` | Client/src/p2p_mesh.cpp:196-212 | Every agent receives at most one remote description in every run. |
| `MeshRuns.RetryBudget` | Client/src/p2p_mesh.cpp:96-131 | The attempt counter always equals the agents created for the peer since its last reset, and never exceeds 3. |
| `MeshRuns.BudgetBoundsAgents` | Client/src/p2p_mesh.cpp:98-99 | Over a stretch without a reset, the agents created are bounded by what is left of the budget. |
| `MeshRuns.SpentBudgetRefuses` | Client/src/p2p_mesh.cpp:54-63 | Once the budget is spent, in every continuation without a reset no agent is created for the peer, and every send to it without a link fails and changes nothing. |
| `MeshRuns.DatagramOrder` | Client/src/p2p_mesh.cpp:65-70 | On every agent, what was handed to juice_send followed by the outbox is what was accepted, once and in order; a connected link has an empty outbox. |
| `MeshTrace.InboxIsReceived` | Client/src/p2p_mesh.cpp:248-249 | In every run the datagram inbox is what current agents received, with its sender, in order, and nothing else. |
| `MeshTrace.SignalsAreSaid` | Client/src/p2p_mesh.cpp:134-142 | In every run the signals sent are, in order, one description per dial or answer, each local candidate of a current agent, and one GATHERING_DONE for each that finished. |
| `MeshTrace.LinkedIffStands` | Client/src/p2p_mesh.cpp:152-169 | In every run a link exists iff a dial or an answer made it and no failure, departure or clearing has ended it since. |
| `MeshTrace.ConnectedIffUp` | Client/src/p2p_mesh.cpp:254-265 | In every run a link is connected iff the last connection state its own agent reported was CONNECTED or COMPLETED rather than DISCONNECTED. |
| `MeshTrace.UpHandsOver` | Client/src/p2p_mesh.cpp:144-150 | While an agent is up, everything accepted for it has been handed to juice_send. |
| `MeshTrace.FlushedOnConnect` | Client/src/p2p_mesh.cpp:257-262 | The moment a link comes up, everything accepted for it so far has been handed over, in order. |
| `MeshTrace.SendsGoOut` | Client/src/p2p_mesh.cpp:65-70 | A valid send on a standing link is handed over in the same step if its agent is up, and waits at the end of the outbox otherwise. |
| `MeshTrace.SendReports` | Client/src/p2p_mesh.cpp:46-71 | SendP2P reports success iff the payload is valid, the target a peer with a link, and the message queued or taken by libjuice. |
| `MeshTrace.SignalsPassedOn` | Client/src/p2p_mesh.cpp:171-216 | In every run each description, candidate and end-of-candidates of a peer reaches the agent of its link, a fresh one for a redial, and nothing else does. |
| `MeshTrace.GatheredOnce` | Client/src/p2p_mesh.cpp:140-141 | In every run an agent is told to gather exactly as often as its description was signalled, at most once. |
| `MeshTrace.AnswererIsControlled` | Client/src/p2p_mesh.cpp:209-215 | In every run an answering agent gets the remote description before it gathers, a dialing one gathers first, whatever follows. |
| `ClientRuns.MeshIsExec` | Client/src/client.cpp:228-273 | In every run of the whole system a client's mesh is what its own messages, sends and events make of a new mesh. |
| `ClientRuns.EveryClientKeeps` | Client/src/p2p_mesh.cpp:96-272 | So every client of every system run uses its agents as libjuice asks, keeps the retry budget exact and within 3, hands datagrams over in order, and its links, flags, inbox, signals and calls are those its steps account for. |
| `ClientRuns.NothingLostOnTheWay` | Client/src/client.cpp:253-268 | In every system run a client's mesh has handled exactly the signals delivered and the events reported to it, in order, and its cache is everything delivered to it, folded. |
| `Glare.GlareConsistent` | Client/src/p2p_mesh.cpp:190-216 | From any two meshes with no link between them and nothing in flight, whatever they did before and do with other peers meanwhile, in every run without a teardown: since the start one description per side iff it has a link, in flight iff the peer has not applied it, and an applied one is that of the sender's present agent. |
| `Glare.GlareExact` | Client/src/p2p_mesh.cpp:54-63 | After any such run the next step keeps those promises to both sides iff it neither tears down a link of the pair (failure, departure, clearing, a dial withdrawn after its description went out) nor leaves a dial unanswered. |
| `Glare.SignalsLand` | Client/src/p2p_mesh.cpp:171-188 | In every such run an arriving candidate or gathering-done signal finds an agent whose remote description is already set, and is handed to that agent. |
| `Codec.RoundTrip` | Shared/thirdparty/zpp_bits/zpp_bits.h:2342-2367 | Decoding an encoded message with any bytes behind it returns the message and stops right behind it, for all 25 alternatives, the nested TURN list included. |
| `Codec.RoundTripExactly` | Shared/thirdparty/zpp_bits/zpp_bits.h:2229-2298 | The round trip holds iff every length survives the encoder's cast to 32 bits. |
| `Codec.DecodedSize` | Shared/thirdparty/zpp_bits/zpp_bits.h:2790-2914 | Whatever decodes is representable, and re-encodes to as many bytes as were consumed. |
| `Codec.WireLayout` | Shared/protocol.h:112-115 | All 25 messages byte by byte: the index in the variant, then the members in declaration order. |
| `Codec.TurnLayout` | Shared/protocol.h:96-101 | A TURN server on the wire: host, port, user name, password. |
| `Codec.IntegerBytes` | Shared/thirdparty/zpp_bits/zpp_bits.h:2090-2134 | Integers of 1, 2, 4 and 8 bytes go out low byte first, strings behind a 4-byte length. |
| `Framing.HeaderMeaning` | Shared/framing.h:50-58 | Every 32-bit header: 31 bits of length, refused above 1024, and the flag in the top bit. |
| `Framing.LongFrame` | Shared/framing.h:34-43 | A longer body goes out in fragments of 1024 bytes, all but the last with the flag set. |
| `Framing.FrameMessage` | Shared/framing.h:27-46 | The do/while emits the fragment stream of the encoded body; a body within one fragment is a plain length prefix, flag clear. |
| `Framing.HeaderRoundTrip` | Shared/framing.h:50-58 | A header written for a fragment within the limit reads back as its length and flag, whatever follows. |
| `Framing.AppendFragment` | Shared/framing.h:62-68 | A fragment is appended iff the total stays within the reassembly cap; otherwise the body is untouched. |
| `Readers.ReadersAgree` | Server/src/weyvelength_server.cpp:114-142 | On every byte stream both readers deliver the same messages; their states differ only while an oversized fragment is incomplete, where the server has already hung up. |
| `Readers.CarveMore` | Client/src/client.cpp:228-273 | Later bytes never change what earlier bytes decided. |
| `Readers.ChunkingIndependence` | Client/src/client.cpp:228-273 | Any split of any byte stream across polls ends in the state of one pass over the whole stream. |
| `Readers.WireRoundTrip` | Shared/framing.h:27-68 | On the frames of messages within the cap both readers deliver exactly those messages and keep nothing back. |
| `Readers.FramedIffFits` | Client/src/client.cpp:244-255 | A framed body is delivered iff it is at most 16384 bytes and decodes; otherwise the connection closes at once, for either reader. |
| `Readers.CarvedWithinCap` | Shared/framing.h:62-68 | No reader ever gathers or delivers more than 16384 bytes for one message. |
| `Readers.WireInChunks` | Client/src/client.cpp:208-273 | The same holds however the socket cuts the frames. |
| `Readers.PrefixDelivers` | Client/src/client.cpp:244-250 | While frames are still arriving, a prefix of the messages is delivered and nothing is refused. |
| `Readers.ReadLoop` | Server/src/weyvelength_server.cpp:114-142 | The server's loop delivers what its specification delivers on every byte stream, malformed and oversized ones included. |
| `Sizes.SizeClosure` | Server/src/weyvelength_server.cpp:126-140 | Answering any input its reader accepted, the server emits only messages a client's reader accepts, given a bounded code length and ICE list. |
| `Sizes.DataFitsOneFrame` | Shared/protocol.h:123-129 | Every metadata message within the limits is at most 13+128+512 bytes and goes out as one frame, flag clear. |
| `Sizes.CodeBoundIsTight` | Server/src/weyvelength_server.cpp:234-237 | The bound on the code length is exact: past it the refusal to a member who creates a room would be unreadable. |
| `Outbound.NoLostWakeup` | Server/src/weyvelength_server.cpp:144-161 | In every interleaving, frames written, the one in flight and the queue are everything enqueued in order, and the writer sleeps only with an empty queue on a live session. |
| `Outbound.Drains` | Server/src/weyvelength_server.cpp:147-157 | Each completed write starts the next queued frame; as many completions as frames leave everything written and the writer asleep. |
| `Outbound.EverythingGoesOut` | Server/src/weyvelength_server.cpp:144-161 | From every live state there is a continuation in which all that was enqueued has been written. |
| `Outbound.ClosingStartsNothing` | Server/src/weyvelength_server.cpp:102-103 | Once the session has ended the writer starts no further frame, whatever happens afterwards. |
| `Outbound.FailureEndsWriting` | Server/src/weyvelength_server.cpp:144-161 | After a failed write nothing is ever written again. |
| `EndToEnd.ArrivedSoFar` | Client/src/client.cpp:52-62 | At any moment of any run, whatever part of the written bytes has arrived in whatever pieces: nothing was refused, and what was delivered is a prefix of what the server queued that fits the cache message by message. |
| `EndToEnd.ArrivedWhole` | Client/src/client.cpp:52-62 | Once everything queued is written and read, the carved messages folded into an empty cache are the server's view: codec, framing, writer, reader and replica composed. |
| `EndToEnd.PollEach` | Client/src/client.cpp:52-62 | A new client object polled once per chunk, amid any events: its inbox is what was carved and surfaced; its cache is everything carved, folded, or cleared after a refusal; its mesh has run through what those messages asked and then each poll's events. |
| `EndToEnd.PolledInOrder` | Client/src/p2p_mesh.cpp:226-228 | Those mesh steps contain every signal carved and every event drained by a poll that stayed open, each in order. |
| `EndToEnd.ArrivedAtClient` | Client/src/client.cpp:52-62 | The cache of a client object polled through everything written is the server's view, and its inbox is the surfaced part of what was queued. |
| `EndToEnd.QueuedLeads` | Server/src/weyvelength_server.cpp:163-169 | Everything ever queued to a live connection builds its view of the server from nothing. |
| `EndToEnd.RunSendable` | Server/src/weyvelength_server.cpp:558-570 | Over whole runs on readable input, every queued message is within the reassembly cap. |
| `EndToEnd.ReadableIffSendable` | Server/src/weyvelength_server.cpp:126-140 | The messages ReadLoop can hand over are exactly those whose own encoding is within the cap. |
| `ServerImpl.Server.HandleMessage` | Server/src/weyvelength_server.cpp:171-212 | One message, handled in place: the indexes stay in agreement, the tables become those of the specified step, and each queue grows by exactly its share, in order. |
| `ServerImpl.Server.Accept` | Server/src/weyvelength_server.cpp:75-87 | The next id, ungreeted, with an empty queue; invariant kept. |
| `ServerImpl.Server.Greet` | Server/src/weyvelength_server.cpp:89-94 | The id and the ICE list are queued in that order; invariant kept. |
| `ServerImpl.Server.Farewell` | Server/src/weyvelength_server.cpp:102-109 | The leaver is out of its room and forgotten; the others' queues grow by the departure events; invariant kept. |
| `ServerImpl.Server.SendToMany` | Server/src/weyvelength_server.cpp:563-570 | Every listed connection's queue grows by one copy, all others are untouched. |
| `ServerImpl.Server.LeaveRoom` | Server/src/weyvelength_server.cpp:532-556 | Tables and queues become those of the common exit path. |
| `ServerImpl.Server.HandleCreateRoom` | Server/src/weyvelength_server.cpp:232-249 | In-place creation refines its specification, refusal included. |
| `ServerImpl.Server.HandleJoinRoom` | Server/src/weyvelength_server.cpp:251-307 | The five refusals and the hydrating join, message by message, refine their specification. |
| `ServerImpl.Server.HandleLeaveRoom` | Server/src/weyvelength_server.cpp:309-318 | Confirmation first, then the common exit. |
| `ServerImpl.Server.HandleRoomChat` | Server/src/weyvelength_server.cpp:320-330 | One copy to each member, sender included, or a refusal. |
| `ServerImpl.Server.HandleP2PSignal` | Server/src/weyvelength_server.cpp:344-362 | Relayed under the sender's id to another member of its room, else dropped. |
| `ServerImpl.Server.HostRoom` | Server/src/weyvelength_server.cpp:216-230 | True iff the sender hosts its room; otherwise the matching refusal is queued. |
| `ServerImpl.Server.HandleSetRoomData` | Server/src/weyvelength_server.cpp:364-397 | try_emplace and undo on overflow, then a broadcast if anything changed. |
| `ServerImpl.Server.HandleSetMemberData` | Server/src/weyvelength_server.cpp:399-436 | The same on the sender's own nested map, created and dropped as needed. |
| `ServerImpl.Server.HandleKickMember` | Server/src/weyvelength_server.cpp:438-454 | Notice to the target, then the common exit, or a refusal. |
| `ServerImpl.Server.HandleBanMember` | Server/src/weyvelength_server.cpp:456-475 | The mark, the notice, then the common exit, or a refusal. |
| `ServerImpl.Server.HandleTransferHost` | Server/src/weyvelength_server.cpp:477-495 | A new host announced to all, a silent no-op, or a refusal. |
| `ServerImpl.Server.HandleSetRoomJoinable` | Server/src/weyvelength_server.cpp:497-510 | The flag and its announcement, only on a change. |
| `ServerImpl.Server.HandleSetRoomPassword` | Server/src/weyvelength_server.cpp:512-530 | The password, announced only when its presence changes. |
| `ClientImpl.Client.Poll` | Client/src/client.cpp:52-62 | One poll over the drained bytes and queued events: carve, dispatch, then the events; a protocol error hangs up after the messages before it; a closed client does nothing. |
| `ClientImpl.Client.CarveServer` | Client/src/client.cpp:228-273 | The buffer loop delivers what Carve delivers, dispatches it in order, surfaces what Next shows and keeps the rest; on a protocol error it disconnects and clears. |
| `ClientImpl.DispatchFolds` | Client/src/client.cpp:257-268 | Whatever libjuice answers, the cache after a batch of messages is the batch folded into it. |
| `ClientImpl.DispatchIsRun` | Client/src/client.cpp:253-268 | Dispatching a batch of messages is running the mesh through what each of them asks, in order. |
| `ClientImpl.EventsAreSteps` | Client/src/p2p_mesh.cpp:226-228 | Draining a batch of events is running the mesh through each of them, in order. |
| `ClientImpl.SurfacedExactly` | Client/src/client.cpp:253-268 | Next is given every carved message but ids, ICE lists and signals, in order; any kind of room event looked for is all there. |
| `ClientImpl.Client.CacheRoomState` | Client/src/client.cpp:295-352 | Each surfaced message changes cache and mesh as the model says. |
| `ClientImpl.Client.ClearRoomState` | Client/src/client.cpp:354-364 | The cache is cleared but for the id, and every link and attempt is gone. |
| `ClientImpl.Client.DisconnectServer` | Client/src/client.cpp:366-371 | Closes, then clears the room; reports failure. |
| `ClientImpl.Client.SendP2P` | Client/src/p2p_mesh.cpp:46-71 | Refines the modelled send: refused, queued on an unconnected link, or handed over. |
| `ClientImpl.Client.CreateLink` | Client/src/p2p_mesh.cpp:96-131 | Refused on a spent budget or a failed creation, else a fresh agent is counted and linked. |
| `ClientImpl.Client.ShareLink` | Client/src/p2p_mesh.cpp:134-142 | The description is signalled, then gathering starts. |
| `ClientImpl.Client.FlushLink` | Client/src/p2p_mesh.cpp:144-150 | The outbox is handed over in order and emptied. |
| `ClientImpl.Client.DestroyLink` | Client/src/p2p_mesh.cpp:152-160 | The agent is destroyed and the link dropped, if there was one. |
| `ClientImpl.Client.DestroyAllLinks` | Client/src/p2p_mesh.cpp:162-169 | Every agent destroyed in key order, all links and attempts gone. |
| `ClientImpl.Client.HandleP2PSignal` | Client/src/p2p_mesh.cpp:171-188 | Dispatch on the kind; unknown kinds and linkless candidates are dropped. |
| `ClientImpl.Client.HandleP2PDescription` | Client/src/p2p_mesh.cpp:190-216 | Redial, answer and glare, as modelled. |
| `ClientImpl.Client.PollPeers` | Client/src/p2p_mesh.cpp:218-230 | The drained events are handled in order; the cache is untouched. |
| `ClientImpl.Client.HandleJuiceEvent` | Client/src/p2p_mesh.cpp:232-252 | Stale events change nothing; current ones act as modelled. |
| `ClientImpl.Client.HandleLinkState` | Client/src/p2p_mesh.cpp:254-272 | Connected, disconnected and failed links. |
| `Outbound.Connection.Push` | Server/src/weyvelength_server.cpp:20-24 | Appends the frame and wakes a parked writer. |
| `Outbound.Connection.Loop` | Server/src/weyvelength_server.cpp:147-157 | From a resumption to the next suspension: ended, parked or writing. |
| `Outbound.Connection.Written` | Server/src/weyvelength_server.cpp:155-157 | A completed write, and the next turn of the loop. |
| `Outbound.Connection.Close` | Server/src/weyvelength_server.cpp:102-103 | Marks the session as closing and wakes the writer. |

## Left out

- Sockets, resolver, accept and listen, coroutine machinery and logging: they are the scheduling of steps and the delivery of bytes.
- libjuice and ICE themselves; `_ice` only configures agents, so the client model does not store it.
- MakeRoomCode: its randomness, alphabet and the termination of its retry loop.
- Sharing through `shared_ptr`, and pointers into the room table: connections, queues and rooms are values in maps that the server object reassigns.
- Queues in `ServerImpl` hold messages; their framing and draining are `Framing` and `Outbound`, joined in `EndToEnd`.
- The archives' positions and buffers: `Codec` works on values, not in place.
- SendServer and FlushServer: the client's outgoing bytes; outgoing signals are kept as messages, and a server may receive anything.
- DrainServer: its chunks are the argument of `ClientImpl.Client.Poll`; socket errors are a hang-up.
- Quiescence of the description exchange after redials: a redial that crosses an answer can make each side take the other's answer for a redial.
- Liveness, delivery guarantees and reconnecting on the same `Client`.
- The C interface, marshalling, accessors, the console example and the server's startup: they would only add easy members.
