# A verified model of the Shan MQTT broker

The broker is an MQTT 3.1.1 server: it keeps a table of connected clients, a table of sessions, two tables
of topics (names, and filters with wildcards), and for each session a packet-identifier allocator and the
messages still in flight. This project models those parts in Dafny and proves what the broker is for:
who receives what, what survives a reconnection, and what every run keeps.

There are two layers.

- **The state machine** (`Broker.dfy` and the modules named after it). A server is a value; one call of a
  handler is one step; the packets written form a log. All run properties are stated here: the invariant
  (`BrokerInvariant`), fan-out and wills (`BrokerDelivery`), what SUBSCRIBE, UNSUBSCRIBE and CONNECT are
  answered with (`BrokerAnswers`), retained messages (`BrokerRetained`), in-flight conservation
  (`BrokerHistory`), acknowledgements packet by packet (`BrokerExchanges`), connections and sessions
  (`BrokerSessions`), the exact content of the topic tables and takeover (`BrokerAgreement`), at-least-once
  delivery from the PUBLISH to the reconnection (`BrokerGuarantees`), exactly when a handler returns
  (`BrokerEnds`), the reuse of identifiers over a run (`BrokerReuse`), and what is written as bytes
  (`BrokerWire`). `BrokerExamples` holds runs on which the broker falls short.
- **The objects**, in the form of the source. `Sessions.Session`, `Outlets.Outlet` (session objects and
  channels), `TopicObjects.Topic`, `TopicTable` and `TopicIndex`, and `MqttServers.MqttServer` update their
  fields in place, with the source's loops. Each has a value function, and each method is proved to do to
  that value what the state machine does, so every theorem about runs is one about the objects.

Beside them stand the topic scanners (`TopicFilter`), refined to the level-by-level rules of section 4.7 of
MQTT 3.1.1, and the codec: the fixed header and strings (`FixedHeader`), packets (`Packets`, `PacketLaws`),
every packet as bytes (`PacketBytes`, `Frames`), the cursor methods that decode and serialize them
(`PacketIO`) and framing (`Codec`). `BrokerInput` joins the two halves: whatever the decoder yields, the
invariant covers.

## How to read the model

- A step is one handler call, run to its end. A client object is named by its channel and a session object
  by the channel whose CONNECT allocated it, so the sharing of session objects between connections and
  tables is visible.
- The order in which the source's unordered maps are walked is a parameter of each step (`Orders`). It may
  be any order that visits each key once; every theorem holds for all of them.
- The source never takes the entries of a connection that a clean-session CONNECT replaces out of the topic
  tables. `RunLeft` records them over a run, outside the state, and `TablesOverRuns` accounts for every entry.
- The library is taken to repeat `channel_read` while it yields packets, and to hand the buffer on when a
  read neither yields one nor calls `done`; the packet handler then throws and the channel is closed.
- When a session has all 65,535 identifiers in flight, the loop of `new_packet_id` does not end. A step
  that reaches this sets `stuck`, and nothing is claimed of what the hung handler would have done next.
  Results about what a handler does to its end assume `Ends`, a condition on the state before the call that
  `StepEndsIff` shows to be the exact one.
- The decoder of bytes works on a buffer with a read cursor, a mark and a reset.

Where code and documentation differ, the model follows the code:

- Remaining lengths of four bytes, which section 2.2.3 of MQTT 3.1.1 allows, are rejected
  (`RemainingLengthAccepted`).
- `topic::match` refuses a name ending in '/' where '+' or '#' would take the empty last level
  (`ScanIsLevelMatch`, `TrailingSlashCounterexample`).
- A replayed PUBLISH is sent with DUP = 0, on every reconnection (`DupIsNotSent`, `WritesDecode`).
- `mqtt_connect::serialize` loses the will flag (`SerializedConnectIff`).
- The QoS byte after an invalid filter of a SUBSCRIBE is not read, so it begins the next one (`ItemBytes`, `FrameIff`).
- A will reaches only topics of the exact table, so no wildcard subscriber (`WillServesAllIff`,
  `WillMissesSubscriber`).
- A PUBREC is believed for any identifier, awaited or not, so a session can come to have every identifier in
  flight; the next message for it then never gets one (`FloodHangs`, `HangReached`).
- A message counts as unsent if the last topic it was published to has no client, even if another had one
  (`NotesAreExact`, `ReportedThoughSent`).
- When the fixed header itself is incomplete, `channel_read` does not signal `done`, and the channel is lost
  (`ChunkingExact`, `LongPublishExample`).

`dafny verify dfyconfig.toml` checks the project.

## Model

| member | source | states |
|---|---|---|
| `BrokerInvariant.RunInv` | Shan.MqttBroker/Shan.MqttBroker/player/mqtt_server.cpp:189-539 | every state of every run keeps the whole invariant: clients and channel params in bijection, one session object per id, wildcard-free and valid wildcard filters in separate tables, every subscription of a connected client entered for that client object with its QoS, in-flight identifiers in phase, every PUBLISH in a list or on the log within the size bound, with DUP = 0 in its flags and a topic the decoder takes or the broker's own |
| `BrokerInvariant.StepInv` | Shan.MqttBroker/Shan.MqttBroker/player/mqtt_server.cpp:189-539 | each of the ten kinds of event keeps that invariant, whatever order the unordered maps are traversed in |
| `BrokerInvariant.StartInv` | Shan.MqttBroker/Shan.MqttBroker/player/mqtt_server.cpp:14-17 | it holds of a server that has just been made |
| `BrokerAgreement.TablesOverRuns` | Shan.MqttBroker/Shan.MqttBroker/player/mqtt_server.cpp:165-187 | after any run from the start, for every id, table and filter, connected or not, taken over or not: the tables hold exactly the entry the id's session asks for, or else the one a clean takeover left there that no SUBSCRIBE, UNSUBSCRIBE or restored session of the id has replaced since, or none |
| `BrokerAgreement.StepAccounts` | Shan.MqttBroker/Shan.MqttBroker/player/mqtt_server.cpp:189-539 | each kind of event keeps that account |
| `BrokerAgreement.AgreementOverRuns` | Shan.MqttBroker/Shan.MqttBroker/player/mqtt_server.cpp:165-187 | after any run, tables and session of an id agree exactly if and only if no such leftover of the id remains; an offline id then has no entry |
| `BrokerAgreement.AgreementThroughout` | Shan.MqttBroker/Shan.MqttBroker/player/mqtt_server.cpp:222-258 | tables and session of an id agree at every moment of a run if and only if no clean CONNECT of it is accepted while it is connected with subscriptions |
| `BrokerSessions.SubscriptionsAreIndexed` | Shan.MqttBroker/Shan.MqttBroker/player/mqtt_server.cpp:404-441 | for every id, taken over or not, no subscription of a connected client is missing from the table its filter belongs to |
| `BrokerAgreement.TakeoverAgreement` | Shan.MqttBroker/Shan.MqttBroker/player/mqtt_server.cpp:222-258 | from any reachable state, a takeover ends in exact agreement if and only if there was agreement before and it restores the session or the old connection had no subscription |
| `BrokerExamples.StaleEntry` | Shan.MqttBroker/Shan.MqttBroker/player/mqtt_server.cpp:222-285 | a run from the start on which it fails: connect, subscribe, connect again with a clean session; the new session is empty and the old entry still there |
| `BrokerSessions.TakeoverMoves` | Shan.MqttBroker/Shan.MqttBroker/player/mqtt_server.cpp:222-258 | after a takeover the id is live on the new channel and on no other |
| `BrokerSessions.OneChannelPerId` | Shan.MqttBroker/Shan.MqttBroker/player/mqtt_server.cpp:256-258 | over any run no id is live on two channels and no two channels share a session object |
| `BrokerSessions.OfflineSessions` | Shan.MqttBroker/Shan.MqttBroker/player/mqtt_server.cpp:234-254 | after any run, an offline id has a stored session iff its last accepted CONNECT had clean_session = false |
| `BrokerSessions.RunPersists` | Shan.MqttBroker/Shan.MqttBroker/player/mqtt_server.cpp:510-534 | the table of sessions after any run, for connected and offline ids alike, from the last CONNECT of each |
| `BrokerSessions.SessionWaits` | Shan.MqttBroker/Shan.MqttBroker/object/session.cpp:39-52 | no run of other ids' steps changes an id's registration, its session object or the subscriptions in it |
| `BrokerSessions.OthersKeepSession` | Shan.MqttBroker/Shan.MqttBroker/player/mqtt_server.cpp:189-539 | the same for one step of any kind |
| `BrokerSessions.StrangersDoNothing` | Shan.MqttBroker/Shan.MqttBroker/player/mqtt_server.cpp:309-312 | on a channel that has not logged in, or has left, nothing but CONNECT changes anything |
| `BrokerSessions.AnonymousCollide` | Shan.MqttBroker/Shan.MqttBroker/player/mqtt_server.cpp:195-202 | an accepted CONNECT with an empty id keeps clients and channels in bijection iff no other anonymous client is registered, because the client object keeps the empty id |
| `BrokerSessions.AnonymousExample` | Shan.MqttBroker/Shan.MqttBroker/player/mqtt_server.cpp:195-232 | two anonymous clients in a row: both channels hold a client with the empty id |
| `BrokerWire.WritesFit` | Shan.MqttBroker/Shan.MqttBroker/player/mqtt_client.cpp:19-24 | every PUBLISH any run writes has QoS at most 2, a topic of at most 65535 bytes, a remaining length of at most 2,097,151, and flags for DUP = 0 |
| `BrokerWire.WritesDecode` | Shan.MqttBroker/Shan.MqttBroker/packet/mqtt_publish.cpp:11-101 | for any run, each PUBLISH written, first deliveries and redeliveries alike, decodes in front of any bytes to the packet recorded with DUP = 0, unless it is a note for $sys/trash, which the decoder refuses from anyone |
| `BrokerWire.WritesAreFrames` | Shan.MqttBroker/Shan.MqttBroker/handler/mqtt_codec.cpp:103-118 | everything a run writes, whatever its type, is a frame that decodes to that packet with nothing left over, unless it is a note for $sys/trash |
| `BrokerCore.CopyFits` | Shan.MqttBroker/Shan.MqttBroker/packet/mqtt_publish.cpp:52-89 | a copy made for a subscriber is built without an exception and stays within the bound of the packet it copies |
| `BrokerInvariant.TrashFits` | Shan.MqttBroker/Shan.MqttBroker/player/mqtt_server.cpp:350-353 | so does the note for $sys/trash |
| `BrokerInvariant.WillFitsPacket` | Shan.MqttBroker/Shan.MqttBroker/player/mqtt_server.cpp:155-157 | so does a will message |
| `BrokerCore.DeliverAllWrites` | Shan.MqttBroker/Shan.MqttBroker/player/mqtt_client.cpp:17-32 | a series of `publish` calls writes one copy each, in order, with the lower QoS, RETAIN as asked, and topic and payload unchanged, unless a session has every identifier in flight |
| `BrokerCore.DeliverAllRecords` | Shan.MqttBroker/Shan.MqttBroker/player/mqtt_client.cpp:26-29 | and records those of QoS 1 and 2, in order, in the session of the client they go to, and nothing else |
| `BrokerEnds.SendingEndsIff` | Shan.MqttBroker/Shan.MqttBroker/object/session.cpp:11-37 | a series of `publish` calls comes to its end if and only if, for each of them at its turn, fewer than 65,535 nonzero identifiers are in flight in the session it goes to, counting those the earlier ones took; all read off the state before the series |
| `BrokerEnds.StepEndsIff` | Shan.MqttBroker/Shan.MqttBroker/player/mqtt_server.cpp:189-539 | so for every kind of event the handler returns if and only if there is such room for all it sends, and, for a lost client's will, one identifier free in its own session: a condition on the state before the call |
| `BrokerEnds.RoomEnough` | Shan.MqttBroker/Shan.MqttBroker/object/session.cpp:11-37 | in particular it does while every session has room for as many more identifiers as there are copies |
| `BrokerExamples.FloodHangs` | Shan.MqttBroker/Shan.MqttBroker/player/mqtt_client.cpp:39-47 | that room can always run out: in any state, PUBREC for each identifier on one connection is a possible run, after which no event that sends that client anything ends, whoever it comes from |
| `BrokerExamples.HangReached` | Shan.MqttBroker/Shan.MqttBroker/player/mqtt_client.cpp:39-47 | from the start: connect, subscribe, 65,535 PUBRECs, and the PUBLISH that follows never returns |
| `BrokerDelivery.FanOutIsNaiveScan` | Shan.MqttBroker/Shan.MqttBroker/player/mqtt_server.cpp:309-360 | the publisher's acknowledgement, then exactly the copies of a naive scan of all entries of both tables with `match`, each entry once, and after them only notes for $sys/trash |
| `BrokerDelivery.TargetsAreHits` | Shan.MqttBroker/Shan.MqttBroker/player/mqtt_server.cpp:323-344 | exact lookup plus wildcard scan visit each matching entry once and no other |
| `BrokerDelivery.PublishReaches` | Shan.MqttBroker/Shan.MqttBroker/player/mqtt_server.cpp:309-360 | end to end, for any run from the start and any PUBLISH that follows: after the acknowledgement, one copy for each filter a connected client's session holds that matches the topic, on that client's channel and with the lower of the two QoS, one for each matching entry a clean takeover left behind, and no other copy |
| `BrokerDelivery.SubscriberHitsByLevels` | Shan.MqttBroker/Shan.MqttBroker/object/topic.cpp:81-119 | end to end: for a name not ending in '/', a client holding a filter is hit under it iff the levels match by section 4.7 of MQTT 3.1.1 |
| `BrokerDelivery.NotesAreExact` | Shan.MqttBroker/Shan.MqttBroker/player/mqtt_server.cpp:323-359 | after the copies, every subscriber of $sys/trash gets one note with the topic name as payload if the topic object published to last has no client, and otherwise nothing more is written |
| `BrokerDelivery.UnsentIsNoted` | Shan.MqttBroker/Shan.MqttBroker/player/mqtt_server.cpp:350-359 | so a message that matches no entry is always reported |
| `BrokerExamples.ReportedThoughSent` | Shan.MqttBroker/Shan.MqttBroker/player/mqtt_server.cpp:337-359 | a run from the start after which a message that reaches a subscriber is reported too, because the last topic object is kept for its retained message only |
| `BrokerDelivery.WillIsDelivered` | Shan.MqttBroker/Shan.MqttBroker/player/mqtt_server.cpp:142-163 | the will of a lost client goes once to each client of its topic in the exact table, and to no one else |
| `BrokerDelivery.LeavingIsSilent` | Shan.MqttBroker/Shan.MqttBroker/player/mqtt_server.cpp:500-539 | the loss of a channel writes nothing if and only if its client has no will or nobody holds the will's topic in the exact table; DISCONNECT never writes |
| `BrokerDelivery.WillServesAllIff` | Shan.MqttBroker/Shan.MqttBroker/player/mqtt_server.cpp:142-163 | a will reaches every entry its topic matches, as a PUBLISH would, and nothing else is written, if and only if no entry of the wildcard table matches the topic |
| `BrokerExamples.WillMissesSubscriber` | Shan.MqttBroker/Shan.MqttBroker/player/mqtt_server.cpp:142-163 | a run from the start on which a wildcard subscriber is left out of a will |
| `BrokerAnswers.SubscribeAnswer` | Shan.MqttBroker/Shan.MqttBroker/player/mqtt_server.cpp:394-452 | SUBACK with one code per filter in order, then exactly one retained message per accepted filter occurrence and matching topic holding one, with the QoS granted now; the "not subscribing" error never occurs |
| `BrokerAnswers.SubscribeGrants` | Shan.MqttBroker/Shan.MqttBroker/object/session.cpp:39-47 | the subscriptions after SUBSCRIBE: the last accepted request for each filter, all others as before |
| `BrokerAnswers.TrashIsForAdmins` | Shan.MqttBroker/Shan.MqttBroker/player/mqtt_server.cpp:410-424 | $sys/trash gains the subscriber, with QoS 2, iff it is an administrator and asked for it |
| `BrokerAnswers.UnsubscribeForgets` | Shan.MqttBroker/Shan.MqttBroker/player/mqtt_server.cpp:454-490 | UNSUBSCRIBE removes exactly the named filters from the session and looks in the table SUBSCRIBE used, so the client is entered under none of them any more |
| `BrokerAnswers.ConnackIsExact` | Shan.MqttBroker/Shan.MqttBroker/player/mqtt_server.cpp:203-261 | for every CONNECT: one that fails a check is answered with its return code and no session present, and nothing is registered or changed; any other is answered with 0, session present iff the stored session object of the id goes on being used, otherwise the session is new and empty; the client registered has the fields of the CONNECT, and the channel it replaces is forgotten |
| `BrokerAnswers.ReconnectAnswer` | Shan.MqttBroker/Shan.MqttBroker/player/mqtt_server.cpp:266-306 | a CONNECT that restores a session, position by position in the log: CONNACK, each publish that awaits PUBACK and each that awaits PUBREC with `dup` set, one PUBREL per identifier that awaits PUBCOMP, then exactly the retained messages due; the session loses nothing |
| `BrokerAnswers.ReconnectRewrites` | Shan.MqttBroker/Shan.MqttBroker/player/mqtt_server.cpp:287-302 | those resends are written whether or not the sending of retained messages ends |
| `BrokerDelivery.RetainedIsNaive` | Shan.MqttBroker/Shan.MqttBroker/player/mqtt_server.cpp:124-136 | `publish_retained_message` for entered filters equals the naive scan of the exact table |
| `BrokerRetained.RetainedOverRun` | Shan.MqttBroker/Shan.MqttBroker/object/topic.cpp:30-41 | over any run, what a topic keeps is the last retained publication it got, an empty payload clearing it, and nothing else changes it |
| `BrokerRetained.StepKept` | Shan.MqttBroker/Shan.MqttBroker/object/topic.cpp:37-41 | one step: no CONNECT, takeover, SUBSCRIBE, UNSUBSCRIBE, DISCONNECT or acknowledgement changes a retained message |
| `BrokerRetained.ErasedOnlyWhenEmpty` | Shan.MqttBroker/Shan.MqttBroker/player/mqtt_server.cpp:165-187 | a topic leaves its table only in an UNSUBSCRIBE, DISCONNECT or loss, holding no retained message and no client but the one whose step it is |
| `BrokerRetained.HollowOnlyByClearing` | Shan.MqttBroker/Shan.MqttBroker/player/mqtt_server.cpp:165-187 | and conversely no topic object is left with nothing in it, except by a publication that clears the retained message of a topic without clients |
| `BrokerHistory.StepEvolves` | Shan.MqttBroker/Shan.MqttBroker/player/mqtt_client.cpp:34-60 | for every session object and every step: an acknowledgement on its own connection does what it names, and anything else loses, reorders or changes nothing that is pending |
| `BrokerHistory.Qos1Conserved` | Shan.MqttBroker/Shan.MqttBroker/object/session.cpp:74-86 | in any run a QoS 1 message stays pending until a PUBACK with its identifier comes on a connection of its session |
| `BrokerHistory.AckStep` | Shan.MqttBroker/Shan.MqttBroker/object/session.cpp:78-86 | and one step takes it out if and only if it is that PUBACK |
| `BrokerHistory.Qos2Conserved` | Shan.MqttBroker/Shan.MqttBroker/object/session.cpp:88-100 | in any run a QoS 2 message stays pending until PUBREC |
| `BrokerHistory.RecStep` | Shan.MqttBroker/Shan.MqttBroker/player/mqtt_client.cpp:39-47 | and one step takes it out if and only if it is that PUBREC |
| `BrokerHistory.ExchangeConserved` | Shan.MqttBroker/Shan.MqttBroker/player/mqtt_client.cpp:39-60 | in any run, and for any client, a QoS 2 exchange stays open, and its identifier taken, until PUBCOMP |
| `BrokerHistory.RunStrict` | Shan.MqttBroker/Shan.MqttBroker/object/session.cpp:64-100 | in every session and at all times of a run no identifier is in two of the three sender lists, or twice in one, if and only if no PUBREC of the run names an identifier that awaits PUBACK or PUBCOMP |
| `BrokerHistory.AwaitedConforms` | Shan.MqttBroker/Shan.MqttBroker/player/mqtt_client.cpp:39-47 | a client that sends PUBREC only for a message that awaits it never does |
| `BrokerGuarantees.CopiesArePending` | Shan.MqttBroker/Shan.MqttBroker/player/mqtt_client.cpp:17-32 | each copy of a PUBLISH with QoS 1 or 2 is pending in its client's session when the handler returns |
| `BrokerGuarantees.AtLeastOnce` | Shan.MqttBroker/Shan.MqttBroker/player/mqtt_server.cpp:287-302 | end to end: a message recorded with QoS 1, whatever run follows short of its PUBACK, is sent again on any connection that then restores its session, even one whose retained messages never end |
| `BrokerGuarantees.AtLeastOnceUntilPubrec` | Shan.MqttBroker/Shan.MqttBroker/player/mqtt_server.cpp:287-302 | the same for QoS 2 short of its PUBREC |
| `BrokerHistory.HandshakeFreesId` | Shan.MqttBroker/Shan.MqttBroker/player/mqtt_client.cpp:39-60 | PUBREC and then PUBCOMP for a message that awaits them: one PUBREL is written, the identifier stays taken in between and is free afterwards |
| `BrokerExchanges.AckIsExact` | Shan.MqttBroker/Shan.MqttBroker/player/mqtt_client.cpp:34-60 | each acknowledgement, for any identifier: PUBACK and PUBCOMP are not answered, PUBREC is answered with PUBREL and PUBREL with PUBCOMP; the first entry with the identifier leaves the one list it should, PUBREC appends to another, and nothing else of the server changes; without a connection nothing happens |
| `BrokerExchanges.NotedOverRun` | Shan.MqttBroker/Shan.MqttBroker/object/session.cpp:54-62 | the inbound QoS 2 identifiers a session notes after any run: one more for each such PUBLISH on its connections, one fewer for each PUBREL |
| `BrokerExchanges.Qos2Received` | Shan.MqttBroker/Shan.MqttBroker/player/mqtt_client.cpp:49-55 | the receiver's side of QoS 2 as one: PUBREC and a note for the PUBLISH, the note stays through any run without its PUBREL, and the PUBREL, on this connection or a later one, is answered with PUBCOMP and takes the note away |
| `BrokerExchanges.PubrelAgain` | Shan.MqttBroker/Shan.MqttBroker/player/mqtt_server.cpp:298-302 | from PUBREC on, through any run without the PUBCOMP, every connection that restores the session is sent the PUBREL again |
| `BrokerHistory.InboundRecorded` | Shan.MqttBroker/Shan.MqttBroker/player/mqtt_server.cpp:318-321 | the identifier of an inbound QoS 2 message is noted once, in the sender's session only |
| `BrokerInput.BytesToEvent` | Shan.MqttBroker/Shan.MqttBroker/handler/packet_handler.cpp:22-70 | the bytes of each kind of packet lead to its handler with its fields: by the type in the first four bits, the acknowledgements to four different ones, and the packets only a server sends to none |
| `BrokerInput.DecodedIsPossible` | Shan.MqttBroker/Shan.MqttBroker/handler/packet_handler.cpp:22-70 | whatever bytes a client sends, each packet the decoder yields is an event the invariant covers; of a CONNECT it is only asked that it is the channel's first and has an id |
| `Sessions.AllocatorCorrect` | Shan.MqttBroker/Shan.MqttBroker/object/session.cpp:11-37 | an identifier returned by `new_packet_id` is nonzero and in none of the three sender lists; one is found iff there is such an identifier, within one candidate more than there are identifiers in flight |
| `Sessions.AllocatorTerminates` | Shan.MqttBroker/Shan.MqttBroker/object/session.cpp:11-37 | the loop ends whenever fewer than 65535 identifiers are in flight |
| `Sessions.CallFails` | Shan.MqttBroker/Shan.MqttBroker/object/session.cpp:11-37 | when it does not end, every nonzero identifier is in flight |
| `Sessions.FreshCandidates` | Shan.MqttBroker/Shan.MqttBroker/object/session.cpp:11-37 | a new session draws 1, 2, 3 and so on, and after 65,535 it draws 1 again |
| `Sessions.CursorPosition` | Shan.MqttBroker/Shan.MqttBroker/object/session.cpp:11-37 | over a series of calls the cursor stands where the number of candidates drawn so far puts it |
| `Sessions.ReuseOnlyAfterFullCycle` | Shan.MqttBroker/Shan.MqttBroker/object/session.cpp:11-37 | between two returns of one identifier every other nonzero identifier was returned or was in flight when passed |
| `BrokerReuse.ReuseOverRun` | Shan.MqttBroker/Shan.MqttBroker/object/session.cpp:11-37 | the same in any run of the broker, for the calls that its copies and wills make on one session object |
| `BrokerReuse.RunMakes` | Shan.MqttBroker/Shan.MqttBroker/object/session.cpp:11-37 | over a run the cursor of a session object moves by exactly those calls, whatever else is done to the session |
| `Sessions.AllocatorEndsIff` | Shan.MqttBroker/Shan.MqttBroker/object/session.cpp:11-37 | the loop ends if and only if fewer than 65535 nonzero identifiers are in flight |
| `Sessions.RecordedKeepsPhase` | Shan.MqttBroker/Shan.MqttBroker/player/mqtt_client.cpp:26-29 | recording a message sent with a fresh identifier keeps the phase invariant, and its strict form |
| `Sessions.ReleasesKeepPhase` | Shan.MqttBroker/Shan.MqttBroker/object/session.cpp:58-100 | for any client, every release keeps it |
| `Sessions.ConformingKeepsStrict` | Shan.MqttBroker/Shan.MqttBroker/object/session.cpp:58-100 | for a conforming client the three lists stay duplicate-free and pairwise disjoint |
| `Sessions.StrayPubrec` | Shan.MqttBroker/Shan.MqttBroker/player/mqtt_client.cpp:39-47 | PUBREC keeps the strict form if and only if its identifier awaits neither PUBACK nor PUBCOMP |
| `Sessions.ReleaseIsExact` | Shan.MqttBroker/Shan.MqttBroker/object/session.cpp:78-100 | a release removes the one exchange with that identifier and no other |
| `Sessions.CompletedIsFree` | Shan.MqttBroker/Shan.MqttBroker/player/mqtt_client.cpp:34-60 | an exchange carried through gives its identifier back to the allocator, and not before |
| `Sessions.Session.NewPacketId` | Shan.MqttBroker/Shan.MqttBroker/object/session.cpp:11-37 | the retry loop on the object computes the allocator's result and moves only the cursor |
| `TopicFilter.ScanIsLevelMatch` | Shan.MqttBroker/Shan.MqttBroker/object/topic.cpp:81-119 | for every valid filter the scan accepts a name iff the levels match and the final empty level of the name is not the one a wildcard would have to take |
| `TopicFilter.ScanEqualsLevelMatch` | Shan.MqttBroker/Shan.MqttBroker/object/topic.cpp:81-119 | so scan and level-wise matching coincide on names that do not end in '/' |
| `TopicFilter.TrailingSlashCounterexample` | Shan.MqttBroker/Shan.MqttBroker/object/topic.cpp:92-99 | "a/" against "a/+" and "a/#": the levels match, the scan says no |
| `TopicFilter.LiteralMatch` | Shan.MqttBroker/Shan.MqttBroker/object/topic.cpp:109-117 | for a wildcard-free filter the scan is string equality |
| `TopicFilter.Match` | Shan.MqttBroker/Shan.MqttBroker/object/topic.cpp:81-119 | the loop over two iterators ends and computes the scan |
| `TopicFilter.ValidIsGrammar` | Shan.MqttBroker/Shan.MqttBroker/packet/mqtt_subscribe.cpp:85-106 | a filter is valid iff every level is wildcard-free, exactly "+", or exactly "#" and last |
| `TopicFilter.FilterExamples` | Shan.MqttBroker/Shan.MqttBroker/packet/mqtt_subscribe.cpp:85-106 | two filters and two that are none, in bytes |
| `TopicFilter.IsTopicFilterValid` | Shan.MqttBroker/Shan.MqttBroker/packet/mqtt_subscribe.cpp:85-106 | the loop returns that, and reports whether a wildcard occurs |
| `Codec.ChunkingExact` | Shan.MqttBroker/Shan.MqttBroker/handler/mqtt_codec.cpp:29-101 | of any list of whole packets, concatenated and split anywhere, exactly that list comes out with nothing left over, if and only if no chunk ends with two or more bytes of a packet arrived and its fixed header incomplete; otherwise the channel is rejected after some of the first packets |
| `Codec.ShortPacketsAlwaysArrive` | Shan.MqttBroker/Shan.MqttBroker/handler/mqtt_codec.cpp:29-101 | so packets of at most 127 bytes after the header come through any split |
| `Codec.SplitHeaderIsRejected` | Shan.MqttBroker/Shan.MqttBroker/handler/packet_handler.cpp:22-25 | and a longer packet whose first two bytes arrive alone is always rejected |
| `Codec.LongPublishExample` | Shan.MqttBroker/Shan.MqttBroker/handler/mqtt_codec.cpp:94-96 | an example: a PUBLISH of 200 bytes, accepted whole and rejected when cut after its second byte |
| `Codec.Receive` | Shan.MqttBroker/Shan.MqttBroker/handler/mqtt_codec.cpp:29-101 | repeated reads of one chunk, on the buffer, yield those packets and say whether the channel lives on |
| `Codec.WaitsIff` | Shan.MqttBroker/Shan.MqttBroker/handler/mqtt_codec.cpp:29-101 | of any bytes: they are waited for iff fewer than two have arrived or the fixed header is whole and its packet is not; a reserved type and a body that asks for more than was announced end in rejection |
| `Codec.ShortBodyExample` | Shan.MqttBroker/Shan.MqttBroker/handler/mqtt_codec.cpp:94-96 | a PUBACK that announces no identifier is rejected |
| `Codec.StrictPrefixWaits` | Shan.MqttBroker/Shan.MqttBroker/handler/mqtt_codec.cpp:34-43 | a strict prefix of a packet yields neither packet nor error, and says exactly when `done` is signalled |
| `Codec.SplitHeaderIsNotDone` | Shan.MqttBroker/Shan.MqttBroker/handler/mqtt_codec.cpp:94-96 | a split inside the remaining length: the handler for missing bytes does not signal `done` |
| `Codec.FrameThenMore` | Shan.MqttBroker/Shan.MqttBroker/handler/mqtt_codec.cpp:45-89 | a packet is decoded the same whatever has already arrived behind it |
| `Codec.PublishIsFrame` | Shan.MqttBroker/Shan.MqttBroker/packet/mqtt_publish.cpp:91-101 | a serialized PUBLISH is a whole packet that decodes to itself |
| `Codec.SubscribeIsFrame` | Shan.MqttBroker/Shan.MqttBroker/packet/mqtt_subscribe.cpp:57-70 | so is a serialized SUBSCRIBE |
| `Codec.SubackIsFrame` | Shan.MqttBroker/Shan.MqttBroker/packet/mqtt_suback.cpp:29-37 | and a serialized SUBACK |
| `Codec.ChannelRead` | Shan.MqttBroker/Shan.MqttBroker/handler/mqtt_codec.cpp:29-101 | the method with mark and reset does one such read; an incomplete read leaves the buffer where it was |
| `Frames.EncodeIsFrame` | Shan.MqttBroker/Shan.MqttBroker/handler/mqtt_codec.cpp:29-101 | every legal packet of every type, encoded by the layout of MQTT 3.1.1, is taken as one frame and decoded to itself |
| `Frames.FrameIff` | Shan.MqttBroker/Shan.MqttBroker/handler/mqtt_codec.cpp:29-101 | and nothing else is: a frame is taken for a packet if and only if the packet is legal and the frame holds exactly its type, flags and bytes; for CONNECT up to bytes that the string decoder passes over |
| `FixedHeader.HeaderIff` | Shan.MqttBroker/Shan.MqttBroker/packet/fixed_header.cpp:13-46 | exactly which fixed headers are taken: the first byte by a table of values, and one to three bytes of remaining length, minimal or not |
| `FixedHeader.RemainingLengthIff` | Shan.MqttBroker/Shan.MqttBroker/packet/fixed_header.cpp:172-186 | exactly the encodings of at most three bytes decode, each to its number |
| `FixedHeader.RemainingLengthAccepted` | Shan.MqttBroker/Shan.MqttBroker/packet/fixed_header.cpp:172-202 | of all lengths the encoder can write, those up to 2,097,151 decode to themselves before any following bytes, and every longer one is rejected |
| `FixedHeader.RemainingLengthMinimal` | Shan.MqttBroker/Shan.MqttBroker/packet/fixed_header.cpp:188-202 | no encoding of a number is shorter than the encoder's |
| `FixedHeader.RemainingLengthSize` | Shan.MqttBroker/Shan.MqttBroker/packet/fixed_header.cpp:188-202 | how many bytes it takes, by ranges as in section 2.2.3 of MQTT 3.1.1 |
| `FixedHeader.DecodeRemainingLength` | Shan.MqttBroker/Shan.MqttBroker/packet/fixed_header.cpp:172-186 | the shifting loop computes the decoder's result and consumes the same bytes |
| `FixedHeader.EncodeRemainingLength` | Shan.MqttBroker/Shan.MqttBroker/packet/fixed_header.cpp:188-202 | the writing loop appends exactly the encoding, or fails above 268,435,455 |
| `FixedHeader.StringRoundTrip` | Shan.MqttBroker/Shan.MqttBroker/packet/fixed_header.cpp:85-146 | every string of at most 65535 bytes the decoder gives back unchanged is what encoding and decoding gives, in front of any bytes |
| `FixedHeader.Utf8IsReadable` | Shan.MqttBroker/Shan.MqttBroker/packet/fixed_header.cpp:85-134 | every well-formed UTF-8 string without U+0000 is such a string |
| `FixedHeader.Utf8ReadableIff` | Shan.MqttBroker/Shan.MqttBroker/packet/fixed_header.cpp:85-134 | of well-formed UTF-8, exactly the strings without U+0000 |
| `FixedHeader.StringGoesOn` | Shan.MqttBroker/Shan.MqttBroker/packet/fixed_header.cpp:85-134 | whatever has been read of a string, what comes next: U+0000, a surrogate or a character across the declared end is refused, a character not yet arrived is waited for, any other is read, a byte of 0xF8 or above passed over |
| `FixedHeader.LooseExamples` | Shan.MqttBroker/Shan.MqttBroker/packet/fixed_header.cpp:85-134 | a character is as long as its lead byte says, whatever the lead byte and the bytes behind it are in UTF-8 |
| `FixedHeader.ReadableIffDecoded` | Shan.MqttBroker/Shan.MqttBroker/packet/fixed_header.cpp:85-134 | and such strings are exactly the ones ever decoded |
| `FixedHeader.StringConsume` | Shan.MqttBroker/Shan.MqttBroker/packet/fixed_header.cpp:85-134 | for any bytes, a successful decode consumes exactly 2 plus the declared length, and returns that many bytes iff no byte of 0xF8 or above stands in lead position |
| `FixedHeader.DecodeString` | Shan.MqttBroker/Shan.MqttBroker/packet/fixed_header.cpp:85-134 | the method computes that decoding |
| `FixedHeader.EncodeString` | Shan.MqttBroker/Shan.MqttBroker/packet/fixed_header.cpp:136-146 | the method appends the encoding or fails on a longer string |
| `FixedHeader.DecodeHeader` | Shan.MqttBroker/Shan.MqttBroker/packet/fixed_header.cpp:13-46 | the decoding constructor, with its flag checks |
| `PacketLaws.HeaderRoundTrip` | Shan.MqttBroker/Shan.MqttBroker/packet/fixed_header.cpp:78-83 | a serialized fixed header decodes to itself |
| `PacketLaws.PublishBodyRoundTrip` | Shan.MqttBroker/Shan.MqttBroker/packet/mqtt_publish.cpp:11-101 | parsing a serialized PUBLISH followed by any bytes gives the same fields and leaves those bytes |
| `PacketLaws.TopicsOfClients` | Shan.MqttBroker/Shan.MqttBroker/packet/mqtt_publish.cpp:24-34 | the topics a client may publish to, by their bytes |
| `PacketLaws.PublishBodyLength` | Shan.MqttBroker/Shan.MqttBroker/packet/mqtt_publish.cpp:72-88 | exactly `remaining_length` bytes follow the fixed header |
| `PacketLaws.MakePublishIsSendable` | Shan.MqttBroker/Shan.MqttBroker/packet/mqtt_publish.cpp:52-89 | the exact arguments for which the building constructor yields such a packet |
| `PacketLaws.DupIsNotSent` | Shan.MqttBroker/Shan.MqttBroker/player/mqtt_server.cpp:289-297 | setting `dup`, for a first replay or any later one, does not change the bytes sent |
| `PacketLaws.SubscribeRoundTrip` | Shan.MqttBroker/Shan.MqttBroker/packet/mqtt_subscribe.cpp:11-83 | the round trip of SUBSCRIBE, for any number of filters |
| `PacketLaws.SubackRoundTrip` | Shan.MqttBroker/Shan.MqttBroker/packet/mqtt_suback.cpp:11-45 | the round trip of SUBACK, for any number of codes |
| `PacketBytes.ConnectRoundTrip` | Shan.MqttBroker/Shan.MqttBroker/packet/mqtt_connect.cpp:12-59 | a CONNECT with any clean session flag, will, user name and password, written as section 3.1 of MQTT 3.1.1 lays it out, is decoded to its fields and leaves the bytes behind it |
| `PacketBytes.ConnectFlagsExact` | Shan.MqttBroker/Shan.MqttBroker/packet/mqtt_connect.cpp:24-40 | exactly which flag bytes are refused: those with the reserved bit, with a will QoS of 3, or with will bits but no will |
| `PacketBytes.SerializedConnectIff` | Shan.MqttBroker/Shan.MqttBroker/packet/mqtt_connect.cpp:61-124 | what `serialize` writes of a CONNECT is decoded to it if and only if it has no will, because the building constructor leaves the will flag out |
| `PacketBytes.ConnectOnly` | Shan.MqttBroker/Shan.MqttBroker/packet/mqtt_connect.cpp:12-59 | a CONNECT that is taken is a legal one, and its bytes are its encoding unless a string in it lost bytes |
| `PacketBytes.BinaryCut` | Shan.MqttBroker/Shan.MqttBroker/packet/fixed_header.cpp:148-158 | binary data that is not all there is refused, not waited for |
| `PacketBytes.UnsubscribeRoundTrip` | Shan.MqttBroker/Shan.MqttBroker/packet/mqtt_unsubscribe.cpp:12-43 | an UNSUBSCRIBE of any number of filters is decoded to that list, in order and each marked for its table |
| `PacketIO.DecodePublish` | Shan.MqttBroker/Shan.MqttBroker/packet/mqtt_publish.cpp:11-50 | the decoding constructor on the buffer computes the parser's result |
| `PacketIO.DecodeSubscribe` | Shan.MqttBroker/Shan.MqttBroker/packet/mqtt_subscribe.cpp:11-51 | the same for SUBSCRIBE |
| `PacketIO.DecodeUnsubscribe` | Shan.MqttBroker/Shan.MqttBroker/packet/mqtt_unsubscribe.cpp:12-43 | the same for UNSUBSCRIBE, with the wildcard flag derived from the filter |
| `PacketIO.DecodeSuback` | Shan.MqttBroker/Shan.MqttBroker/packet/mqtt_suback.cpp:11-23 | the same for SUBACK |
| `PacketIO.DecodeConnect` | Shan.MqttBroker/Shan.MqttBroker/packet/mqtt_connect.cpp:12-59 | the same for CONNECT |
| `PacketIO.EncodeConnect` | Shan.MqttBroker/Shan.MqttBroker/packet/mqtt_connect.cpp:102-125 | `serialize` writes header and body with the flags the building constructor left, or fails as the source throws |
| `PacketIO.EncodeIdentifier` | Shan.MqttBroker/Shan.MqttBroker/packet/mqtt_pubrel.cpp:16-24 | PUBACK, PUBREC, PUBREL, PUBCOMP and UNSUBACK: the fixed header and the identifier |
| `PacketIO.EncodeConnack` | Shan.MqttBroker/Shan.MqttBroker/packet/mqtt_connack.cpp:23-35 | the fixed header, session present and the return code |
| `PacketIO.EncodePublish` | Shan.MqttBroker/Shan.MqttBroker/packet/mqtt_publish.cpp:91-101 | `serialize` appends header and body, or fails as the source does |
| `PacketIO.MqttSubscribe.AddTopicFilter` | Shan.MqttBroker/Shan.MqttBroker/packet/mqtt_subscribe.cpp:72-83 | adds one filter and keeps the remaining length equal to what will be written |
| `PacketIO.MqttSubscribe.Serialize` | Shan.MqttBroker/Shan.MqttBroker/packet/mqtt_subscribe.cpp:57-70 | writes the fixed header and exactly that many bytes, or fails on a filter too long to encode |
| `PacketIO.MqttSuback.Serialize` | Shan.MqttBroker/Shan.MqttBroker/packet/mqtt_suback.cpp:29-37 | writes the fixed header and exactly that many bytes |
| `PacketIO.MqttSuback.AddReturnCode` | Shan.MqttBroker/Shan.MqttBroker/packet/mqtt_suback.cpp:39-45 | adds one code and keeps the remaining length equal to what will be written |
| `Outlets.Outlet.Publish` | Shan.MqttBroker/Shan.MqttBroker/player/mqtt_client.cpp:17-32 | the method on session objects and channels takes the state machine's delivery step |
| `Outlets.Outlet.HandleAck` | Shan.MqttBroker/Shan.MqttBroker/player/mqtt_client.cpp:34-60 | the four acknowledgement handlers change the session and answer as the state machine does |
| `Outlets.Outlet.Replay` | Shan.MqttBroker/Shan.MqttBroker/player/mqtt_server.cpp:287-302 | the replay loops set `dup` and write every pending packet in order |
| `TopicObjects.Topic.Publish` | Shan.MqttBroker/Shan.MqttBroker/object/topic.cpp:37-53 | keeps a retained message and sends to each client of the topic; true iff there is one |
| `TopicObjects.Topic.PublishRetained` | Shan.MqttBroker/Shan.MqttBroker/object/topic.cpp:55-65 | sends only to a client that is subscribing, with the QoS the topic has for it |
| `TopicObjects.TopicTable.GetToSubscribe` | Shan.MqttBroker/Shan.MqttBroker/player/mqtt_server.cpp:92-115 | finds the topic object or makes a new one, and changes no other |
| `TopicObjects.TopicTable.PublishMatching` | Shan.MqttBroker/Shan.MqttBroker/player/mqtt_server.cpp:337-344 | the scan of the wildcard table, with `sent` as its last topic left it |
| `TopicObjects.TopicIndex.UnsubscribeAll` | Shan.MqttBroker/Shan.MqttBroker/player/mqtt_server.cpp:165-187 | the loop over a session's subscriptions, erasing topics it leaves empty |
| `TopicObjects.TopicIndex.PublishRetained` | Shan.MqttBroker/Shan.MqttBroker/player/mqtt_server.cpp:124-136 | the two loops over subscribed topics; no entry is ever missing |
| `MqttServers.MqttServer.Handle` | Shan.MqttBroker/Shan.MqttBroker/handler/packet_handler.cpp:22-86 | every handler of the object takes exactly one step of the state machine, and so keeps its invariant |
| `MqttServers.MqttServer.HandleConnect` | Shan.MqttBroker/Shan.MqttBroker/player/mqtt_server.cpp:189-307 | CONNECT on the tables, topics and session objects in place |
| `MqttServers.MqttServer.HandlePublish` | Shan.MqttBroker/Shan.MqttBroker/player/mqtt_server.cpp:309-360 | PUBLISH in place |
| `MqttServers.MqttServer.HandleSubscribe` | Shan.MqttBroker/Shan.MqttBroker/player/mqtt_server.cpp:394-452 | SUBSCRIBE in place |
| `MqttServers.MqttServer.HandleUnsubscribe` | Shan.MqttBroker/Shan.MqttBroker/player/mqtt_server.cpp:454-490 | UNSUBSCRIBE in place |
| `MqttServers.MqttServer.HandleAck` | Shan.MqttBroker/Shan.MqttBroker/player/mqtt_server.cpp:362-392 | the acknowledgements in place |
| `MqttServers.MqttServer.HandleDisconnect` | Shan.MqttBroker/Shan.MqttBroker/player/mqtt_server.cpp:500-517 | DISCONNECT in place |
| `MqttServers.MqttServer.HandleChannelDisconnected` | Shan.MqttBroker/Shan.MqttBroker/player/mqtt_server.cpp:519-539 | the loss of a channel in place |
| `MqttServers.MqttServer.PublishWill` | Shan.MqttBroker/Shan.MqttBroker/player/mqtt_server.cpp:142-163 | the will message in place |

## Left out

- Sockets, TLS, the thread pool, idle timers, keep-alive and `main.cpp`: plumbing around an unseen library. Writes are appended to a log; `channel_context_of` is taken to find every channel whose loss has not been handled.
- `streambuf` is not part of this model beyond a byte sequence with cursor, mark and reset; `read_uint16` is taken to be big-endian and to report missing bytes the way `read_uint8` does.
- Configuration, logging, printers and `rand()`: the return code of the integrity and authentication checks, the admin flag and the generated id are parameters of CONNECT.
- A second CONNECT on a channel and a wrong protocol name: the source calls `close()` and goes on; runs have one CONNECT per channel.
- CONNECT with an empty client id is outside `Possible`; `AnonymousCollide` and `AnonymousExample` say what goes wrong there.
- Lock interleavings: handlers are atomic steps. `handle_unsubscribe` tests and erases a topic under separate locks.
- Exactly-once for inbound QoS 2: `handle_publish` forwards on every receipt and only notes the identifier (`InboundRecorded`).
- Messages for offline clients: the source unsubscribes them, nothing is queued.
- `$sys/trash` is outside the index invariant: the source never takes a client out of it.
- PINGREQ and its answer: easy. Serializing UNSUBSCRIBE: the source throws.
- Frames.FrameIff: for CONNECT asks that no string in the frame lost bytes in decoding; such frames are taken too, and `ConnectOnly` says what for.
- Client objects are values: their fields are fixed once CONNECT has been handled. What is lost is only the identity of client objects on one channel, and there is one per channel.
- The packet identifier of a QoS 0 packet is uninitialised in the source and never sent; the model has 0.
- Sessions.Session.NewPacketId: reports "not found" where the source's loop never ends, after one candidate more than there are identifiers in use.
- TopicObjects.Topic.PublishRetained: returns false where the source throws; `PublishRetained` of the index shows that it does not happen.
- FixedHeader.StringConsume: decoding does not check the continuation bytes of a character, so it accepts some byte strings that are not UTF-8; of those only the round trip is claimed (`StringRoundTrip`).
