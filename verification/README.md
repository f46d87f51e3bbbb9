# Dissent session set-up, state machine, round intake and BlogDrop proof — a Dafny model

Dissent groups a few servers and many clients into anonymous-communication
rounds. Before a round can run, the servers and clients go through a
signed set-up protocol:

- the proposer (the first configured server) broadcasts an **Init**;
- every server answers with an **Enlist**, and the hash of all Enlist
  payloads becomes the round id;
- the servers exchange **Agree** messages over that round id;
- clients **Queue** at a server, get a **Queued** reply that carries the
  agreed server list, and **Register**;
- the servers exchange their client **List**s, then sign the hash of the
  merged list in a **VerifyList**;
- each server sends the client list and all server signatures to its
  clients in a **Start**;
- the session then creates and starts the round.

This project models that core as pure functions over immutable datatypes.

- `ServerSession` and `ClientSession` are the two protocol sides. Each
  handler takes the session state, an environment and the notification,
  and returns the new state plus the list of effects it caused. Effects
  are notifications sent, timers set, the round created or started, and
  the state machine told to complete.
- `Session` holds what both sides share: the send queue, the server and
  client lists, round creation, buffering of round data that arrives
  early, and the agreement check.
- `StateMachine` is the generic message-driven machine. It classifies each
  message, stores messages for later, completes a state and replays what
  was stored.
- `SessionState` holds the session states built on that machine,
  `DummyState` among them, and the machine the server session configures.
- `DataQueue` is the send queue that packs messages into a round's byte
  budget.
- `Round` models the round base class's intake and verification;
  `NullRound` is the round that simply echoes every member's block.
- `Roster` is the ordered list of identities a round is built from.
- The signed messages, one module each: `InitMessage`, `EnlistMessage`,
  `AgreeMessage`, `RegisterMessage`, `ListMessage`, `StartMessage` and
  `StopMessage`. They share a QDataStream-style encoding in `Wire`.
- `ServerCiphertext` is the BlogDrop server ciphertext. It carries a
  Chaum–Pedersen proof that the server used the same secret for its public
  key and for its ciphertext element. It is built on `ModArith`, the
  modular arithmetic of a prime-order subgroup.

Signing, signature checks, key validity and hashing are parameters of the
environment records. The clock and the random nonces and keys are explicit
inputs. A `Connections::Id` is a natural number: only equality and QMap's
ascending key order are used. QMap iteration is `SortedKeys` and
`ValuesByKey` in `Common`.

Several behaviours of the code are modelled as written, and lemmas state
what follows from them:

- A client's `HandleStart` leaves the phase at registering, so a second
  copy of an accepted Start builds another round
  (`ClientSession.RepeatedStartRestarts`).
- A client's `HandleConnection` rechecks the connections only when the new
  peer is *not* a server.
- A client stores the agreed server list from a Queued reply before it
  checks the list (`ClientSession.HandleQueued`).
- In `ServerSession.HandleAgree`, the lookup of the sender's Enlist cannot
  fail once the invariant holds (`ServerSession.AgreeingHasAllEnlists`).
  The model still keeps that branch.
- The Agree check compares the ephemeral key in the Agree with the one in
  the Enlist as shared pointers to key objects. Each message builds its own
  key object when it is parsed, so as written no Agree ever matches its
  Enlist. `ServerSession.HandleAgreeAsWritten` models that comparison, and
  `ServerSession.HandleAgree` compares the key bytes (see "## Findings").

## Model

| member | source | states |
|---|---|---|
| Wire.DecodeEncodeNat | src/Session/ServerStart.hpp:25-32 | a length prefix decodes back to the number written, leaving the following bytes untouched |
| Wire.ReadNat | src/Session/ServerInit.hpp:26-34 | once a stream has failed every further read yields the default value and leaves the stream as it was |
| Wire.ReadNatEncoded | src/Session/ServerInit.hpp:26-34 | reading a number back from its own encoding recovers it and resumes right after it |
| Wire.ReadInt64 | src/Session/ServerInit.hpp:30-33 | a failed stream yields timestamp 0 and stays failed |
| Wire.ReadInt64Encoded | src/Session/ServerInit.hpp:43-54 | a qint64 timestamp written and read back is the same timestamp, sign included |
| Wire.ReadBool | src/Session/ServerStop.hpp:28-36 | a failed stream yields false and stays failed |
| Wire.ReadBoolEncoded | src/Session/ServerStop.hpp:44-53 | a flag written and read back is the same flag |
| Wire.ReadId | src/Session/ClientRegister.hpp:29-37 | a failed stream yields id 0 and stays failed |
| Wire.EncodeBytes | src/Session/ServerInit.hpp:43-54 | a byte array's encoding is strictly longer than the array, because it carries its length |
| Wire.ReadBytes | src/Session/ServerInit.hpp:26-34 | a failed stream yields the empty array; a successful read consumes input |
| Wire.DecodeShrinks | src/Session/ServerInit.hpp:26-34 | decoding a length prefix always consumes at least one byte |
| Wire.ReadBytesEncoded | src/Session/ClientRegister.hpp:29-37 | a byte array written and read back is the same array, and reading resumes right after it |
| Wire.ReadItems | src/Session/ServerStart.hpp:25-32 | a successful read of n list items yields exactly n items, a failed one none |
| Wire.ReadList | src/Session/ServerStart.hpp:25-32 | a list read from a failed stream is empty and the stream stays failed |
| Wire.ReadItemsEncoded | src/Session/ServerStart.hpp:41-51 | n items written and read back as n items are the same items in the same order |
| Wire.ReadListEncoded | src/Session/ServerStart.hpp:25-51 | a QList of byte arrays written and read back is the same list |
| Wire.OpenEnvelopeRoundTrip | src/Session/ServerInit.hpp:107-112 | opening the signed packet gives back the payload and the signature it was built from |
| Wire.EnvelopeInjective | src/Session/ServerInit.hpp:107-112 | two signed packets are equal only when both payloads and both signatures are equal |
| InitMessage.FromFields | src/Session/ServerInit.hpp:43-54 | an Init built from fields keeps those fields and has no packet or signature yet |
| InitMessage.FromPacket | src/Session/ServerInit.hpp:26-34 | an Init parsed from a packet keeps the packet, and its payload and signature are the packet's two parts |
| InitMessage.SetSignature | src/Session/ServerInit.hpp:107-112 | signing keeps every field and payload and makes a packet that opens to (payload, signature) |
| InitMessage.ReadEncodedFields | src/Session/ServerInit.hpp:26-54 | the payload's four fields read back to the id, nonce, timestamp and group id written |
| InitMessage.RoundTrip | src/Session/ServerInit.hpp:26-112 | parsing a signed Init's packet recovers the sender, nonce, timestamp, group id, payload and signature |
| InitMessage.StreamRoundTrip | src/Session/ServerInit.hpp:126-138 | an Init written into a stream reads back as the same message, with the stream positioned after it |
| EnlistMessage.FromFields | src/Session/ServerEnlist.hpp:52-63 | an Enlist built from fields keeps the sender, the embedded Init, the key and the optional data |
| EnlistMessage.FromPacket | src/Session/ServerEnlist.hpp:32-43 | parsing keeps the packet and splits it into payload and signature |
| EnlistMessage.SetSignature | src/Session/ServerEnlist.hpp:125-130 | signing keeps every field and makes a packet that opens to (payload, signature) |
| EnlistMessage.ReadEncodedFields | src/Session/ServerEnlist.hpp:32-63 | the payload's fields read back to the sender, Init packet, key and optional data written |
| EnlistMessage.RoundTrip | src/Session/ServerEnlist.hpp:32-130 | parsing a signed Enlist's packet recovers the whole message, provided its embedded Init is itself its packet's parse |
| EnlistMessage.StreamRoundTrip | src/Session/ServerEnlist.hpp:144-156 | an Enlist written into a stream reads back as the same message |
| AgreeMessage.FromFields | src/Session/ServerSession.cpp:299-301 | an Agree built from fields keeps the sender, round id, key and optional data |
| AgreeMessage.FromPacket | src/Session/ServerSession.cpp:353-354 | parsing keeps the packet and splits it into payload and signature |
| AgreeMessage.SetSignature | src/Session/ServerSession.cpp:302 | signing keeps every field and makes a packet that opens to (payload, signature) |
| AgreeMessage.ReadEncodedFields | src/Session/ServerSession.cpp:299-302 | the payload's fields read back to the sender, round id, key and optional data written |
| AgreeMessage.RoundTrip | src/Session/ServerSession.cpp:299-354 | the Agree a server sends parses, at every receiver, to the fields and signature it was built from |
| AgreeMessage.StreamRoundTrip | src/Session/SessionSharedState.cpp:36-41 | an Agree written into a stream reads back as the same message |
| AgreeMessage.Packets | src/Session/SessionSharedState.cpp:40 | the list of packets is the Agrees' packets, in list order |
| AgreeMessage.DeserializeList | src/Session/ClientSession.cpp:99-137 | each entry of a parsed list is an Agree parsed from its own packet |
| AgreeMessage.ListRoundTrip | src/Session/SessionSharedState.cpp:36-41 | a serialized server list of well-formed Agrees parses back to the same list |
| RegisterMessage.FromFields | src/Session/ClientRegister.hpp:46-57 | a Register built from fields keeps the sender, round id, key and optional data |
| RegisterMessage.FromPacket | src/Session/ClientRegister.hpp:29-37 | parsing keeps the packet and splits it into payload and signature |
| RegisterMessage.SetSignature | src/Session/ClientRegister.hpp:119-124 | signing keeps every field and makes a packet that opens to (payload, signature) |
| RegisterMessage.ReadEncodedFields | src/Session/ClientRegister.hpp:29-57 | the payload's fields read back to the sender, round id, key and optional data written |
| RegisterMessage.RoundTrip | src/Session/ClientRegister.hpp:29-124 | parsing a signed Register's packet recovers its fields, payload and signature |
| RegisterMessage.StreamRoundTrip | src/Session/ClientRegister.hpp:138-150 | a Register written into a stream reads back as the same message |
| RegisterMessage.Packets | src/Session/ServerList.hpp:24-29 | the list of packets is the Registers' packets, in list order |
| RegisterMessage.DeserializeList | src/Session/ServerList.hpp:16-22 | each entry of a parsed list is a Register parsed from its own packet |
| RegisterMessage.ListRoundTrip | src/Session/ServerList.hpp:16-29 | a serialized client list of well-formed Registers parses back to the same list |
| StopMessage.FromFields | src/Session/ServerStop.hpp:44-53 | a Stop built from fields keeps the round id, the immediate flag and the reason |
| StopMessage.FromPacket | src/Session/ServerStop.hpp:28-36 | parsing keeps the packet and splits it into payload and signature |
| StopMessage.SetSignature | src/Session/ServerStop.hpp:108-113 | signing keeps every field and makes a packet that opens to (payload, signature) |
| StopMessage.ReadEncodedFields | src/Session/ServerStop.hpp:28-53 | the payload's fields read back to the round id, flag and reason written |
| StopMessage.RoundTrip | src/Session/ServerStop.hpp:28-113 | parsing a signed Stop's packet recovers its fields, payload and signature |
| StopMessage.StreamRoundTrip | src/Session/ServerStop.hpp:126-138 | a Stop written into a stream reads back as the same message |
| ListMessage.FromList | src/Session/ServerList.hpp:24-29 | a List built from registrations has their serialized list as its payload |
| ListMessage.FromListAndBytes | src/Session/ServerList.hpp:31-37 | a List built with precomputed bytes uses those bytes as its payload |
| ListMessage.FromPacket | src/Session/ServerList.hpp:16-22 | parsing keeps the packet, splits it, and parses the registration list out of the payload |
| ListMessage.SetSignature | src/Session/ServerList.hpp:59-64 | signing keeps the payload and list and makes a packet that opens to (payload, signature) |
| ListMessage.RoundTrip | src/Session/ServerList.hpp:16-64 | parsing a signed List's packet recovers its payload, its signature and, for well-formed registrations, the same client list |
| ListMessage.StreamRoundTrip | src/Session/ServerList.hpp:76-88 | a List written into a stream reads back as the List parsed from its packet |
| StartMessage.FromFields | src/Session/ServerStart.hpp:41-51 | precomputed register bytes are used when non-empty, otherwise the list is serialized; the packet carries bytes and signatures |
| StartMessage.FromPacket | src/Session/ServerStart.hpp:25-32 | parsing keeps the packet and parses the client list out of the register bytes |
| StartMessage.RoundTrip | src/Session/ServerStart.hpp:25-51 | a Start's packet parses back to the same register bytes and signatures, and to the same client list for well-formed registrations |
| StartMessage.StreamRoundTrip | src/Session/ServerStart.hpp:93-105 | a Start written into a stream reads back as the same message |
| Roster.Index | src/Identity/Roster.cpp:5-11 | the id index holds exactly the listed ids, each at the position of its last occurrence |
| Roster.Count | src/Identity/Roster.hpp:52 | the count is the number of members, and it is zero exactly when no id is listed |
| Roster.Contains | src/Identity/Roster.cpp:21-24 | an id is contained exactly when some member carries it |
| Roster.GetIndex | src/Identity/Roster.cpp:13-19 | -1 exactly for ids not listed, otherwise the position of the member carrying the id |
| Roster.GetKey | src/Identity/Roster.cpp:26-34 | no key exactly for ids not listed, otherwise the key of the member carrying the id |
| Roster.IndexOfMember | src/Identity/Roster.cpp:5-34 | with distinct ids, each member is found at its own position with its own key |
| Round.New | src/Anonymity/Round.cpp:9-25 | a new round keeps its rosters and nonce and is neither started, stopped, successful nor interrupted |
| Round.Start | src/Anonymity/Round.cpp:27-30 | starting marks the round started, and the round still takes data from exactly the senders it took data from before |
| Round.Stop | src/Anonymity/Round.cpp:32-39 | stopping marks the round stopped, and from then on every incoming request is dropped |
| Round.IncomingData | src/Anonymity/Round.cpp:37-61 | data reaches the round exactly when the round is not stopped and the sender is a member; it is forwarded under the sender's id |
| Round.Verify | src/Anonymity/Round.cpp:63-82 | data from a peer with no server key never verifies; otherwise the trailing signature must verify over the message in front of it |
| Round.VerifyIgnoresClients | src/Anonymity/Round.cpp:63-82 | verification depends on the server roster only; changing the clients never changes its outcome |
| Round.HandleDisconnect | src/Anonymity/Round.cpp:84-90 | a member's disconnect interrupts and stops the round, after which all data is dropped; anyone else's changes nothing |
| DataQueue.New | src/Session/Session.hpp:250 | a new queue is empty with nothing consumed |
| DataQueue.AddData | src/Session/Session.hpp:256-259 | adding appends the message after all existing ones and keeps the consumed count |
| DataQueue.UnGet | src/Session/Session.hpp:272-275 | un-getting keeps every message and makes the next GetData start again from the front of the queue |
| DataQueue.Start | src/Session/SessionSharedState.cpp:103-105 | a GetData first drops exactly the messages the previous GetData consumed |
| DataQueue.Fitting | src/Session/SessionSharedState.cpp:110-115 | the messages kept for packing each fit the budget on their own |
| DataQueue.FittingConcat | src/Session/SessionSharedState.cpp:107-121 | the oversize filter works message by message, so it distributes over concatenation |
| DataQueue.Pack | src/Session/SessionSharedState.cpp:107-120 | the packing loop stops at the first fitting message that would overflow the budget, having packed every fitting message before it |
| DataQueue.GetData | src/Session/SessionSharedState.cpp:101-126 | the batch is the in-order concatenation of the fitting consumed messages, within the budget; "more" holds exactly when messages remain |
| DataQueue.FittingExcludesOversize | src/Session/SessionSharedState.cpp:110-115 | an oversize message is left out and the messages around it keep their order |
| DataQueue.UnGetReoffers | src/Session/Session.hpp:272-275 | GetData after UnGet returns the same batch and queue as the GetData before it |
| DataQueue.OversizeDropped | src/Session/SessionSharedState.cpp:110-124 | a consumed oversize message is never in a batch and is trimmed away by the next GetData |
| DataQueue.AddDataKeepsOrder | src/Session/Session.hpp:256-259 | a message added later is offered after everything not yet consumed |
| NullRound.New | src/Anonymity/NullRound.cpp:5-15 | one empty slot per server and per client, nothing heard and no message counted |
| NullRound.SlotLayout | src/Anonymity/NullRound.cpp:30-35 | servers occupy the first slots in roster order and clients the slots after them |
| NullRound.NonEmpty | src/Anonymity/NullRound.cpp:57-61 | only non-empty blocks are pushed, all of them and in slot order; a single block is pushed exactly when it is non-empty |
| NullRound.NonEmptyConcat | src/Anonymity/NullRound.cpp:57-61 | the filter works block by block, so the blocks of a later slot are pushed after those of an earlier one |
| NullRound.ProcessDataAsWritten | src/Anonymity/NullRound.cpp:37-48 | as written: a slot counts as filled only once it holds non-empty data, so an empty block leaves it open; an accepted block is stored and its slot heard, and on the last count the non-empty blocks are pushed in slot order and the round succeeds and stops |
| NullRound.EmptyRepeatCompletes | src/Anonymity/NullRound.cpp:37-65 | as written, one member sending an empty block twice completes a two-member round while the other member is unheard |
| NullRound.ProcessData | src/Anonymity/NullRound.cpp:27-65 | each slot is accepted at most once; out-of-range slots and repeats change nothing |
| NullRound.CompletesOnlyWhenAllHeard | src/Anonymity/NullRound.cpp:53-64 | the round succeeds and stops exactly when every slot has been heard from, and the message count equals the number of slots heard |
| NullRound.RunFillsSlots | src/Anonymity/NullRound.cpp:47-48 | a run of fresh arrivals stores each block in its slot and leaves every other slot as it was |
| NullRound.DeliversInSlotOrder | src/Anonymity/NullRound.cpp:57-61 | once every member has sent, the delivered data is the non-empty blocks in slot order, whatever the arrival order |
| NullRound.RunCompletes | src/Anonymity/NullRound.cpp:53-64 | a run that hears every slot once ends with the round successful and stopped |
| NullRound.AsWrittenMatchesCorrected | src/Anonymity/NullRound.cpp:37-65 | when every slot not yet heard is empty and each slot arrives at most once, the code as written and the corrected intake end in the same round with the same pushed data |
| NullRound.IncomingData | src/Anonymity/Round.cpp:37-61 | data the base round drops, and all data once the round is stopped, changes nothing; forwarded data goes, through the code as written, to the sender's slot |
| NullRound.IncomingDataCorrected | src/Anonymity/Round.cpp:37-61 | the same routing into the corrected intake, which accepts each slot once |
| NullRound.OnStart | src/Anonymity/NullRound.cpp:17-25 | starting marks the round started and broadcasts one GetData batch of at most 1024 bytes, under "data"; the queue becomes the one GetData leaves |
| NullRound.SessionData | src/Anonymity/NullRound.cpp:17-25 | the hash a round broadcasts carries its data under "data", which is exactly what a receiving round extracts |
| NullRound.OnStartDelivered | src/Anonymity/NullRound.cpp:17-48 | what a round broadcasts on start reaches a member's round as exactly the sender's batch, in the sender's slot |
| Session.Send | src/Session/Session.cpp:27-30 | only the send queue changes, and the data is offered after everything not yet consumed |
| Session.ServerBytesMatchList | src/Session/SessionSharedState.cpp:36-41 | the stored server bytes parse back to the stored server list |
| Session.ServerRoster | src/Session/Session.cpp:45-50 | the server roster lists the agreed servers' ids and keys in agreement order |
| Session.ClientRoster | src/Session/Session.cpp:52-57 | the client roster lists the registered clients' ids and keys in list order |
| Session.NextRound | src/Session/Session.cpp:40-78 | a new round over the current rosters and round id replaces the old one; it is neither started nor stopped, takes data from exactly the agreed servers and registered clients, and is handed exactly the buffered requests |
| Session.Feed | src/Session/Session.cpp:105-112 | every request fed in is routed, one outcome per request |
| Session.BufferedThenReplayed | src/Session/Session.cpp:40-112 | requests arriving before a round starts are all buffered and replayed to the next round in arrival order |
| Session.HandleRoundFinishedSlot | src/Session/Session.cpp:80-103 | only the consumed count of the send queue can change; the finish is announced exactly when it is the current round's, the session continues exactly when it was announced and is not stopped, and a failed round's messages are offered again |
| Session.RoundFinished | src/Session/SessionSharedState.cpp:128-133 | the messages are kept, and after a failed round the next GetData starts again from the front of the queue |
| Session.FailedRoundReoffers | src/Session/SessionSharedState.cpp:128-133 | after a failed round the next batch is the one the failed round took |
| Session.CheckServerAgree | src/Session/Session.cpp:157-181 | an Agree passes exactly when its signature, its ephemeral key and its round id all check out |
| Session.CheckServerAgreeOrThrow | src/Session/SessionSharedState.cpp:43-63 | the throwing check reports the first failing test, in the code's order |
| Session.CheckVariantsAgree | src/Session/SessionSharedState.cpp:43-63 | the boolean check and the throwing check accept exactly the same Agrees |
| StateMachine.New | src/Messaging/StateMachine.hpp:16-19 | a new machine has its shared data and nothing registered, current, stored or finished |
| StateMachine.CheckPacket | src/Messaging/State.hpp:53-64 | own type is Process; otherwise Store, Restart or Ignore in that order of precedence, each exactly when the earlier ones fail |
| StateMachine.Instantiate | src/Messaging/StateMachine.hpp:82 | there is a state exactly when a factory is registered under the id, and it is that factory's |
| StateMachine.AddState | src/Messaging/StateMachine.hpp:25-37 | the factory is registered under its own id, every other registration is kept, and nothing else changes |
| StateMachine.AddTransition | src/Messaging/StateMachine.hpp:45-48 | the state gets this one successor, every other transition is kept, and nothing else changes |
| StateMachine.SetState | src/Messaging/StateMachine.hpp:91-97 | an unknown id changes nothing; a known one makes a fresh state of that id current |
| StateMachine.ProcessData | src/Messaging/StateMachine.hpp:50-76 | ignored messages change nothing, stored ones are appended, processed and restart ones go to the state; registrations never change |
| StateMachine.Dispatch | src/Messaging/StateMachine.hpp:61-76 | the state's updates to the shared data are kept even when it throws; NextState completes the state and Finished switches to the finished state |
| StateMachine.Moved | src/Messaging/StateMachine.hpp:80-85 | the successor's fresh state is current, the lookup has recorded the successor (state 0 when none was registered), the storage is empty, and shared data and registrations are untouched |
| StateMachine.StateComplete | src/Messaging/StateMachine.hpp:78-89 | completing a state is moving to its successor and then replaying the stored messages, in arrival order, against the successor; registrations never change |
| StateMachine.Replay | src/Messaging/StateMachine.hpp:84-88 | replaying nothing changes nothing, and replaying never changes what is registered |
| StateMachine.ReplayAppend | src/Messaging/StateMachine.hpp:84-88 | replaying a concatenation is replaying the first part and then the second |
| SessionState.Value | src/Session/SessionState.hpp:20-26 | state names are the ids 0 to 4 |
| SessionState.ValuesInOrder | src/Session/SessionState.hpp:20-26 | distinct names have distinct ids, from Offline = 0 to Communicating = 4 |
| SessionState.NewSessionState | src/Session/SessionState.hpp:39-58 | a session state restarts on exactly the ServerStop messages and keeps the given id, type, store and process behaviour |
| SessionState.StopRestarts | src/Session/SessionState.hpp:54-58 | a foreign, unstored message restarts a session state exactly when it is a ServerStop, and is otherwise ignored |
| SessionState.Dummy | src/Session/DummyState.hpp:13-35 | DummyState is state ServerInit for ServerInit messages, stores everything else, and processing changes nothing |
| SessionState.Parked | src/Session/DummyState.hpp:31-34 | the messages kept are exactly those not of type ServerInit, in arrival order; a single message is kept exactly when it is not a ServerInit |
| SessionState.ParkedConcat | src/Session/DummyState.hpp:31-34 | parking works message by message, so later messages are parked after earlier ones |
| SessionState.DummyProcessData | src/Session/DummyState.hpp:23-34 | in DummyState a ServerInit changes nothing and every other message is stored |
| SessionState.DummyReplay | src/Session/DummyState.hpp:23-34 | any sequence of messages leaves DummyState current and parks every message not of type ServerInit, in order |
| SessionState.ServerSessionMachine | src/Session/ServerSession.cpp:26-33 | the server machine starts in DummyState and alternates between ServerInit and Communicating |
| SessionState.ServerSessionParksUntilRound | src/Messaging/StateMachine.hpp:78-89 | messages before a round only pile up, and completing the state replays them all, in order, into the communicating state |
| ServerSession.New | src/Session/ServerSession.cpp:18-42 | a new server session is offline with nothing collected |
| ServerSession.Broadcast | src/Session/ServerSession.cpp:140-142 | one identical notification per configured server, in list order |
| ServerSession.ServerCount | src/Session/ServerSession.cpp:96-105 | every connection is counted at most once, and all of them exactly when all are servers |
| ServerSession.OnStart | src/Session/ServerSession.cpp:55-59 | starting waits for servers and Init and then checks the connections |
| ServerSession.HandleConnection | src/Session/ServerSession.cpp:83-94 | only a new server connection makes the session check the connections; the Agree, registration and list stages are untouched, the session moves only to waiting for Init or to enlisting, and it sends, to servers only, only when all servers are connected |
| ServerSession.CheckServers | src/Session/ServerSession.cpp:96-122 | nothing is sent until every configured server is connected; then the proposer sends Init and waits for it, a server that already holds its Init broadcasts its Enlist, and others wait for the Init; later stages are untouched |
| ServerSession.InitMessageOf | src/Session/ServerSession.cpp:131-138 | the proposer's Init carries its id, zero nonce and group id, the current time, and its own signature |
| ServerSession.SendInit | src/Session/ServerSession.cpp:131-143 | every configured server, in list order, receives an Init that parses to the proposer's id, the current time and the all-zero nonce |
| ServerSession.InitPacketParses | src/Session/ServerSession.cpp:131-168 | every server parsing the proposer's Init packet sees the proposer's id, the all-zero nonce, the time, and the proposer's signature over the Init payload |
| ServerSession.HandleInit | src/Session/ServerSession.cpp:145-168 | an Init while offline is queued; once online only the proposer's Init can change anything, and it goes through ProcessInit; later stages are untouched and the session moves only to waiting for servers or to enlisting |
| ServerSession.ProcessInit | src/Session/ServerSession.cpp:170-200 | the same Init again is accepted with no effect; a new valid Init is stored and answered with an Enlist |
| ServerSession.ProcessInitIdempotent | src/Session/ServerSession.cpp:170-176 | delivering an accepted Init again is accepted and changes nothing |
| ServerSession.EnlistOf | src/Session/ServerSession.cpp:202-212 | the Enlist carries this server's id, the Init, the new ephemeral key and DH component, and its signature |
| ServerSession.SendEnlist | src/Session/ServerSession.cpp:202-218 | enlisting clears the Enlists and broadcasts an Enlist that every server parses back to this server's id, the accepted Init and the new ephemeral key |
| ServerSession.EnlistOfParses | src/Session/ServerSession.cpp:202-212 | an Enlist whose Init parses back to itself parses back to the whole Enlist |
| ServerSession.EnlistPayloads | src/Session/ServerSession.cpp:293-296 | the Enlist payloads are hashed in ascending sender-id order |
| ServerSession.AgreeOf | src/Session/ServerSession.cpp:298-300 | the Agree carries this server's id, the round id, the key and DH component it enlisted with, and its signature |
| ServerSession.HandleEnlist | src/Session/ServerSession.cpp:220-317 | an Enlist while offline is queued, one from a non-server is dropped, and a server's passes the Init and signature checks before it is stored; registrations and lists are never touched and the session only moves forward |
| ServerSession.AcceptEnlist | src/Session/ServerSession.cpp:252-317 | a duplicate is dropped, one that arrives while waiting for servers is queued, and otherwise it is stored; the last one ends enlisting |
| ServerSession.FinishEnlist | src/Session/ServerSession.cpp:289-316 | the round id is the hash of all Enlist payloads; the Agree is broadcast and the queued Agrees are replayed |
| ServerSession.CallsTo | src/Session/ServerSession.cpp:309-316 | exactly the queued notifications for one method, Agree here and VerifyList at lines 580-587, in arrival order; a single notification is kept exactly when it is for that method |
| ServerSession.CallsToConcat | src/Session/ServerSession.cpp:309-316 | the selection works notification by notification, so it distributes over concatenation of the queue |
| ServerSession.ReplayAgrees | src/Session/ServerSession.cpp:309-316 | replaying the queued Agrees keeps the round id and leaves the queue empty |
| ServerSession.HandleAgree | src/Session/ServerSession.cpp:319-404 | early Agrees are queued; one Agree per server that passes every check is stored, and the last one moves to registering |
| ServerSession.HandleAgreeAsWritten | src/Session/ServerSession.cpp:366-368 | with the keys compared as objects, an Agree is stored only when its key object is its Enlist's; nothing else about the Enlist changes |
| ServerSession.AsWrittenNeverAgrees | src/Session/ServerSession.cpp:366-368 | when no Enlist shares a key object with an Agree, the as-written check stores no Agree and never opens registration |
| ServerSession.MatchingAgreeStored | src/Session/ServerSession.cpp:358-382 | an Agree that passes the session checks and repeats its Enlist's id, key and optional data is stored by the byte comparison and dropped by the object comparison |
| ServerSession.FinishAgree | src/Session/ServerSession.cpp:384-404 | the session's servers are the Agrees in ascending id order, and their serialisation parses back to that list; the register timer restarts and every early client gets a Queued reply with its own nonce |
| ServerSession.AgreeBytesParse | src/Session/SessionSharedState.cpp:36-41 | the stored serialisation of well-formed Agrees parses back to them in ascending id order |
| ServerSession.QueuedReplies | src/Session/ServerSession.cpp:399-403 | one Queued reply per early client, in ascending id order, each with the agreed server list |
| ServerSession.HandleQueue | src/Session/ServerSession.cpp:406-435 | only clients are served and only the kept nonces can change; at most one reply is sent, only while registering, echoing the client's nonce with the agreed list; otherwise the nonce is kept under the client's id |
| ServerSession.HandleRegister | src/Session/ServerSession.cpp:437-477 | a registration is kept only while registering, from a client, and only if it checks out |
| ServerSession.ListOf | src/Session/ServerSession.cpp:502-512 | the List carries this server's registrations, serialized, and its signature |
| ServerSession.FinishClientRegister | src/Session/ServerSession.cpp:495-512 | moving to rostering makes the registrations, in ascending id order, the session's clients, and every server receives a List that parses back to exactly that client list |
| ServerSession.ListBroadcastParses | src/Session/ServerSession.cpp:495-512 | when every registration re-parses, each server's copy of the signed List parses back to the registrations in ascending id order |
| ServerSession.PeerIds | src/Session/ServerSession.cpp:552-557 | exactly the ids the list's entries carry |
| ServerSession.RegisterAll | src/Session/ServerSession.cpp:552-557 | every entry is filed under its own id; ids not in the list keep their entry |
| ServerSession.HandleList | src/Session/ServerSession.cpp:514-588 | one List per server, accepted only in the phases that may receive it and only if every entry carries the round id and its client's valid signature; the List's own signature is not checked |
| ServerSession.FinishList | src/Session/ServerSession.cpp:568-587 | the merged client list is hashed and signed, and the signature goes to every server; the Enlists and Init are kept and the session is verifying or, after the queued VerifyLists, communicating |
| ServerSession.ReplayVerifyLists | src/Session/ServerSession.cpp:580-587 | replaying queued VerifyLists keeps the hashed client list, the clients, the Enlists and the Init, and moves the session at most to communicating |
| ServerSession.HandleVerifyList | src/Session/ServerSession.cpp:590-656 | VerifyLists while rostering are queued; one valid signature per server is kept and the last starts the round |
| ServerSession.StartOf | src/Session/ServerSession.cpp:643-647 | the Start carries the client list and every server's signature in ascending server-id order |
| ServerSession.RegisteredConnections | src/Session/ServerSession.cpp:648-652 | Start goes to exactly the connected peers that registered here |
| ServerSession.StartCommunicating | src/Session/ServerSession.cpp:643-655 | the session communicates in a new round and the Start reaches each registered connection before the round starts |
| ServerSession.RoundStartEffects | src/Session/ServerSession.cpp:643-655 | the round is created with the buffered requests and the state completed, then Start is sent to each peer in order, then the round starts |
| ServerSession.HandleRoundFinished | src/Session/ServerSession.cpp:65-81 | after a round every per-round collection is emptied and the session waits for servers and Init again |
| ServerSession.Cleared | src/Session/ServerSession.cpp:65-81 | clearing keeps the queue and shared session and waits for servers and Init |
| ServerSession.NewInv | src/Session/ServerSession.cpp:18-42 | a new session satisfies the invariant: every kept Enlist, Agree, registration and list signature is keyed by its sender, every server has an Enlist while agreeing, and a server waiting for servers holds an Init |
| ServerSession.FullEnlists | src/Session/ServerSession.cpp:283-289 | as many Enlists from distinct configured servers as there are servers means one from every server |
| ServerSession.ProcessInitInv | src/Session/ServerSession.cpp:170-200 | processing an Init keeps the invariant |
| ServerSession.CheckServersInv | src/Session/ServerSession.cpp:96-122 | checking the connections keeps the invariant |
| ServerSession.HandleAgreeInv | src/Session/ServerSession.cpp:319-404 | handling an Agree keeps the invariant |
| ServerSession.ReplayAgreesInv | src/Session/ServerSession.cpp:309-316 | replaying queued Agrees keeps the invariant |
| ServerSession.FinishEnlistInv | src/Session/ServerSession.cpp:289-316 | ending enlisting with every server's Enlist keeps the invariant |
| ServerSession.AcceptEnlistInv | src/Session/ServerSession.cpp:252-317 | accepting an Enlist keeps the invariant |
| ServerSession.HandleEnlistInv | src/Session/ServerSession.cpp:220-317 | handling an Enlist keeps the invariant |
| ServerSession.OnStartInv | src/Session/ServerSession.cpp:55-59 | starting keeps the invariant |
| ServerSession.HandleConnectionInv | src/Session/ServerSession.cpp:83-94 | a new connection keeps the invariant |
| ServerSession.HandleInitInv | src/Session/ServerSession.cpp:145-168 | handling an Init keeps the invariant |
| ServerSession.HandleQueueInv | src/Session/ServerSession.cpp:406-435 | handling a Queue keeps the invariant |
| ServerSession.HandleRegisterInv | src/Session/ServerSession.cpp:437-477 | handling a Register keeps the invariant |
| ServerSession.FinishClientRegisterInv | src/Session/ServerSession.cpp:495-512 | the end of registration keeps the invariant |
| ServerSession.HandleListInv | src/Session/ServerSession.cpp:514-588 | handling a List keeps the invariant |
| ServerSession.FinishListInv | src/Session/ServerSession.cpp:568-587 | the end of rostering keeps the invariant |
| ServerSession.ReplayVerifyListsInv | src/Session/ServerSession.cpp:580-587 | replaying queued VerifyLists keeps the invariant |
| ServerSession.HandleVerifyListInv | src/Session/ServerSession.cpp:590-656 | handling a VerifyList keeps the invariant |
| ServerSession.HandleRoundFinishedInv | src/Session/ServerSession.cpp:65-81 | the end of a round keeps the invariant |
| ServerSession.AgreeingHasAllEnlists | src/Session/ServerSession.cpp:366-374 | while agreeing every configured server's Enlist is at hand |
| ServerSession.AgreesKeyedBySender | src/Session/ServerSession.cpp:353-382 | every stored Agree comes from a server and carries that server's id |
| ServerSession.AgreeMatchesEnlist | src/Session/ServerSession.cpp:362-382 | a newly stored Agree repeats its sender's enlisted key and DH component, and carries the session's round id |
| ServerSession.RegisterKeepsRoundId | src/Session/ServerSession.cpp:437-493 | every kept registration carries its sender's id and the current round id |
| ServerSession.RegisteringAfterEveryAgree | src/Session/ServerSession.cpp:384-397 | registration opens only once every configured server has agreed on the round id |
| ServerSession.CommunicatingAfterEveryVerify | src/Session/ServerSession.cpp:630-655 | communication starts only once every configured server has signed the same client-list hash |
| ClientSession.New | src/Session/ClientSession.cpp:10-21 | a new client session is offline with no server and an all-zero nonce |
| ClientSession.FirstServer | src/Session/ClientSession.cpp:62-83 | no server exactly when no connection leads to one; otherwise a connected server |
| ClientSession.QueueEchoed | src/Session/ServerSession.cpp:406-435 | the server a client queues with answers, at once while registering and otherwise when registration opens, with exactly the nonce the client now waits for |
| ClientSession.CheckServer | src/Session/ClientSession.cpp:62-83 | a waiting client queues exactly when some connection leads to a server, and waits otherwise |
| ClientSession.OnStart | src/Session/ClientSession.cpp:29-33 | starting waits for a server and checks the connections at once |
| ClientSession.HandleRoundFinished | src/Session/ClientSession.cpp:39-43 | after a round the client keeps its session and starts over: it queues with a fresh nonce at the first connected server, or waits when none is connected |
| ClientSession.HandleConnection | src/Session/ClientSession.cpp:45-55 | as written: a new connection to a server is ignored and any other makes a waiting client check again; a client that is not waiting ignores every connection, and the session is never touched |
| ClientSession.HandleQueued | src/Session/ClientSession.cpp:99-137 | the client registers exactly when the reply echoes its nonce, its server signed it, and it lists one valid Agree per server under one round id; a signed reply with the right nonce has its list stored whatever the later checks decide |
| ClientSession.RegisterOf | src/Session/ClientSession.cpp:139-148 | the registration carries the client's id, the round id, the new ephemeral key and DH component, and its signature |
| ClientSession.SendRegister | src/Session/ClientSession.cpp:139-148 | registering records the new key and sends the client's server a registration that parses back to this client's id, the round id and the new key |
| ClientSession.HandleStart | src/Session/ClientSession.cpp:150-183 | a Start is accepted only while registering and only with one valid signature per server in list order; the client then starts a round with the carried client list |
| ClientSession.RepeatedStartRestarts | src/Session/ClientSession.cpp:150-183 | since the phase stays at registering, a repeated Start builds another round |
| ClientSession.ServerStartAccepted | src/Session/ServerSession.cpp:643-655 | a Start from a server that finished verifying is accepted by a registering client, which adopts exactly the server's client list |
| ClientSession.SignaturesInServerOrder | src/Session/ServerSession.cpp:643-647 | with ascending server ids, the signatures laid out by id are each server's valid signature in list order |
| ClientSession.ConsistentQueuedRegisters | src/Session/ClientSession.cpp:99-148 | a consistent, signed Queued reply makes the client register under the agreed round id |
| ModArith.ModPow | src/Crypto/BlogDrop/ServerCiphertext.cpp:28 | a power reduced modulo p lies in [0, p) |
| ModArith.ModInverse | src/Crypto/BlogDrop/ServerCiphertext.cpp:17 | the result lies in [0, p); it is an inverse exactly when one exists, and 0 otherwise |
| ModArith.ModInverseIs | src/Crypto/BlogDrop/ServerCiphertext.cpp:32 | the inverse found is the only inverse in [0, p) |
| ServerCiphertext.PublicKeyOf | src/Crypto/BlogDrop/ServerCiphertext.cpp:39 | the public key g^x mod p is a group element whenever g is |
| ServerCiphertext.Commit | src/Crypto/BlogDrop/ServerCiphertext.cpp:76-93 | the challenge is a hash of the parameters, the bases, the public values and the commitments, reduced into [0, q) |
| ServerCiphertext.SetProof | src/Crypto/BlogDrop/ServerCiphertext.cpp:14-44 | the element inverts the client keys' x-th power, and the response satisfies r + c·x ≡ v (mod q) |
| ServerCiphertext.VerifierT1 | src/Crypto/BlogDrop/ServerCiphertext.cpp:61-63 | the recomputed first commitment lies in [0, p) |
| ServerCiphertext.VerifierT2 | src/Crypto/BlogDrop/ServerCiphertext.cpp:65-67 | the recomputed second commitment lies in [0, p) |
| ServerCiphertext.VerifyProof | src/Crypto/BlogDrop/ServerCiphertext.cpp:46-74 | a proof whose public key, client key or element is not a group element is rejected; an accepted challenge lies in [0, q) |
| ServerCiphertext.ElementPower | src/Crypto/BlogDrop/ServerCiphertext.cpp:55-57 | every power of a group element is a group element |
| ServerCiphertext.ElementInverse | src/Crypto/BlogDrop/ServerCiphertext.cpp:17 | a group element is invertible and its inverse is a group element |
| ServerCiphertext.ExpCongruent | src/Crypto/BlogDrop/ServerCiphertext.cpp:43 | exponents congruent modulo q give the same power of a group element |
| ServerCiphertext.HonestT1 | src/Crypto/BlogDrop/ServerCiphertext.cpp:27-28 | for an honest proof the verifier's first commitment equals the prover's g^v |
| ServerCiphertext.HonestT2 | src/Crypto/BlogDrop/ServerCiphertext.cpp:30-32 | for an honest proof the verifier's second commitment equals the prover's (g2^v)^-1 |
| ServerCiphertext.Completeness | src/Crypto/BlogDrop/ServerCiphertext.cpp:14-74 | a proof built by SetProof with any secret and any nonce verifies under the matching public key |

## Left out

- Networking, the overlay, the RPC handler and Qt signals are not modelled. Handlers receive the sender, the method name and the packet, and return the notifications to send as effects.
- Timers are effects only. The register timeout's firing (ServerSession.cpp:479-500 runs it through FinishClientRegister) is the direct call of `ServerSession.FinishClientRegister`.
- Signing, signature checks, key validity, key generation and the hash are parameters. The clock, random nonces and new ephemeral keys are inputs to each step.
- The constructors of the concrete round (`CreateRound`) and RoundStarting are effects. Starting the created round is the `StartRound` effect.
- ServerSession's HandleDisconnect has an empty body, so it is not modelled.
- Round's GenerateData and PushData callbacks, logging and qWarning output are not modelled. NullRound's pushed data is returned as a list.
- Null-pointer paths are not modelled as crashes. A state machine that looks up an unregistered state sets no current state, and messages to it are then ignored.
- ServerAgree.hpp, ServerQueued.hpp, SessionMessage.hpp, SerializeList.hpp, AsymmetricKey.hpp, the BlogDrop Parameters and Integer are not part of this model. The Agree layout is the one its constructor call and accessors imply. A Queued reply is modelled by its nonce, payload, signature and agreed list. Message types are a datatype.
- QDataStream's byte format is replaced by a self-delimiting encoding with the same read-past-end behaviour. Ids and keys are encoded as natural numbers and byte strings.
- `ModArith` takes CryptoPP's `%` on a positive modulus to be the non-negative remainder, which Dafny's `%` is.
- NullRound.ProcessDataAsWritten: an index outside the slots changes nothing, where the code reads `m_received[-1]`. The slot is chosen by the overlay's IsServer, not by the round's rosters, so index -1 comes from a sender the overlay calls a server that is missing from the round's server roster but listed in its client roster; Round::IncomingData does not drop it. In a run where FinishAgree admits the round only after every configured server has agreed, every overlay server is in the server roster and the index is not reached, but the model does not prove that.
- NullRound.ProcessData: the same index outside the slots changes nothing, for the same reason; the code's out-of-bounds read is not modelled.
- NullRound.IncomingData follows the code as written. The corrected intake is kept beside it as `NullRound.IncomingDataCorrected`, and `NullRound.AsWrittenMatchesCorrected` states when the two agree.
- Round.DataField: a QString under "data" is modelled by the bytes `toByteArray` turns it into; the conversion itself is not modelled, and other variant types read as empty.
- ServerCiphertext.Commit: the hash is a function of the nine integers, not of their byte encodings.
- ServerCiphertext.SetProof: the nonce v is a parameter of any size rather than a random exponent in [0, q). Completeness holds for every v.
- ClientSession.ServerStartAccepted: requires the configured server ids to be listed in ascending order. The server lays out the signatures by ascending id, and the client checks them in list order.
- ServerSession.HandleAgree: compares the Enlist's and the Agree's key bytes, where the code compares pointers to separately parsed key objects (ServerSession.cpp:366-368); the code as written is `ServerSession.HandleAgreeAsWritten`, and "## Findings" gives the consequence.
- ClientSession.HandleQueued: with no servers configured, an empty agreed list passes the size check and the code then reads `GetServers()[0]` past the end (ClientSession.cpp:125); the model stops there with the empty list stored and sends nothing, so that out-of-bounds read is not modelled.
- The proofs that the BlogDrop proof is sound and zero-knowledge are not modelled; only completeness is proved.

## Findings

| source | as written | input that shows it | evidently intended | confidence | as-written member | corrected member |
|---|---|---|---|---|---|---|
| src/Anonymity/NullRound.cpp:37-48 | a slot counts as already received only when it holds non-empty data, so an empty block from the same peer is counted every time it arrives | one server and one client; the server, in slot 0, sends an empty block twice; the message count reaches 2 and the round succeeds without the client's block | each member's block is accepted once, as the warning text says, and the round completes only when every member has sent | medium, not executed | NullRound.ProcessDataAsWritten (NullRound.EmptyRepeatCompletes) | NullRound.ProcessData (NullRound.CompletesOnlyWhenAllHeard) |
| src/Session/ServerSession.cpp:366-368 | the Enlist's and the Agree's ephemeral keys are compared as `QSharedPointer`s, that is by object identity; each message creates its own key object when parsed (src/Session/ServerEnlist.hpp:40) | two servers; server B sends its Enlist and then an Agree with the same key bytes; A parses each into a new key object, the pointers differ, and the Agree is dropped, so A never reaches registering | the Agree is accepted when it carries the same key as the Enlist | medium, not executed | ServerSession.HandleAgreeAsWritten (ServerSession.AsWrittenNeverAgrees) | ServerSession.HandleAgree (ServerSession.MatchingAgreeStored) |
