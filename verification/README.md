# Open Airbus Cockpit, verified

A model in Dafny of the parts of Open Airbus Cockpit that carry its protocols, with proofs of what they
promise. Handlers, tables and buffers that the program changes in place are classes here, proved against
functions on values; the theorems about whole runs are lemmas about those functions.

- **FlightVars subscriptions.** `ClientModel`, `ClientRuns`, `ServerModel` and `ServerRuns` say what the
  callbacks of the client's connection manager and of a server session do and what every run of either
  keeps. `ClientOutcomes` says which requests get an outcome, `ClientAnswers` which one, and what handlers
  are told; `SessionUpdates` says what a session answers and which values its updates carry. `OutputBuffers`
  says which messages are short enough to be sent. `Protocol` joins client and session with two first-in
  first-out channels into a transition system; `ProtocolInvariant`, `ProtocolTraffic`, `ProtocolSteps`,
  `ProtocolDelivery`, `ProtocolRuns`, `ProtocolAnswers` and `ProtocolUpdates` prove its theorems.
  `SubscriptionDatabase`, `ClientRequests`, `ConnectionManagement` and `SessionHandling` are the objects:
  three tables over shared entries, promises that are set once, the pool, the two-way table and all
  handlers.
- **Wire format and framing.** `Codec` is the format, `Serialization` the code that writes and reads it on
  `Streams`, `Endian` the byte order and `FloatCodec` the encoding of floats; `WireBytes` spells the format
  out in bytes. `Framing` cuts messages out of a stream that arrives in pieces, `Handshakes` says what the
  first message decides, `Connections` does so with a marked buffer, and `RingBuffers` is the circular
  buffer below.
- **FSUIPC polling.** `OffsetMemory`, `PollingModel`, `PollingBytes` and `FsuipcPolling`: offsets in a byte
  memory, the database of subscriptions, the observer and the operations that keep them together.
- **FSUIPC requests.** `IpcRecords`, `Ipc` and `IpcBytes`: the request buffer of the user library, written
  and walked in place, and the versions it accepts.
- **Cockpit.** `CockpitModel`, `CockpitRuns`, `CockpitBytes` and `CockpitBack`: the double-buffered exchange
  with the simulator's memory.
- **Hardware.** `Max7219` drives a chain of display chips. `OacspCommands`, `OacspEvents`, `OacspPeers` and
  `OacspTexts` are the serial protocol between device and gateway, with the Lua patterns the gateway uses in
  `LuaPatterns`. `Numerals` prints and parses numbers.

How the program is rendered:

- A callback of an io_service is one step; the promises of requests are a table from request numbers to
  outcomes, and setting a promise requires that it is not set. Exceptions are results. The server's delegate
  is the set of subscriptions it knows, of all sessions, and its answer to a subscription is a parameter.
- Either side may notice at any time that the connection is lost. A session that does reads nothing of what
  was on its way, and gives its subscriptions back as soon as it has dealt with the updates posted before. A
  write may fail at any time too, which loses what is on its way from some message on. Theorems that say
  "the connection has not failed" are about runs up to the first of these events.
- Messages are written to buffers of 1024 bytes, and one that does not fit is not sent. The length of a
  variable is that of group and name together: up to 947 bytes everything about it can be sent; a rejection
  cannot from 948, a refusal as already subscribed from 983, a grant from 1010, a request from 1017.
- Ids come from one counter on each side. Fewer than 2^32 are assumed to be given out, so that ids never
  repeat; the codec treats them as the 32 bits they are.
- Tables without an order of their own (hash maps, sets) are iterated in an arbitrary order. Streams deliver
  and accept any number of bytes they can.
- The answers of FSUIPC's window, the bytes of the simulator's memory and the lines on a serial port are
  parameters.

Where code and documentation differ, the code is followed:

- The interface promises that a variable may be subscribed any number of times. A second subscription made
  while the first is still being requested makes the server refuse it and the client disconnect, unless the
  name is so long that the refusal is lost; `ProtocolAnswers.FailsExactlyWhenRepeated` says exactly when.
- A request is promised a result. It gets none in three cases: when its reply is too long to be sent
  (`ProtocolAnswers.EveryRequestIsAnswered`, with `ProtocolRuns.OneRequest` as the shortest run); when the
  server closes the stream (`ClientOutcomes.LossSettlesExactly` and `ClientOutcomes.ClosedStreamStrands`);
  and when it is pooled while a reply arrives that the client does not expect, such as the refusal of
  another request (`ClientOutcomes.DropsExactly`, with `ProtocolAnswers.ThirdRequestIsDropped` as a run).
- The comment on `check_for_updates` says that the first check compares with the value read when observation
  began. It reports the offset unconditionally.
- `FSUIPC_Open2` accepts buffers of 32 bytes and more, but its own requests need 66. The size guard of the
  request buffer adds in 32 bits and can wrap around; `IpcRecords.GuardIsExact` says exactly when.
- The stream buffer concept has no failing read of available bytes. The ring buffer has one, which
  `RingBuffers.RingBuffer.Read` characterizes.
- The flight path angle is written at one address and polled at another.

## Model

| member | source | states |
|---|---|---|
| ProtocolRuns.TokenConservation | oacsd/flightvars/src/lib/client/connection_manager.cpp:237-308 | In every run of client, channels and session, while the connection has not failed, each registration of the session is known in exactly one place: its grant is in flight, the client has an entry with that master, or its unsubscription is in flight; and in none if the variable is longer than the 1009 bytes for which a grant can be sent |
| ProtocolRuns.MastersAreCurrent | oacsd/flightvars/src/module/server.cpp:67-84 | In every run, whoever lost the connection, the master of every entry of the client and every id granted by a reply in flight is what session and delegate have registered for the variable as long as the session lives, and unknown to both once it is dead |
| ProtocolRuns.SessionLeavesNothing | oacsd/flightvars/src/module/server.cpp:183-202 | In every run of client and session, a living session is registered for exactly what it granted and did not release, and the delegate keeps nothing of a dead one |
| ProtocolRuns.HangupEnds | oacsd/flightvars/src/module/server.cpp:186-199 | A session that lost its connection dies exactly when all updates posted before have been dealt with |
| ProtocolRuns.TrafficLaw | oacsd/flightvars/src/module/server.cpp:264-322 | While the connection has not failed, the requests and replies about a variable in flight, plus those lost because they did not fit an output buffer, are as many as its repeated requests, plus one if a request for it waits; nothing is lost about variables of up to 947 bytes |
| ProtocolRuns.NoSpuriousFailure | oacsd/flightvars/src/module/server.cpp:264-365 | In a run in which the connection does not fail and no call subscribes to a variable that is already being requested, the client stays connected and the session answers nothing but granted, rejected and unsubscribed |
| ProtocolAnswers.FailsExactlyWhenRepeated | oacsd/flightvars/src/lib/client/connection_manager.cpp:409-495 | If the delegate knows some variables and not the others: once nothing is in flight, a client whose connection did not fail is still connected if and only if every variable requested while an earlier request for it was waiting has more than 982 bytes if the delegate knows it, and more than 947 if not |
| ProtocolRuns.FailsExactlyAfterClash | oacsd/flightvars/src/lib/client/connection_manager.cpp:409-495 | Whatever the delegate answers, it is still connected if and only if every variable requested repeatedly is too long to be rejected and was never refused as subscribed already |
| ProtocolRuns.LengthsDecide | oacsd/flightvars/src/module/server.cpp:264-322 | Hence, if only variables of up to 947 bytes are requested repeatedly, it is connected if and only if none was; and if only variables of more than 982 bytes are, it is connected |
| ProtocolRuns.TwoSubscriptionsFail | oacsd/flightvars/src/lib/client/connection_manager.cpp:409-458 | Two calls for the same variable, both before the first reply, lose the connection if and only if the variable has at most 982 bytes: the run is given |
| ProtocolRuns.UnsubscribesOnce | oacsd/flightvars/src/lib/client/connection_manager.cpp:273-308 | Over a whole run each master subscription is unsubscribed at most once |
| ProtocolAnswers.EveryRequestIsAnswered | oacsd/flightvars/include/flightvars/client/requests.h:204-272 | If the delegate knows some variables and not the others: when nothing is in flight and the connection has not failed, a variable is still waited for if and only if some call subscribed to it and it has more than 1009 bytes if the delegate knows it, and more than 947 if not; all requests are answered if and only if no such variable was requested; and no promise was set twice |
| ProtocolRuns.WaitsExactlyForLost | oacsd/flightvars/include/flightvars/client/requests.h:204-272 | Whatever the delegate answers, a variable is still waited for if and only if more of its messages were lost than requests for it were repeated |
| ProtocolAnswers.ThirdRequestIsDropped | oacsd/flightvars/src/lib/client/connection_manager.cpp:450-456 | The run in which the refusal of one request meets another one, which is dropped and never answered |
| ProtocolAnswers.EveryRunKnown | oacsd/flightvars/src/module/server.cpp:264-322 | Only variables the delegate knows are ever granted or refused, only others rejected, and what is lost is about variables too long for its reply |
| ProtocolRuns.OneRequest | oacsd/flightvars/src/module/server.cpp:429-436 | A single request is answered if and only if its variable has at most 1009 bytes if the server knows it, and 947 if not; from 1010 to 1016 bytes it is registered nevertheless |
| ProtocolRuns.StaleUpdatesAreHarmless | oacsd/flightvars/src/lib/client/connection_manager.cpp:497-514 | In every run an update that crossed the unsubscription of its id is reported and changes nothing else |
| ProtocolRuns.UpdatesReachAll | oacsd/flightvars/src/lib/client/connection_manager.cpp:497-514 | In every run an update for an id the client has calls every virtual subscription of its variable, once and in the order they were made |
| ProtocolRuns.WireIsOrdered | oacsd/flightvars/src/module/server.cpp:367-436 | In every run of client and session, what the session hands over to be sent has every update after the grant of its id and none after its release; what is really sent has so if and only if the grants of all ids updated fit the output buffer |
| ProtocolRuns.EveryRunOk | oacsd/flightvars/src/lib/client/connection_manager.cpp:237-514 | The invariant behind these theorems holds in every state that any sequence of callbacks of either side can reach |
| ProtocolInvariant.AlreadyMeansRepeated | oacsd/flightvars/src/module/server.cpp:272-284 | A variable can only be requested again while it is registered if some request for it was repeated |
| ClientRuns.RequestsAreAccounted | oacsd/flightvars/src/lib/client/connection_manager.cpp:237-565 | After any sequence of callbacks and any messages from the server: no promise was set twice, every request is in exactly one place (pooled once under its own key, completed, or dropped by a reply that raised an error), and the database is well formed |
| ClientRuns.DisconnectSettles | oacsd/flightvars/src/lib/client/connection_manager.cpp:554-565 | A disconnecting error completes every pooled request with a communication error, empties the pool and changes no outcome set before |
| ClientRuns.LastOneOut | oacsd/flightvars/src/lib/client/connection_manager.cpp:273-308 | In every run a callback sends the unsubscription of a master exactly when it takes the number of its virtual subscriptions to zero |
| ClientRuns.OthersCompleteLocally | oacsd/flightvars/src/lib/client/connection_manager.cpp:280-298 | An unsubscription that is not the last of its master sends nothing, completes at once, and removes its own virtual subscription only |
| ClientRuns.WithoutOne | oacsd/flightvars/src/lib/client/subscription_db.cpp:194-206 | Removing by id one of several elements with distinct ids closes the gap and keeps the order |
| ServerRuns.WireOrder | oacsd/flightvars/src/module/server.cpp:286-436 | Likewise for every session, whatever its client sends and however late posted updates leave |
| ServerRuns.NothingLeaks | oacsd/flightvars/src/module/server.cpp:67-84 | While a session lives it is registered for exactly the ids it granted and did not release, all known to the delegate; once it is dead, by a message, an error or the loss of the connection, the delegate keeps none of them |
| ClientOutcomes.OutcomesAreFinal | oacsd/flightvars/include/flightvars/client/requests.h:204-272 | No callback changes the outcome of a request or revives a dropped one |
| ClientOutcomes.DropsExactly | oacsd/flightvars/src/lib/client/connection_manager.cpp:409-495 | In every run a callback takes requests from the pool without answering them if and only if it is about to handle a reply to waiting subscriptions that neither rejects them nor grants an id the database can take, or a reply to waiting unsubscriptions with any other status than the two expected |
| ClientOutcomes.LossSettlesExactly | oacsd/flightvars/src/lib/client/connection_manager.cpp:346-360 | In every run, when the connection is lost, all requests waiting are settled if and only if the loss was not an orderly end of the stream, or nothing waited, and it was not due to such a reply |
| ClientOutcomes.StrandedForever | oacsd/flightvars/src/lib/client/connection_manager.cpp:346-360 | Once the connection is lost, nothing that happens later answers a request made before |
| ClientOutcomes.ClosedStreamStrands | oacsd/flightvars/src/lib/client/connection_manager.cpp:346-353 | The shortest run with a request that is never answered: a subscription is requested and the server closes the stream |
| ClientOutcomes.RefusalDropsAnother | oacsd/flightvars/src/lib/client/connection_manager.cpp:450-456 | A reply that refuses one request drops a later one for the same variable, which nothing answers afterwards |
| ConnectionManagement.ConnectionManager.OnSubscriptionRequested | oacsd/flightvars/src/lib/client/connection_manager.cpp:237-270 | The handler on database, pool and promises makes the state the specification says, sends what it says, and keeps all invariants; it fails if and only if the variable is new and too long to be asked for, and then leaves the request in the pool |
| ConnectionManagement.ConnectionManager.SendMessage | oacsd/flightvars/src/lib/client/connection_manager.cpp:516-525 | A message is sent if and only if it fits the output buffer |
| ConnectionManagement.ConnectionManager.OnUnsubscriptionRequested | oacsd/flightvars/src/lib/client/connection_manager.cpp:273-308 | Likewise for an unsubscription, including one for an unknown id |
| ConnectionManagement.ConnectionManager.OnVariableUpdateRequested | oacsd/flightvars/src/lib/client/connection_manager.cpp:310-331 | Likewise for an update, including one for an unknown id |
| ConnectionManagement.ConnectionManager.GrantAll | oacsd/flightvars/src/lib/client/connection_manager.cpp:429-448 | The loop over the waiting requests creates the entry with the first, adds the others, sets every promise once, and reports whether the database refused |
| ConnectionManagement.ConnectionManager.OnSubscriptionReplyReceived | oacsd/flightvars/src/lib/client/connection_manager.cpp:409-458 | Every status, and a reply nobody waits for, leads to the specified state; raised tells whether the handler throws |
| ConnectionManagement.ConnectionManager.OnUnsubscriptionReplyReceived | oacsd/flightvars/src/lib/client/connection_manager.cpp:460-495 | Likewise for unsubscription replies |
| ConnectionManagement.ConnectionManager.OnVariableUpdateReceived | oacsd/flightvars/src/lib/client/connection_manager.cpp:497-514 | The handlers of exactly the entry with the given master are called; an unknown master is an error without disconnection |
| ConnectionManagement.ConnectionManager.OnError | oacsd/flightvars/src/lib/client/connection_manager.cpp:554-565 | Pool and promises end as the specification of an error says, without setting a promise twice |
| ConnectionManagement.ConnectionManager.OnMessage | oacsd/flightvars/src/lib/client/connection_manager.cpp:365-405 | Dispatch by message type; whatever a reply handler raises disconnects |
| ConnectionManagement.ConnectionManager.Handle | oacsd/flightvars/src/lib/client/connection_manager.cpp:333-406 | Any callback takes the object from one state of the specified client to the next, so that the run theorems hold of the object |
| ClientRequests.FailAll | oacsd/flightvars/include/flightvars/client/requests.h:259-271 | Whatever the order of the table, each pooled promise is set exactly once |
| ClientRequests.RequestPool.PropagateError | oacsd/flightvars/include/flightvars/client/requests.h:238-246 | Every promise of both tables gets the error, all others stay, and the pool is empty |
| ClientRequests.RequestPool.PopSubs | oacsd/flightvars/include/flightvars/client/requests.h:220-224 | The whole list of a variable is handed over in order and an empty one is left |
| ClientRequests.RequestPool.InsertSub | oacsd/flightvars/include/flightvars/client/requests.h:214-218 | A request is appended to the list of its own variable |
| ClientRequests.RequestPool.PopUnsubs | oacsd/flightvars/include/flightvars/client/requests.h:232-236 | The whole list of a master is handed over in order and an empty one is left |
| ClientRequests.RequestPool.InsertUnsub | oacsd/flightvars/include/flightvars/client/requests.h:226-230 | A request is appended to the list of its own master |
| SubscriptionDatabase.SubscriptionDb.CreateEntry | oacsd/flightvars/src/lib/client/subscription_db.cpp:25-41 | On three tables over shared entries: adds exactly one entry with one virtual subscription, or fails for a known variable or a known master and changes nothing; keeps the tables in agreement with one map |
| SubscriptionDatabase.SubscriptionDb.AddVirtualSubscription | oacsd/flightvars/src/lib/client/subscription_db.cpp:63-78 | Appends a virtual subscription with a fresh id to the entry all tables share, or fails for an unknown variable |
| SubscriptionDatabase.SubscriptionDb.RemoveVirtualSubscription | oacsd/flightvars/src/lib/client/subscription_db.cpp:80-92 | Removes one virtual subscription; the entry goes with the last one, which is what the result says; an unknown id fails and changes nothing |
| SubscriptionDatabase.SubscriptionDb.RemoveEntry | oacsd/flightvars/src/lib/client/subscription_db.cpp:43-54 | The loop over the virtual ids takes the entry out of all three tables and leaves every other entry as it was |
| SubscriptionDatabase.SubscriptionDb.RemoveVirtual | oacsd/flightvars/src/lib/client/subscription_db.cpp:194-206 | Takes one id out of its entry, keeping the order of the others, and out of the table of virtual ids; returns how many are left |
| SubscriptionDatabase.SubscriptionDb.MasterOfVirtual | oacsd/flightvars/src/lib/client/subscription_db.cpp:102-108 | Finds the master of the one entry that lists a virtual id, and fails exactly when none does |
| SubscriptionDatabase.SubscriptionDb.MasterOfVariable | oacsd/flightvars/src/lib/client/subscription_db.cpp:94-100 | The master of a variable, or an error |
| SubscriptionDatabase.SubscriptionDb.InvokeHandlers | oacsd/flightvars/src/lib/client/subscription_db.cpp:110-121 | Calls the handlers of the entry with the given master, all of them in order, or fails when there is none |
| SubscriptionDatabase.SubscriptionDb.InitEntry | oacsd/flightvars/src/lib/client/subscription_db.cpp:145-154 | A new shared entry is reachable from both tables |
| SubscriptionDatabase.NoTrace | oacsd/flightvars/src/lib/client/subscription_db.cpp:43-54 | A variable without entry is in none of the three tables |
| SubscriptionDatabase.MasterTable | oacsd/flightvars/include/flightvars/client/subscription_db.h:33-66 | The table of masters knows exactly the masters of the entries, by the same shared objects |
| SubscriptionDatabase.VirtualTable | oacsd/flightvars/include/flightvars/client/subscription_db.h:33-66 | The table of virtual ids knows exactly the ids listed in entries, each in one entry |
| SubscriptionDatabase.IdSource.Make | oacsd/flightvars/src/lib/subscription/types.cpp:23-33 | Every id is the number after the one before it |
| SubscriptionDatabase.DbEntry.RemoveIf | oacsd/flightvars/src/lib/client/subscription_db.cpp:199-203 | The in-place removal keeps the other elements in order |
| SessionHandling.SubscriptionMapper.Register | oacsd/flightvars/src/lib/subscription/mapper.cpp:43-54 | Adds the pair to both directions, or fails for a known variable or id and changes nothing |
| SessionHandling.SubscriptionMapper.UnregisterSubscription | oacsd/flightvars/src/lib/subscription/mapper.cpp:97-104 | Removes the one pair with the id from both directions, or fails |
| SessionHandling.SubscriptionMapper.UnregisterVariable | oacsd/flightvars/src/lib/subscription/mapper.cpp:88-95 | Removes the pair of the variable from both directions, or fails |
| SessionHandling.SubscriptionMapper.VariableOf | oacsd/flightvars/src/lib/subscription/mapper.cpp:66-74 | The variable mapped to an id, or an error when there is none |
| SessionHandling.SubscriptionMapper.SubscriptionOf | oacsd/flightvars/src/lib/subscription/mapper.cpp:77-86 | The id given for a variable is the one under which the reverse direction finds it again; an error means that the reverse direction knows no id for it either |
| SessionHandling.SubscriptionMapper.SubscriptionExists | oacsd/flightvars/src/lib/subscription/mapper.cpp:36-41 | The reverse direction knows exactly the ids the forward one maps to |
| SessionHandling.Session.HandleSubscriptionRequest | oacsd/flightvars/src/module/server.cpp:264-322 | State and reply are those specified for already subscribed, granted and unknown variables |
| SessionHandling.Session.HandleUnsubscriptionRequest | oacsd/flightvars/src/module/server.cpp:324-365 | State and reply are those specified for unknown ids, ids of other sessions, and own ones |
| SessionHandling.Session.UnsubscribeAll | oacsd/flightvars/src/module/server.cpp:76-84 | Whatever the order of the table, exactly the registered ids are given back |
| SessionHandling.Session.OnReadRequest | oacsd/flightvars/src/module/server.cpp:201-249 | Dispatch of a request; any other message ends the reading |
| SessionHandling.Session.OnHangup | oacsd/flightvars/src/module/server.cpp:186-199 | A lost connection ends the reading, and the session dies unless it still has updates to send |
| SessionHandling.Session.HandleVarUpdate | oacsd/flightvars/src/module/server.cpp:367-394 | An update is posted only while the session lives |
| SessionHandling.Session.SendVarUpdate | oacsd/flightvars/src/module/server.cpp:396-427 | The oldest posted update leaves with its value and the id its variable has now, or is dropped; the last one of a session that stopped reading releases it |
| Codec.RoundTrip | oacsd/flightvars/include/flightvars/proto/serial.h:28-218 | Reading the encoding of a message followed by any bytes gives the message and leaves exactly those bytes |
| Codec.RoundTripExactly | oacsd/flightvars/include/flightvars/proto/binary.h:72-81 | The round trip holds if and only if texts are shorter than 65536 bytes and ids below 2^32 |
| Codec.DecodedIsEncodable | oacsd/flightvars/include/flightvars/proto/deserial.h:139-197 | Nothing but encodable messages is ever read |
| Codec.PrefixIsShort | oacsd/liboac/include/liboac/stream/functions.h:41-53 | Any proper prefix of an encoding ends in end-of-stream, never in a message or a protocol error |
| Codec.LaterBytes | oacsd/flightvars/include/flightvars/proto/deserial.h:139-197 | Bytes that arrive later change neither a message already read nor an error already found |
| Codec.StatusBack | oacsd/flightvars/include/flightvars/proto/deserial.h:66-73 | Every status, named or not, survives its byte |
| Serialization.Serialize | oacsd/flightvars/include/flightvars/proto/serial.h:157-218 | Writing field by field succeeds exactly when the encoding fits, and then appends exactly the encoding |
| Serialization.WriteSubscriptionReply | oacsd/flightvars/include/flightvars/proto/serial.h:66-80 | The fields of the reply in their order, and failure exactly when they do not fit |
| Serialization.WriteUnsubscriptionReply | oacsd/flightvars/include/flightvars/proto/serial.h:94-106 | Likewise |
| Serialization.WriteText | oacsd/flightvars/include/flightvars/proto/binary.h:72-81 | The length, its highest byte first, and the bytes of a string |
| Serialization.Deserialize | oacsd/flightvars/include/flightvars/proto/deserial.h:139-197 | Reading field by field from a stream that delivers in pieces gives what the format says of its bytes, with the same error or end of stream |
| Serialization.FetchContents | oacsd/flightvars/include/flightvars/proto/deserial.h:28-137 | The fields of every message type in their order |
| Serialization.FetchPayload | oacsd/flightvars/include/flightvars/proto/deserial.h:105-136 | The payload of every variable type, and the error for others |
| Serialization.FetchText | oacsd/flightvars/include/flightvars/proto/binary.h:152-159 | A length, its highest byte first, and that many bytes |
| Streams.ReadAll | oacsd/liboac/include/liboac/stream/functions.h:41-53 | Exactly count bytes are delivered, or the stream ends before them |
| Streams.WriteAll | oacsd/liboac/include/liboac/stream/functions.h:111-123 | All bytes are written, or as many as there is room for |
| Endian.WireIsBigEndian | oacsd/liboac/include/liboac/endian.h:61-69 | What any host stores after conversion has its highest byte first |
| Endian.HostsAgree16 | oacsd/liboac/include/liboac/endian.h:61-99 | A 16-bit word sent by one host and loaded by another is the same word, whatever their byte orders |
| Endian.HostsAgree32 | oacsd/liboac/include/liboac/endian.h:61-99 | Likewise for 32 bits |
| Endian.BytesOfSwap32 | oacsd/liboac/include/liboac/endian.h:37-44 | The shifts and masks reverse the four bytes |
| Endian.BytesOfSwap16 | oacsd/liboac/include/liboac/endian.h:31-35 | The shifts reverse the two bytes |
| FloatCodec.FloatRoundTrip | oacsd/flightvars/include/flightvars/proto/binary.h:113-127 | Every positive finite binary32 number, subnormal ones included, is read back exactly, for any rounding that leaves representable numbers alone and takes 2^32 - 1 to 2^32 |
| FloatCodec.SignificandExact | oacsd/flightvars/include/flightvars/proto/binary.h:186-198 | No intermediate result of encoding or decoding a significand is rounded except that constant |
| FloatCodec.FrexpIsUnique | oacsd/flightvars/include/flightvars/proto/binary.h:121-123 | There is only one way to split a number as frexp does |
| FloatCodec.PositiveExactly | oacsd/flightvars/include/flightvars/proto/binary.h:124 | The number converted to an unsigned word, which has no result for negative ones, is not negative if and only if the float is positive |
| Framing.SplittingDoesNotMatter | oacsd/flightvars/src/module/server.cpp:28-36 | However the bytes sent are split into reads, handshake included, whatever updates and other sessions do in between, and wherever the stream ends, is reset or the input buffer fails: the messages dispatched are a prefix of those sent, in order and each once; state and replies are those of whole messages between the same other events; and no byte is lost while the connection is open |
| Framing.RoomMeansReadable | oacsd/flightvars/src/module/server.h:74 | As long as less than 64 kilobytes have arrived and are not dispatched, the input buffer never fails |
| Framing.TakenWhenComplete | oacsd/flightvars/src/module/server.cpp:180-262 | A completed read dispatches the next message exactly when all of it has arrived, and never more than one |
| OutputBuffers.RepliesFit | oacsd/flightvars/src/module/server.cpp:264-322 | A reply to a subscription fits the output buffer if and only if the variable has at most 982, 1009 or 947 bytes, as it says already subscribed, granted or unknown |
| OutputBuffers.RequestFits | oacsd/flightvars/src/lib/client/connection_manager.cpp:516-525 | A request for a variable can be sent if and only if it has at most 1016 bytes |
| Framing.LostReply | oacsd/flightvars/src/module/server.cpp:250-255 | The reply to a subscription is lost if and only if the variable is too long for what it says; the session goes on, and keeps the subscription if it was granted |
| OutputBuffers.UnsubscriptionRepliesFit | oacsd/flightvars/src/module/server.cpp:324-365 | Replies to unsubscriptions always fit |
| Connections.Unmarshall | oacsd/flightvars/src/module/server.cpp:28-36 | The mark is cleared when a message was read and otherwise stands where the bytes began |
| Connections.Connection.OnRead | oacsd/flightvars/src/module/server.cpp:180-262 | Mark, parse, reset and dispatch on a marked buffer do what the specification of a read says |
| Connections.Connection.OnEnd | oacsd/flightvars/src/module/server.cpp:143-148 | The end of the stream closes a connection that is served, and one that waits for the greeting reads on |
| Connections.Connection.OnReset | oacsd/flightvars/src/module/server.cpp:149-155 | A reset closes the connection in either phase |
| Connections.Connection.OnVarUpdate | oacsd/flightvars/src/module/server.cpp:367-394 | An update is posted and nothing is sent yet |
| Connections.Connection.OnPosted | oacsd/flightvars/src/module/server.cpp:396-427 | The oldest update posted is sent with its value, if its variable is still subscribed |
| Connections.Connection.OnMessage | oacsd/flightvars/src/module/server.cpp:107-156 | The handshake accepts nothing but the opening message; afterwards requests are served |
| Connections.Connection.WriteMessage | oacsd/flightvars/src/module/server.cpp:429-445 | A message is written exactly when it fits 1024 bytes |
| RingBuffers.RingBuffer.RoomMeansReadable | oacsd/liboac/include/liboac/buffer/ring.inl:27-58 | No read fails while the buffer is not full |
| RingBuffers.RingBuffer.Read | oacsd/liboac/include/liboac/buffer/ring.inl:27-58 | Reads the oldest bytes across the end of the array, and fails if and only if the buffer is exactly full, its indices are equal and the bytes wanted cross the end |
| RingBuffers.RingBuffer.Receive | oacsd/liboac/include/liboac/buffer/ring.inl:148-164 | Received bytes are appended after those pending and overwrite neither those nor the ones since the mark |
| RingBuffers.RingBuffer.Reset | oacsd/liboac/include/liboac/buffer/ring.inl:136-146 | The bytes read since the mark come back before those pending; without a mark nothing happens |
| RingBuffers.RingBuffer.SetMark | oacsd/liboac/include/liboac/buffer/ring.inl:121-126 | From here on the bytes read are retained; a second mark keeps the buffer consistent if and only if no bytes, or all that fit, were read since the first |
| RingBuffers.RingBuffer.UnsetMark | oacsd/liboac/include/liboac/buffer/ring.inl:128-134 | The retained bytes are given up |
| RingBuffers.FullBufferFails | oacsd/liboac/include/liboac/buffer/ring.inl:50-57 | A run of four calls after which a read of available bytes fails |
| PollingModel.ReplicaAgreement | oacsd/liboac/include/liboac/fsuipc/update_observer.h:126-141 | After every check, whatever was subscribed, unsubscribed, written and changed before, every live subscription was last told the value its offset has in memory |
| PollingModel.OneCallPerNews | oacsd/liboac/include/liboac/fsuipc/update_observer.h:126-141 | A check calls the handler of a subscription once if its offset is due, that is new or changed, and otherwise not |
| PollingModel.ObserverAgreesWithDatabase | oacsd/flightvars/src/module/fsuipc.cpp:186-285 | At every point the observed offsets, the duplicate-free list of known offsets and the keys of the handlers are the same; no list is empty, every id is in one list, and every observed offset has a value |
| PollingModel.WrittenIsTold | oacsd/flightvars/src/module/fsuipc.h:268-290 | A value written through a subscription is delivered by the next check, cut to the width of the offset |
| FsuipcPolling.FlightVars.Subscribe | oacsd/flightvars/src/module/fsuipc.h:223-248 | Database and observer end as specified, including for names that are no offsets |
| FsuipcPolling.FlightVars.Unsubscribe | oacsd/flightvars/src/module/fsuipc.h:250-266 | The offset is no longer observed exactly when its last subscription went; unknown ids fail |
| FsuipcPolling.FlightVars.Update | oacsd/flightvars/src/module/fsuipc.h:268-290 | The memory is written at the offset of the subscription; unknown ids fail |
| FsuipcPolling.FlightVars.CheckForUpdates | oacsd/liboac/include/liboac/fsuipc/update_observer.h:126-141 | In whatever order the set yields the offsets, values, calls and pending offsets end as specified |
| FsuipcPolling.FlightVars.OnOffsetUpdate | oacsd/flightvars/src/module/fsuipc.h:306-315 | Every handler of the offset is called in order |
| FsuipcPolling.UpdateObserver.StartObserving | oacsd/liboac/include/liboac/fsuipc/update_observer.h:88-99 | The offset is observed and pending, and its value is the one in memory now |
| FsuipcPolling.OffsetDb.RemoveSubscription | oacsd/flightvars/src/module/fsuipc.cpp:197-212 | Erasing while iterating, in whatever order, removes the id from every list and exactly the emptied offsets from list and table |
| FsuipcPolling.OffsetDb.GetOffset | oacsd/flightvars/src/module/fsuipc.cpp:226-238 | The search finds the offset that lists an id, if one does |
| FsuipcPolling.OffsetDb.CreateSubscription | oacsd/flightvars/src/module/fsuipc.cpp:186-195 | The subscription is appended to the list of its offset, which becomes known once |
| FsuipcPolling.Adapter.Process | oacsd/liboac/include/liboac/fsuipc/client.h:199-203 | Queued writes are served before queued reads, each read through its own object |
| FsuipcPolling.Adapter.Query | oacsd/liboac/include/liboac/fsuipc/client.h:130-149 | One process call delivers the values of all offsets at once and leaves the memory as it was |
| FsuipcPolling.Adapter.ReadValue | oacsd/liboac/src/fsuipc/client.cpp:47-64 | The falling-through cases add up the little-endian value |
| FsuipcPolling.Adapter.WriteValue | oacsd/liboac/src/fsuipc/client.cpp:66-81 | The falling-through cases store the low bytes of the value |
| OffsetMemory.ReadBack | oacsd/liboac/src/fsuipc/client.cpp:47-81 | A written value reads back modulo the range of its width |
| OffsetMemory.WriteElsewhere | oacsd/liboac/src/fsuipc/client.cpp:66-81 | Offsets that do not overlap keep their values |
| OffsetMemory.WriteUndone | oacsd/liboac/src/fsuipc/client.cpp:47-81 | Writing back what was read undoes a write |
| IpcRecords.WalkUndoesPrint | oacsd/fsuipc/src/module-user.c:184-211 | The walk over well-formed records gives each read destination its payload, in order, and stops at the zero behind them |
| IpcRecords.AnswersAreDelivered | oacsd/fsuipc/src/module-user.c:147-215 | If the peer fills nothing but the payloads of reads, the walk delivers exactly what it filled in |
| IpcRecords.RecordsAreUnique | oacsd/fsuipc/src/module-user.c:238-246 | The same bytes cannot be read as two different sequences of records |
| IpcRecords.GuardIsExact | oacsd/fsuipc/src/module-user.c:231-234 | The guard refuses exactly the requests that do not fit, unless the 32-bit sum wraps around; when it is wrong is said exactly |
| IpcRecords.HugeRequestIsAccepted | oacsd/fsuipc/src/module-user.c:231-234 | A size for which the guard is wrong |
| Ipc.Client.ReadCommon | oacsd/fsuipc/src/module-user.c:221-256 | A read is accepted if and only if it fits, its sum taken without wrapping around; accepted, it appends one well-formed record and keeps room for the terminator; refused, it changes nothing |
| Ipc.Client.Write | oacsd/fsuipc/src/module-user.c:275-303 | Likewise for a write |
| Ipc.Client.Process | oacsd/fsuipc/src/module-user.c:147-215 | The peer is sent the queued records, terminated; the answers are delivered and the queue is empty |
| Ipc.Client.WalkBack | oacsd/fsuipc/src/module-user.c:184-211 | The loop over the headers delivers what the walk says and ends |
| Ipc.Client.Open | oacsd/fsuipc/src/module-user.c:69-141 | The result for every combination of arguments and answers; buffers of 32 to 65 bytes are refused for want of space |
| CockpitRuns.NoEcho | oacsd/liboac/src/cockpit.cpp:190-198 | After a cycle, whatever the front shows, the next cycle reports nothing unless somebody else wrote the memory |
| CockpitRuns.FlagsAreOneShot | oacsd/liboac/src/cockpit-fsuipc.cpp:38-51 | Over any run every flag gives exactly one event for each cycle that finds it set, and only somebody else can set it again |
| CockpitRuns.WatchesReportForeignChanges | oacsd/liboac/src/cockpit-fsuipc.cpp:54-69 | A watched value is reported exactly when it differs from what the last cycle left; the first cycle reports none |
| CockpitRuns.FrontIsShown | oacsd/liboac/src/cockpit-fsuipc.cpp:130-272 | After a cycle the memory holds the whole state of the front, no part overwriting another |
| CockpitRuns.FpaChangesGoUnnoticed | oacsd/liboac/src/cockpit-fsuipc.cpp:185-186 | A change of the flight path angle where the front writes it is never reported |
| CockpitRuns.PollCounts | oacsd/liboac/src/cockpit-fsuipc.cpp:78-234 | Each source of a panel is polled as if it were the only one |
| CockpitRuns.CycleSettles | oacsd/liboac/src/cockpit-fsuipc.cpp:281-291 | A cycle leaves memory and buffer equal and no flag set |
| CockpitBack.Back.Map | oacsd/liboac/src/cockpit.cpp:190-198 | A cycle on the buffers gives the events and the memory specified |
| CockpitBack.Back.SyncDown | oacsd/liboac/src/cockpit-fsuipc.cpp:293-314 | The buffers are swapped and the memory copied into the current one; the first time into both |
| CockpitBack.Back.SyncUp | oacsd/liboac/src/cockpit-fsuipc.cpp:281-291 | The marked buffer is copied to the memory in chunks |
| CockpitBack.Back.PollOne | oacsd/liboac/src/cockpit-fsuipc.cpp:38-69 | One flag or one value |
| CockpitBack.Back.PollEvents | oacsd/liboac/src/cockpit-fsuipc.cpp:78-234 | A panel after the other sources of it |
| CockpitBack.DoubleBuffer.IsModified | oacsd/liboac/include/liboac/buffer/double.h:112-124 | Whether the two buffers differ in a stretch |
| CockpitBack.DoubleBuffer.Swap | oacsd/liboac/include/liboac/buffer/double.h:109-110 | The buffers change roles |
| CockpitBack.DoubleBuffer.Write | oacsd/liboac/include/liboac/buffer/double.h:87-89 | Only the current buffer is written |
| CockpitBack.ShiftedBuffer.Write | oacsd/liboac/include/liboac/buffer/shifted.h:104-109 | Offsets are shifted, and what is out of bounds is refused |
| CockpitBack.ShiftedBuffer.Read | oacsd/liboac/include/liboac/buffer/shifted.h:88-93 | Likewise for reading |
| Max7219.AddressesExactly | arduino/libraries/oacled/oacled.h:159-185 | A command reaches its chip and no other, whatever was left in the shift registers, if and only if the chip is among the last 256 of the chain |
| Max7219.CommandReaches | arduino/libraries/oacled/oacled.h:159-166 | Only the addressed chip latches, and only the register of the command |
| Max7219.NumberIsShown | arduino/libraries/oacled/oacled.h:51-57 | The digits written show the number modulo ten to the number of digits |
| Max7219.WriteDigitsElsewhere | arduino/libraries/oacled/oacled.h:51-57 | All other registers of the chip keep their values |
| Max7219.OnlyDigitsExactly | arduino/libraries/oacled/oacled.h:45-57 | A number is written to digit registers only, if and only if it does not go beyond the eighth digit |
| Max7219.Driver.WriteInt | arduino/libraries/oacled/oacled.h:51-57 | The loop changes the addressed chip as specified and no other chip |
| Max7219.Driver.SetDigit | arduino/libraries/oacled/oacled.h:45-49 | The register of the clamped digit and the value with its dot are shifted out between words of zeros |
| Max7219.Driver.SerialWrite | arduino/libraries/oacled/oacled.h:159-166 | Words of zeros for the chips behind, the two bytes of the command, and words of zeros for those before are shifted out, and leave the chips as specified |
| OacspCommands.ParseUndoesLine | cmd-gw/OAC_CMDGW.lua:134-181 | Every command a device can print, for names of letters, digits and underscores and 16-bit offsets, is parsed by the gateway into the same command |
| LuaPatterns.RepeatTakes | cmd-gw/OAC_CMDGW.lua:138-170 | A greedy repetition takes a whole run when the rest of the pattern matches after it |
| LuaPatterns.NotFound | cmd-gw/OAC_CMDGW.lua:138-170 | A pattern that begins with a keyword does not match where keyword and space do not occur |
| OacspEvents.LVarEventExactly | arduino/libraries/OACSP/oacsp.h:174-184 | A device parses the line for a variable into the same event if and only if the name has at most 63 characters and does not contain the keyword |
| OacspEvents.OffsetEvent | arduino/libraries/OACSP/oacsp.h:186-196 | A device parses the line for any 16-bit offset into the same event |
| OacspEvents.RemoveAllChanges | arduino/libraries/OACSP/oacsp.h:174-176 | Removing the keyword changes a text exactly when it occurs in it |
| OacspPeers.ObserverHears | cmd-gw/OAC_CMDGW.lua:97-101 | The command to observe a variable is always understood; its sender is entered, and every change reaches all observers as a line they parse into that variable and value, if and only if the name is no method of the table, has at most 63 characters and does not contain the keyword |
| OacspPeers.OffsetObserverHears | cmd-gw/OAC_CMDGW.lua:108-112 | Likewise for every offset |
| OacspPeers.SerialProtocol.WriteLVar | arduino/libraries/OACSP/oacsp.h:78-89 | The line of the command is printed |
| OacspPeers.SerialProtocol.WriteOffset | arduino/libraries/OACSP/oacsp.h:115-124 | Likewise |
| OacspPeers.SerialProtocol.ObserveLVar | arduino/libraries/OACSP/oacsp.h:126-130 | Likewise |
| OacspPeers.SerialProtocol.ObserveOffset | arduino/libraries/OACSP/oacsp.h:132-138 | Likewise |
| OacspPeers.SerialProtocol.PollEvent | arduino/libraries/OACSP/oacsp.h:140-154 | The event of a line, and which event is remembered when there is none |
| OacspPeers.Gateway.Insert | cmd-gw/OAC_CMDGW.lua:26-33 | The handle is appended to the observers of its event; the names of the table's own methods cannot be observed |
| OacspPeers.Gateway.ForEach | cmd-gw/OAC_CMDGW.lua:40-49 | Every observer is served in order |
| OacspPeers.Gateway.OnLVarModified | cmd-gw/OAC_CMDGW.lua:187-195 | Every observer of the variable is written its line |
| OacspPeers.Gateway.OnOffsetModified | cmd-gw/OAC_CMDGW.lua:202-210 | Every observer of the offset is written its line |
| OacspPeers.Gateway.OnDataReceived | cmd-gw/OAC_CMDGW.lua:220-243 | Observations are entered for the port they came from |
| SessionUpdates.SendSaysWhatWasRaised | oacsd/flightvars/src/module/server.cpp:396-427 | In every run of a session, sending takes the oldest change raised while the session lived: the update has exactly the value raised, under the id its variable has now, and there is none if it has no id |
| SessionUpdates.OnlySendUpdates | oacsd/flightvars/src/module/server.cpp:367-427 | Nothing but that ever adds an update to what a session says |
| SessionUpdates.IdsAreGranted | oacsd/flightvars/src/module/server.cpp:264-322 | A variable has an id in a living session if and only if the session said a grant of that id for it and has not released it since |
| SessionUpdates.SubscriptionsAnswered | oacsd/flightvars/src/module/server.cpp:264-322 | In every run a subscription is refused if the variable has an id by what was said, and otherwise granted an id that no session has or rejected, as the delegate answers; with the explanation of each |
| SessionUpdates.UnsubscriptionsAnswered | oacsd/flightvars/src/module/server.cpp:324-365 | In every run an unsubscription is answered for its id by what the session said and the delegate knows, with the explanation of each, and the delegate forgets the id |
| ProtocolUpdates.SessionRuns | oacsd/flightvars/src/module/server.cpp:183-262 | In every run of the system the session goes through a run of its own |
| ProtocolUpdates.UpdatesWereRaised | oacsd/flightvars/src/module/server.cpp:367-427 | In every run of client, channels and session, every update on its way carries a value raised for a variable to which its id was granted |
| ProtocolUpdates.UpdatesKeepOrder | oacsd/flightvars/src/module/server.cpp:367-427 | The updates on their way are in the order in which their values were raised |
| ProtocolUpdates.RegistrationsWereGranted | oacsd/flightvars/src/module/server.cpp:264-322 | Whatever the session is registered for was granted by a reply it said |
| ProtocolUpdates.GrantedForOne | oacsd/flightvars/src/module/server.cpp:286-300 | In every run an id is granted for one variable only |
| ProtocolUpdates.HandlersHearWhatWasRaised | oacsd/flightvars/src/lib/client/connection_manager.cpp:497-514 | From end to end: an update that arrives for a variable of the client calls the handlers of all its virtual subscriptions, once each and in their order, with a value that was raised for this variable, and changes nothing else |
| ClientAnswers.RejectionAnswers | oacsd/flightvars/src/lib/client/connection_manager.cpp:418-427 | In every run a rejection gives every waiting request the error that there is no such variable |
| ClientAnswers.GrantAnswers | oacsd/flightvars/src/lib/client/connection_manager.cpp:429-448 | In every run a grant gives the waiting requests successive virtual ids in the order in which they were made, and the entry lists them so, each with its own handler, under the master granted |
| ClientAnswers.UnsubscriptionAnswers | oacsd/flightvars/src/lib/client/connection_manager.cpp:471-487 | In every run the end of an unsubscription finishes every waiting request, and an unknown subscription gives each the error naming it |
| ClientAnswers.KnownSubscription | oacsd/flightvars/src/lib/client/connection_manager.cpp:237-254 | In every run a subscription to a variable with an entry is granted a virtual id at once and listed last; nothing is sent |
| ClientAnswers.NewSubscription | oacsd/flightvars/src/lib/client/connection_manager.cpp:260-270 | In every run any other subscription waits behind those made before, and is asked for unless it is too long |
| ClientAnswers.UnknownUnsubscription | oacsd/flightvars/src/lib/client/connection_manager.cpp:299-307 | In every run giving up an id that nobody has is answered with an error at once |
| ClientAnswers.LastUnsubscription | oacsd/flightvars/src/lib/client/connection_manager.cpp:280-292 | In every run giving up the only virtual subscription of a variable removes the entry, sends the unsubscription of its master and waits |
| ClientAnswers.KnownUpdate | oacsd/flightvars/src/lib/client/connection_manager.cpp:310-321 | In every run an update is sent under the master of its variable with the value given |
| ClientAnswers.UnknownUpdate | oacsd/flightvars/src/lib/client/connection_manager.cpp:322-331 | In every run an update for an id that nobody has is answered with an error at once and nothing is sent |
| ClientAnswers.UpdateCalls | oacsd/flightvars/src/lib/client/connection_manager.cpp:497-514 | In every run an update calls exactly the handlers listed for the variable with that master, once each, in order, with variable and value |
| ClientAnswers.SubscriptionsInOrder | oacsd/flightvars/src/lib/client/subscription_db.cpp:63-78 | In every run the virtual subscriptions of an entry are listed in the order in which they were made |
| WireBytes.WordBytes | oacsd/flightvars/include/flightvars/proto/binary.h:93-101 | Words are written with their highest byte first |
| WireBytes.WordRead | oacsd/flightvars/include/flightvars/proto/binary.h:161-168 | and read so |
| WireBytes.WordIsBigEndian | oacsd/liboac/include/liboac/endian.h:61-69 | The bytes written for a word are those that a host of either byte order stores after converting it for the wire |
| WireBytes.DwordIsBigEndian | oacsd/liboac/include/liboac/endian.h:61-69 | Likewise for 32 bits |
| WireBytes.StatusBytes | oacsd/flightvars/include/flightvars/proto/messages.h:82-90 | The number of each status |
| WireBytes.ValueBytes | oacsd/flightvars/include/flightvars/proto/serial.h:108-155 | A value travels as the number of its type and its bytes |
| WireBytes.Fields | oacsd/flightvars/include/flightvars/proto/serial.h:28-155 | The fields of every message, in their order |
| WireBytes.MessageBytes | oacsd/flightvars/include/flightvars/proto/binary.h:28-70 | Every message begins with the two bytes of its type, highest first, and ends with 0d 0a; its fields are in between |
| Handshakes.FirstMessageDecides | oacsd/flightvars/src/module/server.cpp:107-156 | In every run of a connection nothing is written before the first message is taken. If that opens a session, the first thing written is the opening message with the name and version of the server. If it is anything else, the connection is closed, nothing is ever written and no variable subscribed. A connection that serves has been opened |
| Handshakes.ClosesExactly | oacsd/flightvars/src/module/server.cpp:107-262 | In every run an open connection is closed by an arrival if and only if that is a reset, or the end of the stream once a session was opened, or brings bytes that cannot be read or a message out of place; a closed one takes nothing more |
| Handshakes.ConnectionIsSession | oacsd/flightvars/src/module/server.cpp:183-262 | In every run a connection goes through the run of a session over the messages taken, and writes after its greeting exactly what that session says and fits |
| PollingBytes.ReplicaInBytes | oacsd/flightvars/src/module/fsuipc.cpp:139-154 | After every check each live subscription was last told the byte, word or double word that the memory holds at its address, the lowest byte first |
| PollingBytes.NewsExactly | oacsd/liboac/include/liboac/fsuipc/update_observer.h:126-141 | A check calls the handler of a subscription once if its offset was subscribed to since the check before, or if the bytes in memory do not show what it was told last, and otherwise not |
| PollingBytes.UpdateTells | oacsd/flightvars/src/module/fsuipc.h:268-290 | In every run a write through a subscription puts the low bytes of the value, the lowest first, at its address and changes nothing else |
| PollingBytes.UnsubscribeTells | oacsd/flightvars/src/module/fsuipc.h:250-266 | In every run an unsubscription removes the one subscription with its id and no other, and fails if and only if there is none |
| PollingBytes.SubscribeTells | oacsd/flightvars/src/module/fsuipc.h:223-248 | A subscription is given an id of its own and listed last for its offset, and all other lists stay |
| PollingBytes.WriteBytes | oacsd/liboac/src/fsuipc/client.cpp:66-81 | The bytes of a write, one by one |
| CockpitBytes.EventsSayWhatIsThere | oacsd/liboac/src/cockpit-fsuipc.cpp:38-69 | Every event of a cycle says what is in memory: the value listed for a flag, which is set; the byte watched; or the number that four bytes make, the lowest first |
| CockpitBytes.EventsInOrder | oacsd/liboac/src/cockpit-fsuipc.cpp:78-234 | The events of a cycle come in the order in which the sources are polled |
| CockpitBytes.FlightControlUnitIs | oacsd/liboac/src/cockpit-fsuipc.cpp:78-128 | Address, size and value of every source of the flight control unit |
| CockpitBytes.EfisControlPanelIs | oacsd/liboac/src/cockpit-fsuipc.cpp:201-235 | Likewise for the control panel of the EFIS |
| CockpitBytes.SourcesDiffer | oacsd/liboac/src/cockpit-fsuipc.cpp:78-234 | No source is polled twice |
| CockpitBytes.FrontAtAddresses | oacsd/liboac/src/cockpit-fsuipc.cpp:130-272 | After a cycle each part of the front is in memory at its own address, numbers with the lowest byte first |
| IpcBytes.VersionsAccepted | oacsd/fsuipc/src/module-user.c:122-139 | From the bytes answered: the client opens if and only if FSUIPC is 1.998e or later, the high bytes of the simulator's word are fade, and the low ones are the version required, if one is; otherwise which error it gives |
| IpcBytes.AnswersAreThese | oacsd/fsuipc/src/module-user.c:96-120 | The bytes in which a peer answers the opening requests |
| IpcBytes.RecordIs | oacsd/fsuipc/src/module-user.c:236-252 | A record in the buffer, byte by byte |
| IpcBytes.StoresInOrder | oacsd/fsuipc/src/module-user.c:184-211 | What is stored for records is stored for each, one after the other |
| Max7219.CommandChanges | arduino/libraries/oacled/oacled.h:159-171 | A command changes one register of one chip, or nothing if it is a no-op |
| Max7219.DigitsAre | arduino/libraries/oacled/oacled.h:51-57 | Each register written holds the decimal digit of its place |
| FloatCodec.WordsAre | oacsd/flightvars/include/flightvars/proto/binary.h:124-126 | The words of a normalized number: the bits of the significand below the first, moved up by nine, and the two's complement of the exponent |
| OacspTexts.FindsExactly | cmd-gw/OAC_CMDGW.lua:138-170 | A pattern of the gateway matches a line if and only if the line can be split, from some place on, into pieces that its items stand for; the first such place is taken and the pieces between parentheses are captured |
| OacspTexts.Lines | arduino/libraries/OACSP/oacsp.h:78-138 | The lines of both ends, with their numbers digit by digit |
| OacspTexts.ToldInOrder | cmd-gw/OAC_CMDGW.lua:26-49 | After any observations, a change is told to every handle that observed it, as often and in the order it did, except under the names of the table's methods |
| Numerals.PrintedDigits | arduino/libraries/OACSP/oacsp.h:115-124 | Each digit printed is that of its place |

## Left out

- ProtocolRuns.TokenConservation: the server has one session in detail; other sessions appear as subscriptions that come and go, made by clients that unsubscribe only ids they were given.
- ProtocolAnswers.EveryRequestIsAnswered: the delegate's knowledge does not change during the run; ProtocolRuns.WaitsExactlyForLost is about any delegate. What a failing connection leaves unanswered is stated by ClientOutcomes.LossSettlesExactly and ClientOutcomes.StrandedForever.
- ClientOutcomes.StrandedForever: callbacks may still run after the connection is lost; that the client's thread ends when none are left, so that requests made later are not even looked at, is not modelled.
- ConnectionManagement.ConnectionManager.Handle: the threads, time-outs and mutexes around the handlers, the handshake of the client and its close call are not modelled; handlers given by the user do not call back.
- ConnectionManagement.ConnectionManager.OnMessage: the client never marks its input buffer, so that a message arriving in pieces is not reassembled. In ClientRuns any message may follow a piece; in Protocol the client is given whole messages.
- SessionHandling.Session.OnReadRequest: what an update from the client does in the delegate is not modelled.
- Framing.SplittingDoesNotMatter: a full input buffer may fail at any read here, while RingBuffers.RingBuffer.Read says exactly which reads fail.
- Connections.Connection.OnRead: the bytes left in the buffer of a connection that is closed because of a protocol error are not specified.
- RingBuffers.RingBuffer.Reset: is about a buffer that is consistent; after a second mark that RingBuffers.RingBuffer.SetMark describes as harmful, which the connection never sets, nothing is stated. The synchronous write and the sending side of the ring are not modelled.
- Endian.HostsAgree32: the signed swaps are not modelled.
- FloatCodec.FloatRoundTrip: what the words of zero and of negative numbers are is undefined, as FloatCodec.PositiveExactly shows; infinities and NaN are not covered.
- FsuipcPolling.FlightVars.Subscribe: the parsing of offset names is a parameter, and so is the conversion of a value to be written into 32 bits; offsets reach no further than the 65535 bytes of the adapter's buffer.
- FsuipcPolling.FlightVars.CheckForUpdates: the evaluator passed to the observer as a closure is called from the loop here; handlers do not call back, and the adapter does not fail.
- Ipc.Client.ReadCommon: sizes for which the guard's sum wraps around into the buffer are excluded, because the copy that follows them has no meaning.
- Ipc.Client.Write: the same sizes are excluded.
- Ipc.Client.Process: an answer whose headers lead out of the buffer is excluded; the library does not check for it. Bytes stored beyond the end of a variable are not modelled.
- CockpitBack.Back.Map: a cycle is atomic with respect to other writers of the memory; what the events do to the front is summed up in the state it shows afterwards; failures of FSUIPC during a cycle are not modelled.
- CockpitBack.ShiftedBuffer.Write: sizes have 64 bits, so that the check of the buffer behind does not wrap around.
- Max7219.Driver.WriteInt: says nothing of what a number does to the chain when the chip is not among the last 256, except by Max7219.AddressesExactly.
- Max7219.Driver.SetDigit: the initialization of the pins, the decode-mode, intensity, scan-limit and shutdown commands, and the printing of floats are not modelled.
- OacspPeers.Gateway.OnDataReceived: writes to the simulation, and the error raised after a line that is no command, are not modelled; neither are the opening of ports and the begin line.
- OacspEvents.LVarEventExactly: values are 32-bit; what the device makes of larger ones is undefined.
- The chunked copy of the FSUIPC adapter appears only as part of CockpitBack.Back.SyncUp, where one chunk is enough.
- Variable names are compared as they are; the lower-casing of ids when they are built is not modelled.
- The router that joins several FlightVars implementations, buttons, keypads, analog inputs and panel tables: simple members that add nothing to the above.
- SimConnect, the Wilco exporter, networking, logging, configuration files, the Qt test utility and the installers: input and output, or code of others.
- Client code superseded by the connection manager (`flight_vars_client.cpp`) is not part of this model.
