# Verified model of the paho MQTT client

A Dafny model of the parts of the Python MQTT client that carry its guarantees, and proofs of these
guarantees. Check everything with `dafny verify dfyconfig.toml`.

**Sessions.** `QosSession` states the steps of the client's QoS session as functions on a value: the ordered
table of outgoing messages, the in-flight counter, the table of half-received messages, the socket.
`Client` holds the mutable object whose methods update the message objects in place and are proved to
compute these functions, and to mark a publisher's handle exactly when its message is acknowledged.
`Network` adds a conforming broker and two channels that are emptied when a connection is lost, so that a
run is any sequence of publishes, deliveries, acknowledgements, write failures, losses and reconnects, each
of which keeps the session or starts a clean one. `Loops` holds induction principles for the two loops over
the table. The theorems: `Wire` (what every step keeps), `Conservation` (no message is lost, replaced or
duplicated inside the client), `ExactlyOnce`, `Demotion` (the ways to lose exactly-once, and that they are
the only ones), `SafeResets` (what an application can go by), `Duplicates` (the DUP flag), `Order`,
`Progress` (no message is ever stuck; `Rounds` has the new connection), `Resend`, `Window` and `InFlight` (the
counter and the messages under way), `Inbound`, and `Plain` (QoS 0). `Moves` is an induction principle for the
session's steps.

**Byte streams.** `PacketStream` is the one-shot parser and printer of control packets. `PacketReader`
refines it for every splitting of the stream, and `PacketDelivery` shows how its calls end and that they get
to the end; `PacketWriter` keeps the stream whole for every splitting of the sends, and `PacketDraining` tells
how far it gets; `Pipe` puts the two together. `WsFrames` and `WebSocket` do the same for WebSocket frames
(sections 5.1 to 5.3 of RFC 6455), with both directions on one socket: `WsSending` has the frames that are
written and `WsSplice` the answers written between them. `Publish` takes a PUBLISH packet from one end to
the other, and `PacketTypes` has the types of packets. `SocketCallbacks` gives the order of the callbacks for
external event loops.

**Topics and properties.** `Levels` and `TopicMatch` define splitting, the filter check, the matching
relation and the standard's. `Matcher` is the prefix tree with its updates in place. `VarInt` (with module
`Bytes`), `Utf8`, `PropertyCodec`, `PropertyLaws` and `Properties` are the MQTT 5 property codec.

Sockets are scripts of results that are unknown to the code: how many bytes a call gives or takes, whether
it blocks, fails or reports the end. Texts are sequences of Unicode scalar values, and topic filters given
to the filter check hold one character for each byte. The bits of a byte are stated by division and remainder.

What the code does where a simpler claim would be false:

- A second reset of a kept session turns a message that waits to resend its PUBREL back into one to publish.
  If the broker has released it by then, it is handed onward twice; so is a message handed onward and not yet
  completed when a clean session starts. `Demotion` proves when exactly, and gives a run of each kind.
  `SafeResets.ClientSafeExactly` says when a reset is safe as far as the client can know.
- The PUBLISH that such a second reset leads to is sent without the DUP flag, unless an earlier one carried
  it: `Duplicates` proves when exactly, and gives a run. The other way round, a clean session marks a message
  that waited for the window as a duplicate before it was ever sent: `Duplicates.EarlyExactly`.
- A message published between the reconnection and its CONNACK overtakes those that the resend loop still
  owes: `Order.OutOfOrderExactly`, and `Order.OvertakeHappens` is a run.
- The reset never counts, so its branch for a full window is dead, and handling CONNACK may take the counter
  above the window (the repository's own tests say so, `tests/lib/test_03_publish_fill_inflight.py:38-41`).
  `Window.OvershootExactly` says when.
- An incoming PUBREL takes one off the counter of outgoing messages (`Window.CounterIsExact`), so that more of
  them than the window allows can be part way through their flow: `InFlight.ExceedsExactly` says when, and
  `InFlight.ReleaseOverruns` is a run.
- Command byte 0 doubles as "no packet started": a packet with that byte that arrives in two calls is
  overwritten. `PacketReading.FaithfulExactly` says which streams are read faithfully, and
  `PacketReading.ZeroCommandLost` is a run that loses a packet.
- The answer to a WebSocket ping or close is written to the socket at once, also while a data frame is cut off
  in the middle, and what the socket does not take of it is given up. `WsSplice.SurvivesExactly` says when the
  stream survives, and `WsSplice.PingInsideFrame` is a case in which it does not.
- The bytes of a masked ping or close that came with an earlier call are echoed as they are, masked:
  `WebSocketWrapper.AnswersExactly`.
- A send that takes nothing drops the packet at the head: `PacketWriting.PacketWriter.PacketWrite`. A send call
  ends with its packet, so that a socket which may take as many bytes as are queued need not get them in one
  call: `PacketDraining.AddsUpExactly`.
- A topic with a '+' level or a final '#' can be reported twice: `TopicMatch.EachOnceExactly`, and
  `TopicTree.SearchItself` for a matcher.
- Assigning a list to a property skips the range checks, and an empty list packs to nothing: exactly the
  valid sets are restored, `PropertyLaws.RoundTripExactly`; `PropertyLaws.ListsLost` has two that are not.
- The decoder of variable byte integers accepts encodings that are longer than necessary, although its
  documentation cites the rule against them: `VarInt.DigitsMinimal`.

## Model

| member | source | states |
|---|---|---|
| ExactlyOnce.ExactlyOnceHandover | src/paho/mqtt/client.py:1792-1822 | Over every run of publishes, deliveries, acknowledgements, failed writes, lost connections and reconnects, with kept and with clean sessions, against a conforming broker, in which no reset forgets what the broker has done about a message: no accepted QoS 2 message is handed onward twice, each one removed by an acknowledgement was handed onward exactly once, and each completed QoS 1 message at least once |
| ExactlyOnce.RunConsistent | src/paho/mqtt/client.py:3717-3744 | The accounts of client and broker agree after every such run: a message whose PUBREC was seen is done or held by the broker, an acknowledgement on its way is true, and nothing else was handed onward |
| ExactlyOnce.NextConsistent | src/paho/mqtt/client.py:3802-3831 | Every single step that does not forget in this way keeps these accounts |
| Demotion.ResetUnsafeExactly | src/paho/mqtt/client.py:3717-3744 | What follows a reset can hand a message onward twice if and only if the reset forgets: a kept session finds a message waiting to resend its PUBREL that the broker has already released, or a clean session finds one that was handed onward and not yet completed |
| Demotion.DemotionDuplicates | src/paho/mqtt/client.py:3717-3744 | For each such message, a continuation without another reset that hands it onward a second time |
| Demotion.DuplicateHappens | src/paho/mqtt/client.py:3717-3744 | Runs from the start, of the real protocol and with a conforming broker, in which one QoS 2 message is handed onward twice: one with kept sessions only, one in which the second session is clean |
| SafeResets.ClientSafeExactly | src/paho/mqtt/client.py:3717-3744 | The same from what the client alone can know. After any run whose resets it allowed: keeping the session is harmless, whatever a conforming broker has done and whichever of the two ways it works, if and only if no message waits to resend its PUBREL; starting a clean one if and only if no QoS 2 message of the table was ever put on a connection. Otherwise another such run looks the same to the client, but for its channel, and its next reset can hand a message onward twice |
| SafeResets.SafeRunsHandOverOnce | src/paho/mqtt/client.py:1551-1609 | An application that resets only in those states gets exactly-once hand-over in every run, without knowing anything of the broker |
| Duplicates.FlagKept | src/paho/mqtt/client.py:3717-3744 | In every run without a reset that loses a mark, a PUBLISH without the DUP flag is the first one sent of its message |
| Duplicates.ResetMarkedExactly | src/paho/mqtt/client.py:3721-3742 | A reset leaves every message that was sent marked as a duplicate unless the session is kept and a message that waits to resend its PUBREL bears no mark |
| Duplicates.UnflaggedExactly | src/paho/mqtt/client.py:3737-3742 | What follows a reset can send a message a second time without the DUP flag if and only if the reset loses a mark in that way |
| Duplicates.UnflaggedHappens | src/paho/mqtt/client.py:3737-3742 | A run from the start in which a QoS 2 message is sent twice, both times without the DUP flag |
| Duplicates.FlagExact | src/paho/mqtt/client.py:3721-3742 | In every run whose resets lose no mark and set none too early, a PUBLISH has the DUP flag if and only if one of its message was sent before |
| Duplicates.ResetEarnedExactly | src/paho/mqtt/client.py:3721-3742 | A reset leaves only messages marked that were sent if and only if each message that it marks (QoS 1 waiting for PUBACK; QoS 2 waiting for PUBREC or, with a clean session, in any state but ready to publish) was sent |
| Duplicates.EarlyExactly | src/paho/mqtt/client.py:3733-3735 | What follows a reset can put the DUP flag on the first PUBLISH of a message if and only if the reset marks a message of which none was sent |
| Duplicates.EarlyHappens | src/paho/mqtt/client.py:3733-3735 | A run from the start in which the first PUBLISH of a message has the DUP flag: the message was held back by the window when a clean session began |
| Order.InOrder | src/paho/mqtt/client.py:3954-4017 | In every run in which no publish overtakes, the PUBLISH packets put on one connection stand in the order in which their messages were accepted |
| Order.NextInLine | src/paho/mqtt/client.py:1792-1822 | Every step keeps a connection in order with no message behind one it should precede, except exactly a publish that is accepted and goes out while a PUBLISH is still owed from before the reset |
| Order.OutOfOrderExactly | src/paho/mqtt/client.py:1803-1811 | What follows a publish, without another publish or reset, can put the connection out of order if and only if that publish overtakes |
| Order.OvertakeHappens | src/paho/mqtt/client.py:1803-1811 | A run from the start in which a message published between the reconnection and its CONNACK is handed onward before the older one |
| Conservation.NothingIsLost | src/paho/mqtt/client.py:1792-1801 | In every run each accepted message is in exactly one place, the table or the completed ones, also when identifiers wrap and over all resets, of kept and of clean sessions; a positive queue limit is never exceeded |
| Conservation.OnlyAcksRemove | src/paho/mqtt/client.py:4432-4440 | A message leaves the table only by the PUBACK or PUBCOMP of its own identifier and then counts as completed; every other step keeps it, unreplaced, under its identifier |
| Conservation.ReopenSame | src/paho/mqtt/client.py:3717-3757 | Neither kind of reset discards, renames or reorders an outgoing message |
| Conservation.RunConserves | src/paho/mqtt/client.py:3304-3309 | The partition of the accepted messages and the queue limit are kept by whole runs from any well-formed state |
| Wire.RunKeeps | src/paho/mqtt/client.py:3763-3800 | In every run the table is ordered by acceptance and at most one packet is under way for each identifier, and it fits the state of its message |
| Wire.NextKeeps | src/paho/mqtt/client.py:3802-3831 | Every step keeps this, whatever the broker sends and the network loses |
| Wire.ReopenKeeps | src/paho/mqtt/client.py:1551-1609 | Reconnecting, with a kept or a clean session, empties both channels and leaves a table that fits them |
| Progress.CanComplete | src/paho/mqtt/client.py:3717-3744 | From every state that any run can reach, resets of both kinds and failed writes included, one reconnection of either kind and finitely many deliveries empty the table and complete every accepted message: none is ever stuck |
| Progress.DeliveryMoves | src/paho/mqtt/client.py:4277-4284 | Each delivery to broker or client with writes that succeed keeps the next packet of every message under way and leaves exactly one delivery less to do |
| Progress.EveryScheduleCompletes | src/paho/mqtt/client.py:3763-3831 | And so does every order of deliveries: from the new connection on, all interleavings of the packets taken by the broker and by the client that cannot go on have the same number of deliveries, leave an empty table and have completed every accepted message; shorter ones can go on |
| Window.CounterIsExact | src/paho/mqtt/client.py:4210-4220 | In every run the in-flight counter is the number of messages under way minus the incoming messages released since the last reset; while connected, a message is held back only when the window is full |
| Window.WindowRespected | src/paho/mqtt/client.py:4234-4257 | With a positive window, no step but the handling of CONNACK takes the in-flight counter above both its old value and the window |
| InFlight.ExceedsExactly | src/paho/mqtt/client.py:2177-2180 | The same about the messages part way through their flow, in every state that a run can reach: a step other than the handling of CONNACK takes their number above both its old value and the window if and only if messages released by incoming PUBRELs since the last reset have made room beyond the window, enough messages are held back or published, and they can be written |
| InFlight.InFlightRespected | src/paho/mqtt/client.py:2177-2180 | As long as no incoming message was released since the last reset, no step but the handling of CONNACK takes more messages under way than there were or than the window allows |
| InFlight.ReleaseOverruns | src/paho/mqtt/client.py:4210-4220 | A run with a window of one in which an incoming PUBREL takes a second message under way |
| Window.ConnackCompletes | src/paho/mqtt/client.py:3954-4017 | Whenever a run handles CONNACK with working writes: every message owed is sent once, as the right packet, oldest first, the early return at a queued message skips none of them, and none is left over |
| Window.OvershootExactly | src/paho/mqtt/client.py:3976-4014 | After that loop the counter is above the window if and only if more messages are counted or owed than the window allows |
| Window.OvershootHappens | src/paho/mqtt/client.py:3976-4014 | A run with a window of one that has two messages in flight |
| Resend.ConnackResendsAll | src/paho/mqtt/client.py:3954-4017 | The loop's exact effect on any table in which nothing owed stands behind a queued message: the packets appended are the packets owed, in order, and each message changes state accordingly |
| Resend.ConnackExactly | src/paho/mqtt/client.py:3954-4017 | On every connection, also one that is lost on the way: the loop sends what is owed for the messages before the one at which it stops, tries one write for each of them, and stops at the first that waits for the window, or that must be published when the connection is gone, or at the end; the return code tells which |
| Plain.RunPlain | src/paho/mqtt/client.py:1775-1782 | In every run the QoS 0 messages submitted while there is a connection leave the channel in this order and once each, taken by the broker or dropped at a reset, or are still in it |
| Plain.PlainReaches | src/paho/mqtt/client.py:1775-1782 | As long as the connection lasts, the broker takes each of them once and in order, up to those still in the channel |
| Plain.AllTaken | src/paho/mqtt/client.py:3165-3252 | And when it has taken what was left in the channel, it has taken all of them |
| Inbound.OncePerHandshake | src/paho/mqtt/client.py:4210-4215 | In every run, with any packets from the broker: the application gets exactly one message for each PUBREL that follows a PUBLISH of its identifier in the same session, in that order and with that body, and none for a PUBLISH that a clean session has forgotten; the table of half-received messages holds QoS 2 entries under their own identifiers only |
| Inbound.AnsweredExactly | src/paho/mqtt/client.py:4148-4232 | Whatever packet is handled, exactly the acknowledgement it calls for is sent (PUBACK, PUBREC, PUBCOMP, or none under manual acknowledgement), apart from the PUBCOMP behind a refill that closes the socket |
| Inbound.BadPacketCloses | src/paho/mqtt/client.py:4167-4168 | A PUBLISH of QoS 3, or a CONNECT, changes nothing and closes the connection |
| Inbound.ResetKeepsInbox | src/paho/mqtt/client.py:3746-3757 | For such a table the reset of a kept session removes nothing while it iterates |
| Inbound.ProcessAgrees | src/paho/mqtt/client.py:4158-4166 | One packet keeps table and deliveries in agreement with the history of handshakes |
| ClientObject.Client.constructor | src/paho/mqtt/client.py:817-834 | A new client has the initial session |
| ClientObject.Client.MidGenerate | src/paho/mqtt/client.py:3304-3309 | The next identifier in 1..65535, with wrap-around |
| QosSession.MidsDiffer | src/paho/mqtt/client.py:3304-3309 | Any 65535 identifiers given one after the other are different, and then the first one comes again |
| QosSession.MidsGoRound | src/paho/mqtt/client.py:3304-3309 | The identifier that comes after any number of others |
| ClientObject.Client.Queue | src/paho/mqtt/client.py:3763-3800 | Appends the packet and, outside a callback, tries one write, whose result it returns; a failed write closes the socket |
| ClientObject.Client.StartMessage | src/paho/mqtt/client.py:1803-1811 | Counts a message, gives it its waiting state and sends it |
| ClientObject.Client.PublishBody | src/paho/mqtt/client.py:1775-1822 | A QoS 0 message is refused with NO_CONN if and only if there is no connection, and otherwise is put at the end of the channel under a new identifier and one write is tried. Another one is refused if and only if the queue limit is reached or the identifier is in use; if it is not, it is in the table, as the very handle that is returned: sent at once when the window has room and there is a connection, ready to publish when there is none, and queued when the window is full. The other entries and handles are left alone |
| ClientObject.Client.RefillWindow | src/paho/mqtt/client.py:4234-4257 | The loop starts queued messages oldest first while the window has room, up to a failed send |
| ClientObject.Client.Acknowledge | src/paho/mqtt/client.py:4432-4470 | The acknowledged message leaves the table, its handle is marked published and no other; the window is refilled |
| ClientObject.Client.ReceivePubrec | src/paho/mqtt/client.py:4277-4284 | The message waits for PUBCOMP, PUBREL is put at the end of the channel and one write is tried; an unknown identifier is ignored |
| ClientObject.Client.ReceivePublish | src/paho/mqtt/client.py:4148-4168 | QoS 0 and 1 are delivered at once, QoS 2 is stored under its identifier; PUBACK (unless under manual acknowledgement) or PUBREC is put at the end of the channel and one write is tried |
| ClientObject.Client.ReceivePubrel | src/paho/mqtt/client.py:4210-4232 | A stored message is delivered and removed, the counter reduced, the window refilled; PUBCOMP is sent in any case |
| ClientObject.Client.ResetMessages | src/paho/mqtt/client.py:3717-3744 | Every message of the table gets its reset state and dup flag |
| ClientObject.Client.ResetIncoming | src/paho/mqtt/client.py:3746-3757 | A clean session forgets the half-received messages, a kept one keeps those of QoS 2 |
| ClientObject.Client.Reopen | src/paho/mqtt/client.py:1573-1609 | Reconnecting closes the socket, drops what was not written, resets both tables and sends CONNECT |
| ClientObject.Client.ReceiveConnack | src/paho/mqtt/client.py:3954-4017 | The resend loop, message by message, with its early return |
| ClientObject.Client.Receive | src/paho/mqtt/client.py:3802-3831 | Every packet is handled as in the session, whose runs the theorems are about; each entry stays in the table as the same object, or it is gone and its handle is marked published |
| ClientObject.Client.PublishedExactly | src/paho/mqtt/client.py:4432-4433 | After any calls whatever: the handle of an accepted message is marked published exactly when an acknowledgement has removed the message, and until then that handle itself stands in the table |
| ClientObject.Client.Ack | src/paho/mqtt/client.py:4170-4182 | Under manual acknowledgement PUBACK for QoS 1 and PUBCOMP for QoS 2 is put at the end of the channel and one write is tried; otherwise nothing happens |
| PacketReading.FaithfulExactly | src/paho/mqtt/client.py:3059-3163 | For a stream: whatever the socket does (splitting, blocking, failing), whatever the handler does (success, an error code, an exception) and after any number of calls, the packets done with are those of the one-shot parse of the bytes received and what is kept is its rest, if and only if no packet of the stream with command byte 0 has a byte behind its first |
| PacketReading.CallKeeps | src/paho/mqtt/client.py:3059-3163 | One call on such a stream gives at most one packet to the handler, frees it when the handler returns and leaves it when it raises; it loses and repeats no byte, reports a protocol error exactly where the one-shot parse is malformed, and leaves a complete packet otherwise only after a hundred receive calls; the next call then gives it to the handler at once |
| PacketReading.RaisedGivenAgain | src/paho/mqtt/client.py:3146-3159 | On such a stream, after any number of calls: the packets done with are those for which the handler returned, and one for which it raised is given to it again by the next call, before any other |
| PacketReading.LoopKeeps | src/paho/mqtt/client.py:2098-2110 | The loop of `loop_read` on such a stream: the packets handled stay those of the one-shot parse |
| PacketReading.LosesSome | src/paho/mqtt/client.py:3073-3089 | For every other stream, receive calls after which the packets handled are not those of the parse |
| PacketReading.ZeroCommandLost | src/paho/mqtt/client.py:3073-3089 | A run of the reader: the two bytes of a packet arrive in two calls and the packet is not handled |
| PacketReading.PacketReader.PacketRead | src/paho/mqtt/client.py:3059-3163 | The method computes the call these theorems are about, with the handler's return code or exception as its end |
| PacketDelivery.CallEnds | src/paho/mqtt/client.py:3072-3144 | How a call on such a stream ends is decided by the last event that it meets: CONN_LOST if and only if it is a failure or the end; AGAIN if and only if the socket would block there, or a hundred receive calls for the body are used up; only a call that finds a complete packet receives nothing |
| PacketDelivery.ReadsToTheEnd | src/paho/mqtt/client.py:3059-3163 | For a faithfully read stream without a malformed packet, a socket that neither fails nor ends and a handler that reports no error, however often it raises: after enough calls all bytes that the socket delivers are received and every packet complete in them has been handled; if it delivers the stream, these are the packets of the one-shot parse |
| PacketDelivery.EnoughEvents | src/paho/mqtt/client.py:3059-3163 | A socket that gives something at least once for each byte of the stream delivers all of it, whatever it gives at a time and wherever it blocks |
| PacketDelivery.CallLeft | src/paho/mqtt/client.py:3072-3144 | A call asks for one byte at a time up to the end of the length field and then for all the rest of the packet: what the script of the socket delivers is told by the stream and the script alone |
| PacketReading.PacketReader.LoopRead | src/paho/mqtt/client.py:2098-2110 | The loop computes calls until one handles no packet, or the handler reports an error or raises |
| PacketDelivery.LoopEnds | src/paho/mqtt/client.py:2098-2110 | A loop of n calls that all handle a packet handles n, and otherwise ends as the first call that does not |
| PacketReading.LengthByteKeeps | src/paho/mqtt/client.py:3095-3119 | One length byte keeps the multiplier at 128 to the number of length bytes and the length at their value; the fifth is a protocol error, exactly where the one-shot parse is malformed |
| PacketReading.BodyKeeps | src/paho/mqtt/client.py:3124-3144 | At most a hundred receive calls; packet and bytes left always add up to the announced length |
| PacketReading.PacketReader.ReadBody | src/paho/mqtt/client.py:3124-3144 | The loop computes these receive calls |
| PacketDelivery.BodyEnds | src/paho/mqtt/client.py:3124-3144 | They end the call with CONN_LOST if and only if the last event is a failure or the end, with AGAIN if and only if the socket would block there or the hundredth call still gave something, and let it go on when the body is complete |
| PacketStream.ParseConcat | src/paho/mqtt/client.py:3146-3159 | A stream that ends with a packet is parsed independently of what follows |
| PacketStream.PrintedParses | src/paho/mqtt/client.py:3350-3365 | A printed packet of permitted length is parsed back, whatever follows it |
| PacketStream.WrittenLengthAccepted | src/paho/mqtt/client.py:3095-3122 | The reader accepts a written length if and only if it is at most 268435455 |
| PacketStream.ReadLengthIs | src/paho/mqtt/client.py:3095-3122 | The reader's length field is the variable byte integer, cut off after four bytes |
| PacketWriting.PacketWriter.PacketWrite | src/paho/mqtt/client.py:3165-3252 | However the socket takes the bytes, what was sent followed by what is left are the packets queued; QoS 0 handles are marked exactly for the packets sent to the end; after a DISCONNECT nothing is sent; only a send that takes nothing loses bytes. The number of bytes sent, the return code and what is left are those that the socket's script and the sizes of the packets alone decide, as the next rows say |
| PacketDraining.DoneExactly | src/paho/mqtt/client.py:3165-3252 | A call has sent all bytes up to the end of the queue or its first DISCONNECT if and only if it ends for that, with success and nothing left of them |
| PacketDraining.EndExactly | src/paho/mqtt/client.py:3172-3247 | Every send call but the last takes something, and the last event decides: AGAIN exactly where the socket blocks or has nothing more to say, CONN_LOST exactly at a failure, success at an unusable socket or a send that takes nothing |
| PacketDraining.OneMoreSend | src/paho/mqtt/client.py:3172-3189 | One event more sends as many bytes as it may, up to the end of the packet at the head |
| PacketDraining.AddsUpExactly | src/paho/mqtt/client.py:3172-3189 | Sends that may take together just as much as there is to send send everything if and only if none reaches beyond the end of its packet |
| PacketDraining.NotAcrossPackets | src/paho/mqtt/client.py:3172-3189 | Two packets of two bytes each: one send that may take four bytes leaves the second, two that may take two send both |
| PacketDraining.EnoughSends | src/paho/mqtt/client.py:3165-3252 | One send that takes something for each byte is always enough |
| PacketDraining.WriteToTheEnd | src/paho/mqtt/client.py:3165-3252 | Called again while it answers AGAIN, on a socket that blocks but does not fail and takes something often enough, the writer sends everything queued, in order |
| PacketWriting.PacketWriter.PacketQueue | src/paho/mqtt/client.py:3771-3781 | Appending a packet keeps this account |
| PacketWriting.SendKeeps | src/paho/mqtt/client.py:3187-3246 | Taking any positive number of bytes of the head keeps the account and leaves fewer bytes to send |
| PacketWriting.HeadLost | src/paho/mqtt/client.py:3246-3247 | A packet that is popped and not put back is missing from what was sent and what is left |
| PacketWriting.FinishedIsSent | src/paho/mqtt/client.py:3191-3224 | The bytes sent are the finished packets and the head up to its position: a handle is marked no sooner than the last byte is sent |
| Pipe.HandledAreFinished | src/paho/mqtt/client.py:3165-3252 | What the reading side handles of the bytes sent so far are exactly the packets sent to their last byte, in the order in which they were queued |
| Pipe.HandledInOrder | src/paho/mqtt/client.py:3059-3163 | However much of it has arrived, the packets handled are the first of those queued |
| PublishPacket.SendPublish | src/paho/mqtt/client.py:3392-3449 | The bytes sent are those of section 3.3 of MQTT 5.0: 48 plus the flags, the number of all bytes behind the length field, and there the topic behind its length, the packet identifier for QoS 1 and 2, the properties, and the payload; refused if and only if the topic or the properties do not fit |
| PublishPacket.HandledExactly | src/paho/mqtt/client.py:4096-4131 | A body that arrives is handled as a message if and only if it has just the fields of that message |
| PublishPacket.PublishRoundTripExactly | src/paho/mqtt/client.py:3802-3813 | A sent PUBLISH is read as one packet, dispatched by its type and handled as the message that was sent (dup, qos, retain, topic, identifier, properties, payload) if and only if its length is at most 268435455, its topic is not empty before MQTT 5, and its properties are a valid set in MQTT 5 |
| Bytes.InNetworkOrder | src/paho/mqtt/properties.py:30-47 | Numbers of two, four and eight bytes are written high byte first |
| VarInt.Encode | src/paho/mqtt/properties.py:95-111 | The encoding of 0..268435455, refused outside |
| VarInt.Decode | src/paho/mqtt/properties.py:114-132 | The value and size at the front of a buffer; fails exactly when the buffer ends early |
| VarInt.AppendDigits | src/paho/mqtt/client.py:3350-3365 | The packet writer's loop appends the same bytes |
| VarInt.UndigitsOfDigits | src/paho/mqtt/properties.py:95-132 | Decoding undoes encoding, whatever bytes follow |
| VarInt.DigitsMinimal | src/paho/mqtt/properties.py:114-132 | No encoding of a value is shorter than the one written; an accepted encoding is as short exactly when its last byte is not zero, which the decoder does not check |
| VarInt.DigitsPrefixFree | src/paho/mqtt/properties.py:95-111 | No encoding is the beginning of another |
| VarInt.DigitsLength | src/paho/mqtt/properties.py:95-111 | One to four bytes exactly up to 268435455, with the boundaries between |
| VarInt.DigitAt | src/paho/mqtt/properties.py:95-111 | Each byte has the next seven bits, low ones first, and the top bit tells whether another byte follows |
| Utf8.DecodeOfEncode | src/paho/mqtt/properties.py:50-54 | Decoding a written text gives the text |
| Utf8.EncodeOfDecode | src/paho/mqtt/properties.py:57-75 | A text has one encoding only |
| Utf8.CharBits | src/paho/mqtt/properties.py:50-54 | The bytes of a character are those of section 3 of RFC 3629 |
| PropertySet.Properties.Set | src/paho/mqtt/properties.py:251-290 | Assigning a value: unknown names, wrong packet types and forbidden values are refused and change nothing; values of a multiple property are appended |
| PropertySet.Properties.SetList | src/paho/mqtt/properties.py:266-290 | Assigning a list checks no value |
| PropertyLaws.ListRestoredExactly | src/paho/mqtt/properties.py:266-290 | A list assigned as a whole that packs is restored if and only if it has a value and each of them is valid |
| PropertyLaws.ListsLost | src/paho/mqtt/properties.py:266-290 | An empty list of user properties and a list with the subscription identifier 0: both pack and neither is restored |
| PropertySet.Properties.Clear | src/paho/mqtt/properties.py:326-330 | Removes every property |
| PropertySet.Properties.Pack | src/paho/mqtt/properties.py:351-366 | The nested loops write the specified bytes or fail where a value does not fit its type |
| PropertySet.Properties.Unpack | src/paho/mqtt/properties.py:399-421 | The loop terminates and leaves in the set what the specification says, also where it fails half way |
| PropertyLaws.RoundTripExactly | src/paho/mqtt/properties.py:332-421 | A set that can be packed is restored by unpacking, with the order of multiple values, consuming exactly the packed bytes, if and only if every property is known, belongs to the packet type, has its arity, is not an empty list, and holds values within range, type and permitted characters |
| PropertyLaws.AnyOrder | src/paho/mqtt/properties.py:399-421 | In whatever order the properties of a valid set stand in the buffer, unpacking gives that set |
| PropertyLaws.PackNormalises | src/paho/mqtt/properties.py:351-421 | What any buffer of at most 268435455 bytes leaves in the set, also where unpacking fails, can be packed, to at most three bytes more than the buffer had; for any buffer, what packs unpacks to the same set and packs to the same bytes again |
| PropertyLaws.UnpackSize | src/paho/mqtt/properties.py:399-421 | Properties read take no more bytes when written than the buffer had for them |
| PropertyLaws.DuplicateRefused | src/paho/mqtt/properties.py:417-419 | A buffer with a single-valued property twice is refused |
| PropertyLaws.UnpackValid | src/paho/mqtt/properties.py:399-421 | Whatever a buffer holds, what unpacking leaves in the set is valid, even where it fails |
| PropertyLaws.ItemsBack | src/paho/mqtt/properties.py:405-420 | Reading a sequence of well-formed properties fails exactly when one that allows a single value comes twice, and otherwise adds the values of each in their order |
| PropertyLaws.ValueBack | src/paho/mqtt/properties.py:332-390 | Each value is read back from its bytes, whatever follows |
| PropertyLaws.ValueLaidOut | src/paho/mqtt/properties.py:332-349 | The bytes of each type are those of section 1.5 of MQTT 5.0: numbers high byte first, texts and binary data behind their length, the key of a pair before its value |
| PropertyLaws.TableAgrees | src/paho/mqtt/properties.py:189-237 | The table by properties allows exactly the properties that the standard lists for each packet |
| TopicTree.Matcher.Set | src/paho/mqtt/matcher.py:19-25 | Stores the value under the filter's levels and changes nothing else; no useless node remains |
| TopicTree.Matcher.Get | src/paho/mqtt/matcher.py:27-37 | The value stored under the filter, or none |
| TopicTree.Matcher.Delete | src/paho/mqtt/matcher.py:39-55 | Removes the filter's value and nothing else; refused, changing nothing, exactly when no stored filter is or extends it |
| TopicTree.Matcher.Prune | src/paho/mqtt/matcher.py:51-55 | The cleanup keeps every stored value and leaves no node without a value or a child |
| TopicTree.Matcher.FindsMatches | src/paho/mqtt/matcher.py:57-78 | For a topic without wildcard levels the search yields, each once, exactly the values of the stored filters that match under sections 4.7.1 and 4.7.2 of MQTT 3.1.1 |
| TopicTree.Matcher.RecIsWalk | src/paho/mqtt/matcher.py:62-77 | The recursive search over the nodes yields the values of the filters found by the walk over the tree of stored filters, in the same order |
| TopicTree.FindLaws | src/paho/mqtt/matcher.py:19-55 | Storing and removing act on keys as on a finite map: no other filter is touched |
| TopicTree.PathsAreBeginnings | src/paho/mqtt/matcher.py:51-55 | The nodes kept are exactly the beginnings of the stored filters |
| TopicTree.TopicMatchesSub | src/paho/mqtt/client.py:423-437 | One filter against one topic; the standard's match for topics without wildcard levels |
| TopicMatch.WalkFinds | src/paho/mqtt/matcher.py:62-77 | The walk finds exactly the stored filters that match |
| TopicMatch.MatchesIsStandard | src/paho/mqtt/matcher.py:62-77 | On topics without wildcard levels, the level-by-level match is the standard's |
| TopicMatch.EachOnceExactly | src/paho/mqtt/matcher.py:68-77 | Every match is reported once, whatever filters are stored, if and only if the topic has no '+' level and does not end in '#' |
| TopicTree.SearchItself | src/paho/mqtt/matcher.py:57-78 | A matcher that stores one filter, searched for the topic spelled like it, yields the value once if and only if that topic has no '+' level and does not end in '#', and otherwise more than once |
| Levels.SplitOnto | src/paho/mqtt/matcher.py:23-23 | Splitting yields exactly the nonempty lists of levels without a separator |
| Levels.SplitInjective | src/paho/mqtt/matcher.py:23-23 | Different keys have different levels |
| Levels.FilterAcceptedExactly | src/paho/mqtt/client.py:3323-3329 | The check accepts exactly the filters of 1..65535 bytes whose levels are free of wildcards, '+', or a final '#' |
| Levels.JoinOfSplit | src/paho/mqtt/matcher.py:23-23 | Joining the levels of a key gives the key |
| Levels.SplitOfJoin | src/paho/mqtt/matcher.py:23-23 | Splitting joined levels gives the levels |
| WebSocketWrapper.WebsocketWrapper.RecvImpl | src/paho/mqtt/client.py:4876-4957 | However the socket cuts the frames and the caller its requests, the bytes returned are the data of the binary and continuation frames in order, without gap or overlap. When the bytes held and those the socket gives reach the next chunk of a data frame, a call returns just that chunk, of the length asked for or up to the end of the frame, and the frame is complete if and only if the chunk reaches its end; a control or empty frame yields nothing. Otherwise the call would block or loses the connection if and only if the last receive call gave less than was asked for or failed. A complete ping or close is answered by one frame given to the socket, of which the socket takes a beginning, behind whatever was written before, and the socket's result for it decides how the call ends |
| WebSocketWrapper.ReadOn | src/paho/mqtt/client.py:4876-4957 | Whoever calls often enough on a socket that neither fails nor ends, with any length and whatever the pieces in which it gives the bytes, has received the stream and has exactly the data of its frames, when it ends with a frame |
| WebSocketWrapper.CallMoves | src/paho/mqtt/client.py:4857-4934 | Every call on such a socket lowers a bound on the calls that are needed |
| WebSocketWrapper.DeframedAgrees | src/paho/mqtt/client.py:4931-4934 | The frames completed are those of the one-shot parse of all bytes received, and the buffer is its rest: it never holds a byte past the current frame |
| WebSocketWrapper.WebsocketWrapper.BufferedRead | src/paho/mqtt/client.py:4857-4874 | The requested bytes behind the head, reading from the socket only what is missing; an interrupted read keeps what arrived |
| WebSocketWrapper.WebsocketWrapper.FillHeader | src/paho/mqtt/client.py:4888-4910 | The header is complete exactly when the read succeeds |
| WebSocketWrapper.WebsocketWrapper.Finish | src/paho/mqtt/client.py:4931-4945 | The reset at the end of a frame loses nothing, and a ping or close is answered with its payload, unmasked as far as this call has read it, also when the socket blocks, fails or takes a part of the answer |
| WebSocketWrapper.AnswersExactly | src/paho/mqtt/client.py:4915-4945 | The answers given are those with the frames' own payloads if and only if no ping or close had a byte changed by its mask that came before the last call for it |
| WebSocketWrapper.MaskedPing | src/paho/mqtt/client.py:4921-4926 | A masked ping, read in two calls, that is answered with another payload |
| WebSocketWrapper.Unmask | src/paho/mqtt/client.py:4921-4926 | The loop unmasks the bytes from the chunk's start on and no others |
| WsFrames.CreatedParses | src/paho/mqtt/client.py:4824-4855 | A created frame is parsed back to its opcode and, unmasked, its payload, whatever follows it |
| WsFrames.MaskedTwice | src/paho/mqtt/client.py:4850-4853 | Masking twice gives the data |
| WsFrames.MaskedBitwise | src/paho/mqtt/client.py:4850-4853 | Masking flips just the bits that the key byte of the position has |
| WsFrames.CreatedBytes | src/paho/mqtt/client.py:4824-4855 | The bytes of a frame are those of section 5.2 of RFC 6455: final flag and opcode, masking flag and length in seven bits or in two or eight bytes behind 126 and 127, the key, and the masked data |
| WebSocketWrapper.WebsocketWrapper.SendImpl | src/paho/mqtt/client.py:4959-4979 | A write becomes one frame, sent once however often it is repeated; while a frame is under way, a write goes on with that frame whatever its own data. One send call is made for what is left of the frame and as much goes out as the socket takes; an exception is raised if and only if it takes none for an error; a positive result is the size of the data whose frame is sent to the end |
| WebSocketWrapper.WebsocketWrapper.OtherSideSees | src/paho/mqtt/client.py:4936-4979 | As long as every answer was taken not at all, or whole and between frames, the other side finds exactly the data accepted, in order, whatever is read and written in between on the one socket |
| WebSocketWrapper.WriteReadWrite | src/paho/mqtt/client.py:4936-4979 | A write that the socket cuts, a read that answers a control frame, and the write again: the socket has the frame with the piece of the answer in the middle, and the wrapper counts as intact exactly when that piece is empty or is the whole answer at the frame's edge |
| WsSplice.SurvivesExactly | src/paho/mqtt/client.py:4936-4945 | The stream with that piece in it survives, whatever the data and the mask key are, if and only if the piece is empty or is the whole answer between frames |
| WsSplice.WholeExactly | src/paho/mqtt/client.py:4936-4945 | The socket has the frame and the answer each whole if and only if the answer was taken whole at an edge of the frame, or the rest of the frame happens to commute with it |
| WsSplice.PingInsideFrame | src/paho/mqtt/client.py:4941-4945 | A ping answered when 7 of 9 bytes of a frame are taken: the other side finds other data, and then the begin of a frame that was never sent |
| SocketCallbacks.RunAll | README.rst:475-483 | Every run of reconnects, queued packets, writes, waiting reads and closes calls the callbacks in the documented order, and never leaves a packet waiting for an open socket that is not registered for writing |
| SocketCallbacks.OrderedIsDocumented | README.rst:475-483 | A trace in which each callback follows one it may follow is a run of that pattern, cut anywhere |
| SocketCallbacks.Callbacks.Reconnect | src/paho/mqtt/client.py:1573-1607 | The queue is dropped; there is a socket exactly when one could be made and the CONNECT did not close it, registered exactly when the CONNECT still waits to be written. The callbacks called are those for closing the old socket, for opening the new one and for what has changed then |
| SocketCallbacks.Callbacks.LoopWrite | src/paho/mqtt/client.py:2112-2137 | Writing takes from the queue the packets sent, is closed by a failure or a sent DISCONNECT, and leaves the socket registered exactly when it is there and packets are left; the callbacks called tell of the change and of nothing else |
| SocketCallbacks.Callbacks.PacketQueue | src/paho/mqtt/client.py:3763-3800 | A queued packet is written at once or registers the socket, so that none waits unregistered |
| SocketCallbacks.Callbacks.SockClose | src/paho/mqtt/client.py:1128-1140 | A registered socket is unregistered before it is closed, and a socket that is not there is neither |
| SocketCallbacks.Callbacks.CallRegisterWrite | src/paho/mqtt/client.py:2911-2915 | Registers only a present and unregistered socket |
| SocketCallbacks.Callbacks.CallUnregisterWrite | src/paho/mqtt/client.py:2967-2974 | Unregisters only a registered socket |

## Left out

- Window.WindowRespected: is about a positive window only, as a window of zero means no limit in the code, and about the counter; `InFlight` has the messages part way through their flow.
- InFlight.ExceedsExactly: leaves out the handling of CONNACK, for which `Window.OvershootExactly` has the condition.
- Progress.EveryScheduleCompletes: starts behind the handled CONNACK; the application publishes nothing and the broker sends nothing of its own meanwhile.
- Window.ConnackCompletes: assumes that the writes succeed. After a failed write the socket is closed and the next connection starts over.
- PacketReading.PacketReader.LoopRead: closing the socket after an error code, which the loop leaves to `_loop_rc_handle`, is not part of the reader.
- PacketDelivery.ReadsToTheEnd: is about a handler that reports no error, because an error code closes the socket.
- WebSocketWrapper.WebsocketWrapper.SendImpl: is not composed with the packet writer, which takes the result 0 of an unfinished frame for a send that took nothing and drops the packet, as `PacketWriting.HeadLost` has it.
- PublishPacket.SendPublish: identifiers are below 65536 and qos at most 2, as `publish` ensures.
- PropertySet.Properties.Set: values of another Python type than their property's are refused without telling the exceptions apart, and a byte string given for a text is not accepted.
- SocketCallbacks.RunAll: callbacks neither raise nor call back into the client.
- Threads, locks and the socket pair that wakes the loop: the model takes single-threaded steps.
- User callbacks and their signatures, and what they raise inside the session model; re-entrant calls of `publish` from `on_publish`.
- Changes of the window or the queue limit while messages are under way: both are constants of a run.
- CONNECT and CONNACK contents, refused connections, keep-alive, DISCONNECT, subscribe and unsubscribe inside the session model.
- Lengths and reason codes of PUBACK, PUBREC, PUBREL and PUBCOMP packets: the session model starts behind their parsing, with success codes only.
- Uniqueness of identifiers across PUBLISH, SUBSCRIBE and UNSUBSCRIBE, which the code does not check.
- QoS 0 messages never enter the table of outgoing messages, so the branches of the reset and resend loops for them are not modelled.
- Marking unsent QoS 0 handles as lost on reconnect.
- `Properties.__str__`, `json`, `isEmpty`: printing.
- TLS, proxies, DNS, Unix sockets and the HTTP upgrade of a WebSocket connection.
- `reasoncodes.py`, `subscribeoptions.py`, `enums.py`, `publish.py`, `subscribe.py`: finite tables and thin wrappers.
