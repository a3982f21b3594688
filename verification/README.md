# Verification of the camera relay

Two processes relay cameras to desktop clients. The device server finds Sub-Pis (by UDP beacon) and
Hanwha cameras (by ONVIF or ARP), keeps them in one registry, watches whether they are alive, mounts
an RTSP relay for each Sub-Pi, and reads AI, META and IMAGE events from a command connection to each
Sub-Pi. It pushes everything over an internal link to the client server, which logs users in and
passes events on to Qt clients, over TLS when it has certificates. This project models both processes
in Dafny and proves what their concurrency, their framing and their accounts are meant to guarantee.

`dafny verify dfyconfig.toml` checks everything.

## How the model is built

- **Code that updates state is imperative here too.** `NetUtil.SendExact`/`RecvExact` loop over a socket
  that moves any positive number of bytes per call; the readers (`SubPiListener.Listener`,
  `InternalServer.ClientHandler`, `InternalClient.Client`, `QtReader.Handler`) are classes that read
  such sockets; the registry, the scanner, the beacon thread's port counter and thread map, the mount
  table, the account table, the client table and the controller are classes with the fields of the
  source. Each method is proved equal to a specification function on values.
- **Concurrency is a step machine.** `Discovery` has the beacon thread, the scanner, the monitor and the
  listener threads over one registry, each with its own program counter and locals. A critical section
  of the device mutex is one step; probing, harvesting, callbacks and descriptor traffic elsewhere in the
  process are steps of their own, and any interleaving is a run. The critical sections are the
  specification functions the imperative methods are proved against. What a method does in a loop or in
  several stages with other threads in between appears in the machine pass by pass or stage by stage: the
  health check (`Probe`, which adds up to the method by `DiscoverySockets.ProbeIsHealthCheck`), the third
  monitor phase (`ReapNext`), joining (`Join`), the handshake (`Connect`) and a scan candidate (`HearCamera`,
  `HarvestCamera`, `PublishChannel`). `Acceptor` is the accept loop and the map of handler threads that the two
  socket servers have in common; `Broadcast` (the internal link) and `Sessions` (the Qt connections) contain it, and
  `CameraLists` contains `Broadcast`. `TlsOrder` and `Locking` are machines of the same kind for the sends to the Qt
  clients and for the mutexes and joins. Everything works on raw descriptors, which the kernel may hand out again at
  once; sessions and connections carry numbers of their own, so that the two can be told apart.
- **Theorems speak about every run** from the initial state, or about every history of account operations.

| module | what it is |
|---|---|
| `Common`, `Json`, `Wire`, `NetUtil` | ids and their text keys, abstract JSON, framing in both byte orders, exact I/O |
| `SubPiListener`, `ListenerLaws`, `ListenerErrors` | reader of one Sub-Pi connection, its error counter in terms of the frames |
| `Acceptor` | accept loop, handler threads, finished list and list of clients of both servers |
| `Pieces` | what a socket has accepted, by the sends it came from |
| `InternalServer`, `LinkRequests`, `Broadcast`, `BroadcastExamples` | the link's server side: reader, senders, broadcasts under the client mutex and the handlers' own sends without it |
| `CameraLists`, `CameraExamples` | how fresh the pushed camera list is |
| `InternalClient`, `ClientLaws` | the link's client side: reader, the two caches, reconnecting |
| `RelayChain` | Sub-Pi to Qt callbacks, end to end, over any number of connections of the link |
| `QtReader`, `QtTalk`, `TlsOrder`, `TlsExamples` | reader of a Qt client, its messages end to end, packets in the clear and encrypted records sent to it |
| `DeviceManager`, `SubPiManager`, `OnvifScanner`, `RtspServer` | registry, beacon thread, scanner, mounts |
| `Discovery`, `DiscoverySockets`, `DiscoveryLaws`, `DiscoveryRelay`, `DiscoveryThreads`, `DiscoveryReuse`, `DiscoveryCalls`, `DiscoveryScans`, `DiscoveryExamples` | the device server as a machine and what holds in every run |
| `Locking` | mutexes and joins of both servers |
| `AuthManager`, `AccountLaws`, `AccountReplies` | accounts, and every answer in terms of the whole history |
| `QtCommServer`, `ClientController`, `ControllerLaws`, `Sessions`, `SessionExamples` | client table, controller, sessions and roles |

## What turned out

Points where the code does less than one might expect; each is a theorem with its exact condition or a
concrete run.

- The Sub-Pi listener takes images of up to 10 MiB and events of up to 1 MiB *before* two fields are added
  to them, while the internal client takes images strictly under 10 MiB and bodies of up to 1 MiB *after*.
  `RelayChain.RelayAlignedExactly` gives the exact condition under which a delivered frame keeps the link
  aligned: a decorated body of at most 1 MiB and an image strictly under 10 MiB.
- The internal server acts on the header of a body of 1 MiB or more although it leaves the body in the
  stream (`InternalServer.AlignedExactly`): it is aligned exactly for bodies under 1 MiB.
- Both servers keep handler threads in a map under raw descriptors, join them only at the head of the accept loop, and
  assign a new thread to its entry without looking; assigning over a thread that has not been joined ends the process.
  A server survives if and only if accept never returns a descriptor one of whose handlers had not been joined in a
  pass before (`Acceptor.AliveExactly`, and for the two servers `Broadcast.AliveExactly` and `Sessions.AliveAndRight`);
  `Acceptor.SafeDescriptors` says which descriptors are safe while accept waits. An ordinary reconnect is not: a client
  that leaves while accept waits is not joined before the next one comes (`SessionExamples.ReconnectEndsServer`,
  `BroadcastExamples.ReconnectEndsServer`). What can go wrong between accept and that assignment is the next two points.
- Handlers close a descriptor before they remove it from the list of clients. In every run a connection is in the list
  exactly once while it is open if and only if accept did not return its descriptor while that was still in the list
  (`Acceptor.ListedExactlyOnce`, `Broadcast.SentOnceExactly`), and for Qt clients this is exactly when every broadcast,
  role-limited ones included, goes to it as it should (`Sessions.RightExactlyUnlessListed`).
  `SessionExamples.ReissuedTooEarly` has the runs in which a new client is sent administrators' packets twice without a
  login, or nothing in spite of one. A client whose TLS session cannot be created is left in the list and in the
  session table for good (`Sessions.AbandonedStays`), so the next one on its descriptor is given up too and ends the
  server (`SessionExamples.AbandonedEndsServer`).
- The welcome and response messages of the internal server do not take the client mutex, and what is sent on a
  descriptor goes to whoever has it open. What a connection has accepted is whole frames if and only if it never
  accepted bytes of one send in the middle of another and never the rest of a frame begun before it had the descriptor
  (`Broadcast.WholeExactly`, for all runs). `BroadcastExamples.WelcomeCanInterleave` and `RestGoesToTheNext` are runs
  for either.
- Callbacks run after the mutex is released, so they can overtake each other, and discovery starts before
  the relay server. `DiscoveryRelay.RelayAgreesExactly` says for every run and every device exactly when
  the mount table agrees with the registry; `DiscoveryExamples` has a run for each way it fails.
- The camera list is read before the client mutex is taken, and a welcome is sent without it. No change is ever missed:
  once no push is outstanding the newest list has been sent to every connection, whenever it was opened. It is the one
  sent last if and only if the list sent last was not read before one that was begun to that connection earlier
  (`CameraLists.CurrentExactlyIfNotOvertaken`); `CameraExamples.OlderListSentLast` is a run in which it was.
- Listener threads and motor commands keep a descriptor after the monitor has closed it, and the kernel may hand it
  out again. A listener reads the stream of its own session, and a descriptor looked up for a motor command still
  means the Sub-Pi it was looked up for, exactly as long as the monitor has not closed that session
  (`DiscoveryReuse.ListenerReadsItsOwn`, `LookedUpDescriptor`). `DescriptorReused` is a run in which the listener
  of one Sub-Pi labels the stream of another with its own id, and a motor command reaches the other.
- The TLS handshake is complete before its last reply has been sent, that reply is sent outside the mutex, and so is a
  broadcast that decided before the completion to send in the clear. The packets on a Qt connection are whole if and only
  if no bytes of one send were accepted in the middle of another, and the records come after everything in the clear if
  and only if no byte of one was accepted while a message or a reply in the clear was unfinished
  (`TlsOrder.RecordsArriveInOrder`). `TlsExamples.ReplyOvertaken` and `PlainTearsRecord` are runs for either.
- The design notes give device status to administrators only (docs/architecture_decisions.md:109-115); a
  later decision and the code send it to users as well, without the server load. The model follows the code.

## Hypotheses

- Sends finish. A send that has failed on a connection keeps failing on it (`Broadcast`, `TlsOrder`).
- A descriptor handed out by the kernel is not that of an open socket. Nothing else is assumed of descriptors in
  `Acceptor`, `Broadcast`, `CameraLists`, `Sessions` and `Discovery`. In `TlsOrder` a connection stands for its descriptor
  and the session under it, which is so in careful runs (`Sessions.OwnSession`, `Acceptor.ListedExactlyOnce`).
- `RelayChain` speaks of one life of the device server. A connection in it must not have got a descriptor that was still
  listed, which never happens before the assignment that ends the server (`Broadcast.AliveExactly`).
- The bytes a listener reads in `RelayChain` are those of the Sub-Pi it was started for; by
  `DiscoveryReuse.ListenerReadsItsOwn` that is so exactly until the monitor closes the session.
- `RelayAgreesInOrder` assumes that the relay server has started before the first callback runs and that
  callbacks about one device run in the order of their critical sections; `RelayAgreesExactly` assumes
  neither.
- JSON is abstract with `parse(dump(j)) == j` and nonempty dumps; its numbers are integers. A value that is
  not an object where the source reads fields of it raises a type error, which ends the run (`Uncaught`,
  `Malformed`).
- The hash is any function of password and salt; `LoginExactly` and `LoginAnswered` assume that it never collides. TLS is a
  handshake answered by an oracle and a cipher that numbers its records.
- Iteration order of the source's maps is left open: proofs hold for any order.

## Model

| member | source | states |
|---|---|---|
| NetUtil.SendExact | common/NetUtil.h:11-20 | For any chunk sizes the loop ends; it succeeds iff the socket takes all the bytes, which then moved in order exactly once, and otherwise exactly the accepted prefix moved |
| NetUtil.RecvExact | common/NetUtil.h:23-32 | For any chunk sizes the loop ends; it succeeds iff `len` bytes are still delivered, which then fill the buffer in order and nothing more is consumed; otherwise all that was left was consumed; the rest of the buffer is untouched |
| Common.KeyInjective | DeviceServer/src/OnvifScanner.cpp:106-129 | Text keys of Sub-Pis and Hanwha channels never collide, so the two id spaces are disjoint |
| Common.AddressOfKey | DeviceServer/src/SubPiManager.cpp:215-220 | Dropping six characters of a Sub-Pi's key gives back its address |
| Common.DecimalValue | DeviceServer/src/SubPiManager.cpp:146 | A number written in decimal reads back as that number, without a leading zero |
| Json.DecorateFields | DeviceServer/src/SubPiManager.cpp:210-233 | Decorating an event sets `device_id` and `ip` to those of the Sub-Pi it came from and leaves every other field alone; it fails exactly for values that are neither null nor an object |
| Json.UInt32Exactly | DeviceServer/src/SubPiManager.cpp:244 | A size below 2^32 is read as it was written, a longer number modulo 2^32, a missing one as 0, and anything but a number or a truth value is a type error |
| Wire.LengthRoundTrip | common/Common.h:47-53 | Both length encodings give back every length that fits in 32 bits |
| Wire.LengthOfBytes | common/Common.h:47-53 | Every four bytes are the encoding of the length they decode to, in both orders |
| Wire.ByteOrder | common/Common.h:47-53 | On the internal links the most significant byte of a length comes first, towards Qt clients the least significant one |
| Wire.HeadOfFrame | common/Common.h:47-53 | At the start of an encoded frame, in either byte order, a reader finds its type and length, then body, tail and whatever follows |
| SubPiListener.Listener.ReadFrame | DeviceServer/src/SubPiManager.cpp:178-315 | One pass of the loop over any socket has the effect of the step function on the delivered bytes: events, error count, exit and bytes consumed; what that effect is for each frame is `ListenerErrors.FrameEffect` |
| SubPiListener.Listener.Listen | DeviceServer/src/SubPiManager.cpp:156-325 | The whole loop under any chunk sizes and any waits does what the run function does |
| ListenerLaws.AlignedExactly | DeviceServer/src/SubPiManager.cpp:178-255 | The listener is at the next frame after one pass iff the body is at most 1 MiB and the tail is what the listener will read of it: an accepted image size of 1 to 10 MiB with that many bytes, and otherwise none |
| ListenerLaws.ImageDelivered | DeviceServer/src/SubPiManager.cpp:234-264 | Every picture of 1 byte to 10 MiB whose description carries a `jpeg_size` equal to its length is delivered byte for byte, with every field of the description and the two that say where it came from, and the next frame is next |
| ListenerErrors.FrameEffect | DeviceServer/src/SubPiManager.cpp:178-315 | For every frame the listener stays aligned on: an event with its meaning and a cleared count; or one more error, and the end at the third, exactly for an AI, IMAGE, AVAILABLE or META body of 1 byte to 1 MiB that does not parse; or nothing, exactly for an empty body, another type or an image size out of range; or else the end by an exception |
| ListenerErrors.CountedExactly | DeviceServer/src/SubPiManager.cpp:192-315 | Whatever stands at the head of the stream, the count grows iff that is such an unparsable frame, and the listener quits for errors iff it is and two were counted before |
| ListenerErrors.StatusExactly | DeviceServer/src/SubPiManager.cpp:272-290 | A status report is kept as it came iff what is logged of it is numeric or missing, and ends the listener otherwise |
| ListenerErrors.GivesUpExactly | DeviceServer/src/SubPiManager.cpp:159-315 | A new listener on any stream of delivered, unparsable and ignored frames, under any waits: it gives up iff among the frames it was let read there are three unparsable ones with no delivered one in between, at the first such three, and what it has read by then has had its events in order |
| ListenerErrors.FailedWaitEnds | DeviceServer/src/SubPiManager.cpp:161-176 | A failed wait is the end, in the state reached by then |
| ListenerLaws.DeliveredInOrder | DeviceServer/src/SubPiManager.cpp:178-315 | Of a stream of well-formed frames, under any waits, exactly the first n events are delivered, in order, n being the number of times data was reported |
| ListenerLaws.ErrorCountMeaning | DeviceServer/src/SubPiManager.cpp:159-315 | From any state whose log agrees with its counter: at every loop head the counter is below 3 and equals the trailing run of malformed verdicts among the counted ones; the listener quits for parse errors exactly at the first run of three. Which frame gets which verdict is `ListenerErrors.FrameEffect` |
| ListenerLaws.ErrorsCountedFromStart | DeviceServer/src/SubPiManager.cpp:159-315 | The same for the whole loop of a new listener on any input; over the frames themselves it is `ListenerErrors.GivesUpExactly` |
| InternalServer.SendMessage | DeviceServer/src/InternalServer.cpp:221-232 | The peer gets the whole encoded frame and the call succeeds, or it gets exactly the accepted prefix and the call fails |
| InternalServer.SendImageMessage | DeviceServer/src/InternalServer.cpp:278-296 | The same for header, metadata and picture |
| InternalServer.Broadcast | DeviceServer/src/InternalServer.cpp:236-266 | Every registered client gets the whole frame or the prefix its own socket takes, whatever happens to the others |
| InternalServer.BroadcastImage | DeviceServer/src/InternalServer.cpp:268-276 | The same for images |
| InternalServer.ClientHandler.ReadRequest | DeviceServer/src/InternalServer.cpp:143-181 | One pass of the request loop has the effect of the step function, oversized bodies included |
| InternalServer.AlignedExactly | DeviceServer/src/InternalServer.cpp:143-160 | The handler is at the next frame iff the body is under 1 MiB and there is no tail |
| LinkRequests.RequestsInOrder | DeviceServer/src/InternalServer.cpp:143-181 | Of any stream of requests for the camera list, for the status and of motor commands the first k are acted upon after k passes, in order, each with its own two words |
| LinkRequests.AsksNothing | DeviceServer/src/InternalServer.cpp:150-181 | A request of another type, with a body that does not parse, or a command without both its words, does nothing and leaves the handler at the next frame |
| LinkRequests.OversizedRequest | DeviceServer/src/InternalServer.cpp:150-181 | A request with a body of 1 MiB or more is acted upon by its type alone, and its body is left in the stream |
| InternalClient.Client.DispatchPushEvent | ClientServer/src/InternalClient.cpp:156-217 | A push updates a cache or emits an event as the dispatch function says, reading an image's tail only for sizes 1 to 10 MiB - 1 |
| InternalClient.Client.HandleIncoming | ClientServer/src/InternalClient.cpp:126-152 | One message has the effect of the step function, and the link is dropped iff bytes ran out in a header or body |
| InternalClient.Client.Serve | ClientServer/src/InternalClient.cpp:75-124 | One connection of the receive loop does what the run function does and keeps the caches of the connections before |
| InternalClient.AlignedExactly | ClientServer/src/InternalClient.cpp:139-207 | The client is at the next frame iff the body is at most 1 MiB and the tail is what it will read: the declared size for a well-formed image of 1 to 10 MiB - 1 bytes, and otherwise none |
| ClientLaws.LastPushMeaning | ClientServer/src/InternalClient.cpp:156-182 | The specification of a cache really is the content of the last well-formed push of its type, or the old value if there was none |
| ClientLaws.CutFrame | ClientServer/src/InternalClient.cpp:126-217 | A frame cut off by the end of a connection has no effect on caches or events |
| ClientLaws.ServedConnection | ClientServer/src/InternalClient.cpp:102-217 | On one connection every whole frame has its effect once, in order, under any waits, and a cut one none |
| ClientLaws.CachesSurviveReconnects | ClientServer/src/InternalClient.cpp:75-182 | Over any number of connections, each perhaps cut in the middle of a frame, the caches equal the last well-formed push of their type and the events are those of all whole frames in order |
| ClientLaws.FailedWaitEnds | ClientServer/src/InternalClient.cpp:126-138 | A failed wait ends the connection in the state reached by then |
| Acceptor.AliveExactly | ClientServer/src/QtCommServer.cpp:143-174 | In every run of the accept loop and any number of handlers the process has ended iff accept returned a descriptor one of whose handlers had not been joined in a pass before, unless the accept thread is still on its way to the assignment |
| Acceptor.DoomIsFinal | DeviceServer/src/InternalServer.cpp:103-129 | Once accept has returned such a descriptor no other connection is accepted, and all the accept thread can still do is end the process |
| Acceptor.SafeDescriptors | ClientServer/src/QtCommServer.cpp:432-451 | While accept waits the safe descriptors are those all of whose handlers had reported themselves as finished before the last pass |
| Acceptor.OneHandlerPerDescriptor | DeviceServer/src/InternalServer.cpp:199-219 | In careful runs no two handlers that have not been joined share a descriptor, and joining never has to wait |
| Acceptor.HandlersAdvance | ClientServer/src/QtCommServer.cpp:307-328 | A handler is started once, goes through closing, removing and reporting in that order unless it gives up, and is joined once, only after it has reported itself |
| Acceptor.HandlerMap.CleanupFinishedThreads | ClientServer/src/QtCommServer.cpp:432-451 | Takes the reported descriptors, joins the threads stored under them once each and erases exactly their entries |
| Acceptor.HandlerMap.StoreHandler | ClientServer/src/QtCommServer.cpp:171-172 | Stores the thread of a new handler, or ends the process iff the entry has not been joined |
| Acceptor.PassIsCleanup | DeviceServer/src/InternalServer.cpp:199-219 | The accept thread's joins one by one, with handlers ending in between, add up to that clean-up of the descriptors so far |
| Acceptor.ListedExactlyOnce | DeviceServer/src/InternalServer.cpp:111-124 | In every run an open connection is in the list exactly once from its registration on and not at all before, iff accept did not return its descriptor while that was still in the list; in careful runs always |
| Broadcast.WholeExactly | DeviceServer/src/InternalServer.cpp:131-296 | For every run, with broadcasts under the mutex, the handler's own sends outside it, any chunks and descriptors handed out again at any time: what a connection has accepted is whole frames, the last perhaps not all there yet, iff it never accepted bytes of one send in the middle of another nor the rest of a frame begun on its descriptor before it got it |
| Broadcast.FramesAreAtomic | DeviceServer/src/InternalServer.cpp:131-296 | In every run a connection whose descriptor was not still listed when accept returned it carries the broadcasts made from its registration to its end and its handler's own sends, each in order and exactly once by its place in the log, or a beginning of them after a failed send; nothing strays to it; without overlap the bytes are those of these frames, up to part of the last |
| Broadcast.SameOrderEverywhere | DeviceServer/src/InternalServer.cpp:236-276 | Of two open, entered connections without failed sends, neither of which got a descriptor that was still listed, both carry the same broadcasts in the same order from the later registration on, whatever their handlers send besides |
| Broadcast.SentOnceExactly | DeviceServer/src/InternalServer.cpp:119-190 | In every run a broadcast begun at any moment would go to an open connection once, or not at all before it is entered, iff accept did not return its descriptor while that was still in the list |
| Broadcast.AliveExactly | DeviceServer/src/InternalServer.cpp:103-129 | With all senders in the machine: the device server has ended iff accept returned a descriptor whose handlers had not all been joined, unless the assignment is still to come; before that no descriptor still listed is handed out |
| Broadcast.ThreadOrderKept | DeviceServer/src/InternalServer.cpp:236-276 | The frames of each thread are broadcast in that thread's own order, none lost, none repeated |
| BroadcastExamples.WelcomeCanInterleave | DeviceServer/src/InternalServer.cpp:133-142 | A run at the end of which nothing has failed and nothing is being sent, yet the bytes on a connection are those of neither order of the welcome and the broadcast sent to it |
| BroadcastExamples.RestGoesToTheNext | DeviceServer/src/InternalServer.cpp:183-190 | A run in which a descriptor is handed out in the middle of a broadcast, so that the new connection begins with the body of a frame whose header went to the old one |
| BroadcastExamples.ReconnectEndsServer | DeviceServer/src/InternalServer.cpp:126-127 | A run in which a client leaves while accept waits, its handler finishes, the client comes back on the same descriptor, and the process ends |
| CameraLists.CurrentExactlyIfNotOvertaken | DeviceServer/src/InternalServer.cpp:251-260 | In every run of the link, with registration, welcomes, the client mutex and failing sends: once no push is outstanding a sound, welcomed connection has been sent the newest list, and the list sent to it last is the newest iff that was not read before one begun to it earlier |
| CameraLists.CurrentListRepairs | DeviceServer/src/DeviceManager.cpp:329-332 | A list that is still current when it is begun to a connection puts it right, whatever was sent before |
| CameraExamples.OlderListSentLast | DeviceServer/src/InternalServer.cpp:131-142 | A run in which a welcome read before a change is sent after the push of that change, so that nothing is outstanding and the client has the old list |
| RelayChain.RelayedFrame | DeviceServer/src/SubPiManager.cpp:210-315 | A Sub-Pi frame within limits leaves as at most one frame the internal client accepts, and comes out as the event it meant: the JSON with the right `device_id` and `ip`, the picture byte for byte |
| RelayChain.ImageReachesClient | ClientServer/src/InternalClient.cpp:194-208 | Every picture of 1 byte to 10 MiB - 1 that a Sub-Pi sends with its own length as `jpeg_size` reaches the client server byte for byte with all that was said of it, provided that still fits in 1 MiB after decoration |
| RelayChain.RelayAlignedExactly | ClientServer/src/InternalClient.cpp:139-207 | A frame the listener delivers keeps the link aligned iff its decorated body is at most 1 MiB and its image under 10 MiB |
| RelayChain.EndToEnd | ClientServer/src/InternalClient.cpp:75-217 | For a connection of the link opened at any moment of any run and read up to any byte, on which no sends overlapped and whose descriptor was not still listed when accept returned it: the client emits the events of a stretch of the broadcasts that begins where the connection was registered and ends at the last one if it has caught up; of each Sub-Pi session this is a contiguous stretch of what was sent in it, in order, decorated with the id and address its listener was started with |
| RelayChain.EndToEndOverReconnects | ClientServer/src/InternalClient.cpp:75-217 | Over any number of such connections one after the other in one life of the device server, each given up at any point of a frame, and from any earlier state of the client, the callbacks see such stretches one after the other without overlap, so no event twice and none out of order |
| RelayChain.OrderOverRecoveries | DeviceServer/src/SubPiManager.cpp:104-114 | Of a Sub-Pi that is lost and recovered any number of times, every stretch of the broadcasts holds the events of each session in order and all those of a session before those of the next, given that a listener broadcasts only after the one before has ended |
| QtReader.Handler.ReadPacket | ClientServer/src/QtCommServer.cpp:195-304 | One pass of the handler loop has the effect of the step function in plain, handshaking and secured mode |
| QtReader.Handler.Serve | ClientServer/src/QtCommServer.cpp:178-304 | The loop does what the run function does, for any chunk sizes |
| QtReader.AlwaysAligned | ClientServer/src/QtCommServer.cpp:195-218 | After one packet, whatever it holds, the reader is at the next packet, or it has hung up, which for size it does exactly above 1 MiB |
| QtReader.BoundaryAtEveryLoopHead | ClientServer/src/QtCommServer.cpp:195-304 | At every loop head, for every sequence of packets, exactly the packets not yet read are left |
| QtReader.ConsumesWholePackets | ClientServer/src/QtCommServer.cpp:195-304 | For every input whatever, at a loop head the bytes consumed so far are whole packets within the size limit, one for each pass |
| QtReader.NoMessageBeforeHandshake | ClientServer/src/QtCommServer.cpp:220-261 | While the handshake is not complete the handler itself sends nothing but handshake data and passes nothing to the controller; completion is never undone. What broadcasts send to the same client meanwhile, in the clear, is in `TlsOrder` |
| QtTalk.SecuredTalk | ClientServer/src/QtCommServer.cpp:220-282 | On a whole secured connection, handshake packets and then sealed messages, the client is sent the answers of the library and the controller is handed exactly the messages, each once, as it was said, in order |
| QtTalk.MessagesInOrder | ClientServer/src/QtCommServer.cpp:195-304 | The same for messages in the clear, and for sealed ones from any packet number on |
| QtTalk.OtherPackets | ClientServer/src/QtCommServer.cpp:228-304 | An empty packet in the clear stands for an empty object, text that does not parse is answered as such, a record without text says nothing, and only a packet other than a handshake packet during the handshake ends the connection |
| TlsOrder.RecordsArriveInOrder | ClientServer/src/QtCommServer.cpp:228-377 | In every interleaving of handshakes, their replies, messages in the clear and encrypted ones from a connection's first packet on: the bytes of the records are on the wire in the order of their sequence numbers and those of each send in the clear in order and once; the packets are whole iff no bytes of one send were accepted in the middle of another; the records come after everything in the clear iff no byte of one was accepted while something in the clear was unfinished, and then clear bytes and records are the bytes of the wire |
| TlsExamples.ReplyOvertaken | ClientServer/src/QtCommServer.cpp:241-256 | A run in which a broadcast is sent between the completion of the handshake and its last reply, so that its record comes first |
| TlsExamples.PlainTearsRecord | ClientServer/src/QtCommServer.cpp:335-377 | A run in which a broadcast begun in the clear goes on after the completion of the handshake, in the middle of the first encrypted answer; nothing fails, and the record is torn |
| TlsExamples.SplitSectionsReorder | ClientServer/src/QtCommServer.cpp:335-357 | Why encrypting and sending share one section: with two sections there is a run that sends two records the other way round, and the wire is then what was encrypted only if the two commute |
| DeviceManager.Manager.IsRegistered | DeviceServer/src/DeviceManager.cpp:18-22 | True iff the device is known and online |
| DeviceManager.Manager.OnSubPiFound | DeviceServer/src/DeviceManager.cpp:25-53 | The Sub-Pi is registered and online from then on, as found if it is new, with the new socket and port and all else kept if it comes back; the others are untouched; nothing is reported iff it was online, and otherwise its record as it now stands |
| DeviceManager.Manager.OnHanwhaFound | DeviceServer/src/DeviceManager.cpp:90-115 | The same for a Hanwha channel, which comes back online with everything it was registered with, socket and port included |
| DeviceManager.FoundIsOnline | DeviceServer/src/DeviceManager.cpp:25-115 | The same of the two critical sections as steps of the machine |
| DeviceManager.Manager.OnAvailable | DeviceServer/src/DeviceManager.cpp:77-80 | The cache holds the latest report of each device |
| DeviceManager.Manager.Snapshot | DeviceServer/src/DeviceManager.cpp:226-242 | The copy holds every online device once and nothing else |
| DeviceManager.HealthCheck | DeviceServer/src/DeviceManager.cpp:246-294 | However far it gets: a Sub-Pi looked at is listed iff the peek found the end of the stream or an error, or the send failed with an error, so a call that would only block keeps it; a camera channel iff nothing answers under its address; each distinct address is probed exactly once |
| DeviceManager.OfflineExactly | DeviceServer/src/DeviceManager.cpp:246-294 | The same of the specification the probes of the machine add up to |
| DeviceManager.SameAddressSameVerdict | DeviceServer/src/DeviceManager.cpp:265-285 | All channels of one address get the verdict of that address |
| DeviceManager.Manager.ReapOffline | DeviceServer/src/DeviceManager.cpp:297-317 | Exactly the listed devices that were online go offline, each reported once; of their records only the socket of a Sub-Pi changes, to none; the sockets closed are theirs, in the order of the reports |
| DeviceManager.ReapMeaning | DeviceServer/src/DeviceManager.cpp:297-317 | The same for every list of ids and every registry |
| DeviceManager.Manager.StatusList | DeviceServer/src/DeviceManager.cpp:157-170 | One entry per cached report, with the address of its device |
| DeviceManager.StatusEntryExactly | DeviceServer/src/DeviceManager.cpp:157-170 | An entry is the report with the address of its device in it and nothing else changed, or a type error iff the report cannot carry one |
| DeviceManager.Manager.CommandSocket | DeviceServer/src/DeviceManager.cpp:172-193 | A socket of an online Sub-Pi at that address, or -1 iff there is none |
| SubPiManager.Manager.Handshake | DeviceServer/src/SubPiManager.cpp:78-101 | A port is used up exactly by a successful handshake, and it is the port named in START_STREAM |
| SubPiManager.PortInMessage | DeviceServer/src/SubPiManager.cpp:146 | What follows the colon of START_STREAM is a decimal numeral that reads as the port |
| SubPiManager.Manager.CleanupFinishedThreads | DeviceServer/src/SubPiManager.cpp:327-347 | Every listed thread that is in the map is joined once and removed, the others stay |
| SubPiManager.Manager.ReplaceListener | DeviceServer/src/SubPiManager.cpp:104-114 | The old listener of the device is joined before the new one takes its place |
| OnvifScanner.GetRtspUrls | DeviceServer/src/OnvifScanner.cpp:162-207 | The collected addresses are those of the channels that answer, up to the first that does not |
| OnvifScanner.HarvestIsPrefix | DeviceServer/src/OnvifScanner.cpp:162-240 | They are the channels 0 to k-1, k at most four, each with its own cleaned and authorised address, or the single fallback |
| OnvifScanner.HarvestFails | DeviceServer/src/OnvifScanner.cpp:162-240 | Exactly when a harvest yields nothing |
| OnvifScanner.GetSingleRtspUrl | DeviceServer/src/OnvifScanner.cpp:209-240 | The fallback address is the cleaned and authorised reply |
| OnvifScanner.CredentialsAfterScheme | DeviceServer/src/OnvifScanner.cpp:196-200 | The credentials go after the first "//", between scheme and host, and an address without one is left alone |
| OnvifScanner.AddressesHarvested | DeviceServer/src/OnvifScanner.cpp:162-207 | A camera that answers on its first k channels, k from 1 to 4, with proper addresses and any line ends gets exactly those k addresses, each with the credentials in its place |
| OnvifScanner.SingleHarvested | DeviceServer/src/OnvifScanner.cpp:188-240 | A camera that answers only the request without a channel gets that address in the same way |
| OnvifScanner.UsableExactly | DeviceServer/src/OnvifScanner.cpp:185 | A reply counts iff it is not empty and has the word "Error" nowhere |
| OnvifScanner.Scanner.Candidate | DeviceServer/src/OnvifScanner.cpp:102-142 | A candidate address is harvested iff it is not registered and has not failed before; a failure is counted for that address only |
| RtspServer.Server.Start | DeviceServer/src/RtspServer.cpp:5-27 | The mount table is empty after the first start and kept by a later one |
| RtspServer.Server.AddRelayPath | DeviceServer/src/RtspServer.cpp:74-113 | Mounts a Sub-Pi under its id with its port, replacing an old mount; does nothing for cameras or before the start |
| RtspServer.Server.RemoveRelayPath | DeviceServer/src/RtspServer.cpp:115-122 | Unmounts that id only |
| DiscoverySockets.InvKept | DeviceServer/src/DeviceManager.cpp:25-53 | Every step of every thread keeps the invariant tying registry, descriptors, sessions and ports |
| DiscoverySockets.MonitorStateKept | DeviceServer/src/DeviceManager.cpp:226-318 | Every step of every thread keeps the monitor's unlocked copy true of the registry |
| DiscoverySockets.ProbeIsHealthCheck | DeviceServer/src/DeviceManager.cpp:246-294 | The monitor's probes one by one add up to the health check of the targets so far, whatever other threads do in between |
| DiscoveryLaws.StaleSnapshotIsSafe | DeviceServer/src/DeviceManager.cpp:226-318 | In every interleaving each device of the cycle is still registered, online and unchanged when the third phase reaches it; both guards pass, and the socket closed is the one that was probed |
| DiscoveryLaws.SocketConservation | DeviceServer/src/SubPiManager.cpp:78-101 | Every command connection ever made is exactly one of in flight, the socket of an online Sub-Pi and of no other online device, or closed exactly once; no close hits anything else |
| DiscoveryLaws.OnlineMeansConnected | DeviceServer/src/DeviceManager.cpp:18-47 | A Sub-Pi is online iff its record has a descriptor, which is its own open session; cameras never have one; publishing never meets an online Sub-Pi |
| DiscoveryLaws.DescriptorMeaning | DeviceServer/src/DeviceManager.cpp:297-314 | At every moment the descriptor of a session means that session iff the monitor has not closed it |
| DiscoveryReuse.LookedUpDescriptor | DeviceServer/src/DeviceManager.cpp:172-215 | A descriptor looked up for an online Sub-Pi at one moment of a run still means that Sub-Pi's session at a later one iff the monitor has not closed the session in between |
| DiscoveryReuse.ListenerReadsItsOwn | DeviceServer/src/SubPiManager.cpp:104-176 | A listener's descriptor means the session it was started for, one of the Sub-Pi whose id it puts on events, iff the monitor has not closed that session |
| DiscoveryReuse.DescriptorReused | DeviceServer/src/DeviceManager.cpp:306-314 | A run in which a descriptor is handed out again while a listener and a motor command still use it, so that they read and reach another Sub-Pi |
| DiscoveryLaws.PortsAreDistinct | DeviceServer/src/SubPiManager.cpp:86-101 | Ports of registered Sub-Pis are pairwise distinct, at least 15001, below the counter, the ones named in their latest handshake, and at most 65535 for the first 50535 handshakes |
| DiscoveryLaws.RecordsOnlyAdvance | DeviceServer/src/DeviceManager.cpp:90-109 | Over any stretch of any run no device is forgotten, no stream address changes after registration, no port goes back |
| DiscoveryLaws.RecoveryUsesNewPort | DeviceServer/src/DeviceManager.cpp:30-46 | A Sub-Pi that comes back was offline and does so with the port just named to it, strictly larger than its old one |
| DiscoveryRelay.RelayAgreesExactly | DeviceServer/src/DeviceController.cpp:20-27 | With callbacks in any order, the relay of a device agrees with the registry iff the callback that ran last for it is the one decided last, or neither of these is a registration |
| DiscoveryRelay.RelayAgreesInOrder | DeviceServer/src/RtspServer.cpp:74-122 | If the relay server has started and callbacks of a device run in the order they were decided, then with none outstanding for it the mount table has its current port iff it is an online Sub-Pi, after any losses and recoveries |
| DiscoveryCalls.AnnouncementsTellRegistry | DeviceServer/src/DeviceManager.cpp:25-115 | In every run the registry can be read off what was announced: a device is unknown iff it never was, online iff it was last announced as registered, and then exactly as announced, offline iff last as removed; registrations and removals of a device alternate, and what is announced as registered is online |
| DiscoveryCalls.OfferedChannel | DeviceServer/src/DeviceManager.cpp:90-115 | Every channel the scanner offers is online afterwards, as found if new and as registered if known; it is announced iff it was not online, as it then stands; no other device changes, and the scanner goes on with the next channel |
| DiscoveryExamples.RegisteredTooEarly | DeviceServer/src/DeviceController.cpp:60-63 | A run in which a Sub-Pi registered before the relay server started stays without a relay |
| DiscoveryExamples.AnnouncementOvertaken | DeviceServer/src/DeviceManager.cpp:319-325 | A run in which a late announcement mounts a device that has been taken down |
| DiscoveryThreads.OneListenerPerDevice | DeviceServer/src/SubPiManager.cpp:98-114 | In every run a device has at most one listener that is not joined, the assignment to the thread map lands on an absent key, and every cached status belongs to a registered device |
| DiscoveryThreads.PredecessorsJoined | DeviceServer/src/SubPiManager.cpp:104-114 | In every run, when a listener is started all earlier listeners of its device have been joined |
| DiscoveryThreads.LifeCycle | DeviceServer/src/SubPiManager.cpp:318-347 | A thread is started once, exits once and is joined once, only after it has exited |
| DiscoveryThreads.ChannelsWithoutGaps | DeviceServer/src/OnvifScanner.cpp:102-142 | At every step the registered channels of an address are 0 to k-1 with k at most four, and over both scans an address has at most one failed harvest, its last |
| DiscoveryScans.ScansExactly | DeviceServer/src/OnvifScanner.cpp:102-116 | In every run a camera that was heard of is harvested iff its first channel is not online and no harvest of its address ever failed, and a Sub-Pi is connected to iff it is not online; otherwise hearing of it changes nothing |
| DiscoveryScans.ScanCompletes | DeviceServer/src/OnvifScanner.cpp:118-142 | In every run, whatever other threads do meanwhile, a scan does not end before every channel that answered is registered |
| DiscoveryScans.StatusIsLastReport | DeviceServer/src/DeviceManager.cpp:77-80 | Over any stretch of any run the cache holds for each device the last report its listeners made |
| DiscoveryScans.EverySessionHeard | DeviceServer/src/SubPiManager.cpp:78-114 | In every run each session gets exactly one listener, under the id of its own Sub-Pi, in the order of the sessions; only the latest can still be without one, and then the beacon thread is about to start it |
| Locking.PathFine | ClientServer/src/QtCommServer.cpp:379-413 | Every code path of both servers before shutdown, the waits of the main loop and of the link included, takes its locks in one order, the only nesting being the client list over the TLS sessions, and joins with no lock held |
| Locking.NoWaitCycle | ClientServer/src/QtCommServer.cpp:432-451 | In every reachable state of any number of threads no chain of waiting, for locks or for joins, returns to where it began |
| Locking.NeverStuck | DeviceServer/src/DeviceManager.cpp:172-193 | As long as some thread is not done some thread can move |
| AuthManager.Manager.RegisterUser | ClientServer/src/AuthManager.cpp:62-102 | Adds exactly one pending row with its salted hash iff all fields are given, the database works and neither name nor email is taken; otherwise nothing changes |
| AuthManager.Manager.LoginUser | ClientServer/src/AuthManager.cpp:106-148 | The table is left alone, and the answer is decided in this order: a missing field, a database failure, an unknown name, a password that does not hash to the stored hash, a pending role, and otherwise success with the stored role; over the history it is `AccountReplies.LoginAnswered` |
| AuthManager.Manager.ApproveUser | ClientServer/src/AuthManager.cpp:176-203 | Turns exactly a pending row into a user row, and reports whether there was one |
| AuthManager.Manager.ListPendingUsers | ClientServer/src/AuthManager.cpp:152-174 | Lists pending accounts only, each once, with its email, and all of them if the database works; fails iff preparing fails |
| AuthManager.Manager.SeedTestData | ClientServer/src/AuthManager.cpp:237-282 | Leaves a table with rows alone and fills an empty one as the seeding function says, which is `AccountLaws.SeedOnlyEmpty` |
| AccountLaws.SeededRows | ClientServer/src/AuthManager.cpp:237-282 | Inserting accounts with distinct names and emails stores exactly them |
| AccountLaws.SeedOnlyEmpty | ClientServer/src/AuthManager.cpp:237-282 | Opening a database changes only an empty one, into one with exactly the seven accounts of the seed |
| AccountLaws.RunTells | ClientServer/src/AuthManager.cpp:62-203 | After every history the table is determined by it: one row per account ever created, with its hash, salt and email, and the role the approvals since have given it |
| AccountLaws.LoginExactly | ClientServer/src/AuthManager.cpp:106-148 | After every history from the seeded table a login succeeds iff the account of that name was created, by the seed or by its registration, with that password, and was seeded as approved or approved later; the reply carries its present role |
| AccountReplies.LoginAnswered | ClientServer/src/AuthManager.cpp:106-148 | Every answer after every history: a missing field and a database failure are told as such; the name is unknown iff no account of it was ever created or it cannot be fetched; the password is wrong iff an account of that name was created, with another one; approval is awaited iff the password is right and the account was created pending and never approved; and otherwise the login succeeds |
| AccountReplies.RegistrationAnswered | ClientServer/src/AuthManager.cpp:62-102 | Every answer after every history: with all fields and a working database a registration succeeds iff no account was ever created with that name or that email, and is told they are taken otherwise |
| AccountReplies.ApprovalAnswered | ClientServer/src/AuthManager.cpp:176-203 | Every answer after every history: with a working database an approval succeeds iff the account was created pending and has not been approved before |
| AccountReplies.RegisterApproveLogin | ClientServer/src/AuthManager.cpp:62-203 | After every history the credentials of an account just registered are told to wait, and log in as a user once it is approved |
| AccountReplies.SeededLogins | ClientServer/src/AuthManager.cpp:263-280 | After every history the seeded credentials log in as the seed says, except that the waiting ones wait until they are approved |
| AccountLaws.HashesAreSalted | ClientServer/src/AuthManager.cpp:221-233 | With a hash that never collides and salts of one length, two stored hashes are equal iff password and salt are |
| AccountLaws.PasswordsCompare | ClientServer/src/AuthManager.cpp:221-233 | With a hash that never collides, salted and hex-encoded passwords are equal iff the passwords are |
| AccountLaws.EmailsStayUnique | ClientServer/src/AuthManager.cpp:62-102 | No two accounts ever share an email |
| AccountLaws.AdministratorsAreSeeded | ClientServer/src/AuthManager.cpp:176-282 | After every history exactly the seeded administrator is one |
| AccountLaws.RowsOnlyAdvance | ClientServer/src/AuthManager.cpp:176-203 | Between any two moments a row stays, with its email, hash and salt, and its role changes only from pending to user |
| AccountLaws.ApprovedOnce | ClientServer/src/AuthManager.cpp:176-203 | No name is approved successfully twice |
| AccountLaws.RegisteredOnce | ClientServer/src/AuthManager.cpp:62-102 | No name is registered successfully twice |
| AccountLaws.LoginPersists | ClientServer/src/AuthManager.cpp:106-148 | Credentials that once opened an account open it for good, with the same role |
| QtCommServer.Server.Deregister | ClientServer/src/QtCommServer.cpp:307-316 | Every occurrence of the descriptor and its role are gone, nothing else |
| QtCommServer.Server.SetClientRole | ClientServer/src/QtCommServer.cpp:415-419 | Records the role under that descriptor only |
| QtCommServer.Server.Broadcast | ClientServer/src/QtCommServer.cpp:379-384 | Sends to every registered descriptor in order |
| QtCommServer.Server.BroadcastToRole | ClientServer/src/QtCommServer.cpp:386-399 | Sends to the registered descriptors with a sufficient recorded role, in order |
| QtCommServer.Server.BroadcastByRole | ClientServer/src/QtCommServer.cpp:401-413 | Sends each registered descriptor the version for its recorded role, none without a role |
| QtCommServer.Server.BroadcastImage | ClientServer/src/QtCommServer.cpp:497-506 | Sends to the registered descriptors with a recorded role |
| QtCommServer.SentAsRegistered | ClientServer/src/QtCommServer.cpp:379-413 | A broadcast sends to a descriptor as often as it is registered, always what was chosen for it |
| QtCommServer.ReachedOnce | ClientServer/src/QtCommServer.cpp:379-413 | With every descriptor registered once, a broadcast reaches each chosen client exactly once and nobody else |
| Common.WithoutCounts | ClientServer/src/QtCommServer.cpp:309-316 | Removal drops every occurrence of a descriptor and none of any other |
| ClientController.Controller.OnQtMessage | ClientServer/src/ClientController.cpp:90-169 | For every message: which account operation is done, that a role is recorded iff it was a login that succeeded, and then for the sender's descriptor, what is answered in which order, what is broadcast, and that a device command is forwarded iff the link is up; a type error escapes iff a field that is read is not text |
| ClientController.SuccessMeansDone | ClientServer/src/ClientController.cpp:92-144 | The sender is told of success iff an account was created or approved or its login succeeded, and of failure iff such a request failed or the action is unknown |
| ControllerLaws.DecodeExactly | ClientServer/src/ClientController.cpp:90-169 | Which message is which request, for every type and body, by the fields it has to have and their values |
| ControllerLaws.DecodeRefused | ClientServer/src/ClientController.cpp:113-144 | The action is unknown iff it is text and none of the three; a type error escapes iff a field that is read is not text |
| ControllerLaws.LoginEndToEnd | ClientServer/src/ClientController.cpp:92-111 | A login from message to answer after every history: role and name and then the camera list iff the credentials open an account that is not waiting, and one refusal otherwise |
| ControllerLaws.AccountsEndToEnd | ClientServer/src/ClientController.cpp:116-139 | A registration and an approval from message to answer after every history: success iff that very account is created or approved, and one refusal otherwise |
| ControllerLaws.WaitingListEndToEnd | ClientServer/src/ClientController.cpp:127-130 | The list of a working database names exactly the accounts created pending and never approved, each row with its own email |
| ControllerLaws.CommandEndToEnd | ClientServer/src/ClientController.cpp:146-150 | A motor command from the message of a client over the link to the two words the device server acts on |
| ClientController.Controller.Relay | ClientServer/src/ClientController.cpp:28-43 | AI and META events go to all clients, images to those with a recorded role |
| ClientController.Controller.Refresh | ClientServer/src/ClientController.cpp:56-70 | The cached camera list goes to users and administrators, the cached status to both, with the server's load for administrators only |
| ControllerLaws.RefreshReaches | ClientServer/src/ClientController.cpp:56-70 | Per client: an administrator gets the camera list and the status with the load of the server, a user the same without the load, anybody else nothing |
| ControllerLaws.RelayReaches | ClientServer/src/ClientController.cpp:28-43 | Per client: an event of either kind reaches every registered client once, a picture every one with a recorded role once |
| Sessions.RequestAsOneCall | ClientServer/src/ClientController.cpp:90-113 | The separate steps a request takes in the machine amount to one call of the controller |
| Sessions.RolesOfRegistered | ClientServer/src/QtCommServer.cpp:307-316 | In every run recorded roles are those of descriptors of registered connections, and a descriptor that is no longer listed is handed out without a role |
| Sessions.RoleBroadcastReaches | ClientServer/src/QtCommServer.cpp:386-399 | In every run a role-limited broadcast is sent exactly once to each open connection whose latest recorded login on that same connection suffices, not to the other open ones, and not to descriptors of no registered connection; except to connections whose descriptor was still listed when accept returned it |
| Sessions.LoggedInReached | ClientServer/src/QtCommServer.cpp:401-413 | Of the same connections images and status reports go to exactly those with a recorded login, the latter in the version for its role |
| Sessions.RoleNeverStale | ClientServer/src/ClientController.cpp:92-113 | In every run every role ever recorded for a connection is still the role of the account it logged in to, and the credentials it gave still open that account |
| Sessions.AdministratorsOnly | ClientServer/src/QtCommServer.cpp:386-399 | Such a connection is sent something limited to administrators only if it gave the seeded administrator's name and password at its latest recorded login |
| Sessions.RightExactlyUnlessListed | ClientServer/src/QtCommServer.cpp:307-316 | For every run and connection: at every moment at which it is open it is sent what goes to all once and role-limited broadcasts according to its own logins, and nothing before it is entered, iff accept did not return its descriptor while that was still in the list; nobody is ever served wrong in exactly the runs in which that never happens |
| Sessions.AliveAndRight | ClientServer/src/QtCommServer.cpp:143-174 | For every run: the client server has ended iff accept returned a descriptor whose handlers had not all been joined, unless the assignment is still to come; as long as that has not happened every connection is served right at every moment |
| Sessions.OwnSession | ClientServer/src/QtCommServer.cpp:181-193 | In every careful run a handler that sets up its connection finds no TLS session under its descriptor, so every connection has one of its own |
| Sessions.AbandonedStays | ClientServer/src/QtCommServer.cpp:181-193 | A connection whose TLS session could not be created is never joined and keeps its entry in the list, so no later run returns its descriptor and survives |
| SessionExamples.ReconnectEndsServer | ClientServer/src/QtCommServer.cpp:171-172 | A run in which a client leaves while accept waits and its handler finishes with all tables clean, and the next client on the same descriptor ends the process |
| SessionExamples.ReissuedTooEarly | ClientServer/src/QtCommServer.cpp:307-316 | Runs in which a descriptor is handed out before it was removed from the list: until the assignment that ends the process, the new client is sent twice what is limited to administrators without having logged in, or nothing although it has |
| SessionExamples.AbandonedEndsServer | ClientServer/src/QtCommServer.cpp:183-192 | A run in which a connection gets no TLS session and the next one on its descriptor finds the invalid session, is given up as well, and ends the process |

## Left out

- Socket setup, `select`, interfaces, curl, ping and ARP tables are oracles with arbitrary results; only what the code does with their answers is modelled.
- TLS, SHA-256, SQLite and the JSON library are abstract, as said under Hypotheses; crypt/dtls.hpp and certificates do not appear.
- The GStreamer pipelines and the RTSP main loop: only the mount table is there.
- `SystemMonitor` and `buildCameraListJson`: a report and a list are arbitrary JSON values; `CameraLists` keeps of a list only how many changes of the registry it shows.
- Shutdown: `stop()` of both servers, signal handlers and destructors.
- Logging, sleeps and real time; a loop that would go on for ever runs for any finite number of rounds.
- The client table of the internal server is the same code as that of the Qt server without roles; `Acceptor` has it for both.
- TlsOrder.RecordsArriveInOrder: the client mutex is ignored there, which only adds interleavings, and a send to a descriptor that has been closed just fails; what a session encrypts after that is not modelled.
- DiscoveryThreads.OneListenerPerDevice: does not say that cleaning up joins only threads that had already finished; the finished list can name a newer, running listener, and the join then waits for it.
- DeviceManager.Manager.ReapOffline: one method call here; in `Discovery` the third phase is stepped device by device, which only adds interleavings.
- AuthManager.Manager.SeedTestData: the statements of the seeding are taken to work; a database error while seeding is not modelled.
- AuthManager.Manager.ListPendingUsers: creation times are not modelled.
- SubPiManager.Manager.Handshake: a connection that fails while START_STREAM is being sent is one of the ways to connect to nothing.
- DeviceManager.Manager.CommandSocket: stops at the descriptor; the DEVICE frame sent on it under the send mutex is one more `InternalServer.SendMessage`.
- QtCommServer.Server.BroadcastToRole: a send is an attempt here, whether its descriptor is open or not; where the bytes go is in `Broadcast` and `TlsOrder`.
