# pycam streaming core, modelled in Dafny

pycam turns a phone into a camera for a desktop application. The phone
streams its camera to the desktop in one of three ways:

- **WebRTC.** The two peers meet through a small HTTP mailbox that the
  desktop (Tauri) process serves on port 3000. The mobile side posts its
  offer and ICE candidates to `/mobile/send`, and the desktop drains them
  from `/desktop/receive`. Answers and desktop candidates travel the other
  way, through `/desktop/send` and `/mobile/receive`. Both hooks poll every
  half second.
- **HTTP.** Each JPEG frame is posted to the desktop's `/frame` endpoint.
  The desktop keeps the latest frame and re-serves it as an MJPEG stream.
- **WebSocket.** Frames are sent over a socket that, when it closes while
  the phone is streaming, reconnects after two seconds.

Around these sit the camera-permission hook and the toast helpers.

The project has one module per source file:

| module | source |
|---|---|
| `Mailbox` | `desktop/src-tauri/src/lib.rs` |
| `ReceiverNegotiator` | `desktop/src/hooks/useWebRTCReceiver.tsx` |
| `SenderNegotiator` | `mobile/src/hooks/useWebRTCStreaming.tsx` |
| `StreamingServer` | `desktop/src/services/streamingServer.ts` |
| `FrameUpload` | `mobile/src/hooks/useStreaming.tsx` |
| `WebSocketStreaming` | `mobile/src/hooks/useWebSocketStreaming.tsx` |
| `CameraPermission` | `src/hooks/useCameraPermission.tsx` |
| `Toast` | `mobile/src/utils/toast.ts` |

Three helper modules are shared:

- `Wrappers` holds `Option` and `Result`.
- `Text` holds decimal rendering of naturals, with its round trip.
- `WebRtc` holds the connection states and the `err instanceof Error`
  message rule.

## How it is modelled

**State.** Anything the source keeps in mutable state becomes a class whose
fields hold that state:

- a React `useState` or `useRef`;
- a Rust `Arc<Mutex<Vec<_>>>`;
- a Node class field.

Each class method says in `ensures` what the new state is. Where a handler
does more than a few assignments, the new state is tied to a pure
transition function (`Stopped`, `Unmounted`, `AfterOpen`, `AfterClose`,
`AfterDisconnect`, `Step`). The properties are then proved as lemmas about
that function.

**I/O.** Everything that happens outside the process is a parameter of the
method that consumes it:

- what a `fetch` returns;
- whether the browser accepts a description or a candidate;
- what `getUserMedia` or `os.networkInterfaces()` yields;
- whether `listen` fails.

A loop that calls out once per iteration takes an oracle function instead:
the Tauri retries, the probe list, the candidate flush.

**Suspension points.** The two handlers whose behaviour depends on
interleaving at an `await` are split in two at that point:

- the receiver's offer handler, with its `isProcessingOfferRef` guard;
- the HTTP uploader, with its `isSendingRef` lock.

Their guards and locks are therefore meaningful in the model.

**Ghost logs.** These record what the outside world saw:

- the messages posted to the mailbox;
- the connections closed or dropped;
- the tracks stopped;
- the sockets closed;
- the requests issued.

## Model

| member | source | states |
|---|---|---|
| `Mailbox.Route` | desktop/src-tauri/src/lib.rs:82-92 | the CORS layer answers OPTIONS on any path; otherwise the send paths take POST and the receive paths GET or HEAD, another verb on a known path is refused, and any other path is not found |
| `Mailbox.RelayIsExactlyOnceFifo` | desktop/src-tauri/src/lib.rs:38-78 | over any sequence of send and receive calls, what one side has received followed by what is still queued is exactly what the other side sent, in order: nothing is lost, duplicated or reordered |
| `Mailbox.MobileToDesktopFifo` | desktop/src-tauri/src/lib.rs:38-78 | everything the mobile posts reaches the desktop's receives exactly once and in send order, with whatever is not yet received still queued |
| `Mailbox.DesktopToMobileFifo` | desktop/src-tauri/src/lib.rs:50-67 | everything the desktop posts reaches the mobile's receives exactly once and in send order, with whatever is not yet received still queued |
| `Mailbox.ReceiveTwiceDrains` | desktop/src-tauri/src/lib.rs:50-57 | a receive drains the whole queue at once, so a second receive right after it yields nothing and the other queue is untouched |
| `Mailbox.SignalingState.constructor` | desktop/src-tauri/src/lib.rs:29-35 | both queues start empty |
| `Mailbox.SignalingState.MobileSend` | desktop/src-tauri/src/lib.rs:38-47 | the message is appended to the mobile queue and acknowledged; the desktop queue is unchanged |
| `Mailbox.SignalingState.MobileReceive` | desktop/src-tauri/src/lib.rs:50-57 | returns the whole desktop queue in order (an empty list when empty) and leaves it empty |
| `Mailbox.SignalingState.DesktopSend` | desktop/src-tauri/src/lib.rs:60-67 | the message is appended to the desktop queue and acknowledged; the mobile queue is unchanged |
| `Mailbox.SignalingState.DesktopReceive` | desktop/src-tauri/src/lib.rs:70-78 | returns the whole mobile queue in order and leaves it empty |
| `Mailbox.SignalingState.Serve` | desktop/src-tauri/src/lib.rs:82-92 | OPTIONS gets a bodiless 200, an unknown path 404 and a wrong verb 405, all with no state change; each route runs its handler, a body that does not decode is rejected with nothing queued, and HEAD on a receive path drains the queue like GET but returns no body |
| `Text.NatToStringRoundTrip` | mobile/src/hooks/useStreaming.tsx:54 | the decimal rendering used in the error messages reads back as the same number |
| `ReceiverNegotiator.Offers` | desktop/src/hooks/useWebRTCReceiver.tsx:407 | the first pass picks exactly the offers of the batch |
| `ReceiverNegotiator.Candidates` | desktop/src/hooks/useWebRTCReceiver.tsx:408 | the second pass picks exactly the ICE candidates of the batch |
| `ReceiverNegotiator.TwoPassPartitionsBatch` | desktop/src/hooks/useWebRTCReceiver.tsx:405-420 | offers, candidates and answers together are the batch as a multiset: the two passes handle each offer and candidate exactly once, and only answers are skipped |
| `ReceiverNegotiator.PassesKeepArrivalOrder` | desktop/src/hooks/useWebRTCReceiver.tsx:407-408 | each pass keeps arrival order across concatenated batches |
| `ReceiverNegotiator.ConnectionErrorReport` | desktop/src/hooks/useWebRTCReceiver.tsx:275-289 | connected clears the error; failed and disconnected set an error naming the state, and the two differ; any other state keeps the error; applying a state twice changes nothing more |
| `ReceiverNegotiator.TauriIp` | desktop/src/hooks/useWebRTCReceiver.tsx:70-109 | an address comes from a usable reply within the attempt budget, and none exactly when every attempt gave nothing usable |
| `ReceiverNegotiator.TauriLocalIp` | desktop/src/hooks/useWebRTCReceiver.tsx:92-109 | the retry loop calls the command at most ten times, stops at the first usable reply, and every earlier reply was unusable |
| `ReceiverNegotiator.FirstRoutable` | desktop/src/hooks/useWebRTCReceiver.tsx:127-147 | the WebRTC fallback takes the first candidate address that is neither loopback nor 0.x, and none when there is none |
| `ReceiverNegotiator.ProbeCommonIps` | desktop/src/hooks/useWebRTCReceiver.tsx:153-180 | the probe loop returns the first listed address whose health probe succeeds, and none exactly when all fail |
| `ReceiverNegotiator.FirstReachableFindsFirst` | desktop/src/hooks/useWebRTCReceiver.tsx:153-180 | the probe result is a listed, reachable address with no reachable address before it |
| `ReceiverNegotiator.LocalIpChoiceFallsBackInOrder` | desktop/src/hooks/useWebRTCReceiver.tsx:92-185 | discovery tries Tauri, then WebRTC, then the probe list, and warns (with the default address) only when all three find nothing |
| `ReceiverNegotiator.LocalIpChoiceIsAddress` | desktop/src/hooks/useWebRTCReceiver.tsx:92-185 | discovery always yields a non-empty address; the warning comes only with the default address |
| `ReceiverNegotiator.DiscoverLocalIp` | desktop/src/hooks/useWebRTCReceiver.tsx:92-185 | the imperative discovery returns what the specification function chooses |
| `ReceiverNegotiator.Receiver.constructor` | desktop/src/hooks/useWebRTCReceiver.tsx:11-18 | no connection, an empty candidate queue, the offer flag clear, not polling |
| `ReceiverNegotiator.Receiver.Send` | desktop/src/hooks/useWebRTCReceiver.tsx:35-50 | a message is posted only once the server URL is known |
| `ReceiverNegotiator.Receiver.Init` | desktop/src/hooks/useWebRTCReceiver.tsx:55-207 | without a window only the window error is set; otherwise the address is the one the discovery chooses, the URL is built from it, the fallback warning (if any) becomes the error, an unreachable server sets an error naming the URL and stops, and a reachable one starts polling |
| `ReceiverNegotiator.Receiver.Connect` | desktop/src/hooks/useWebRTCReceiver.tsx:92-207 | the address is the discovery's choice and never empty; the error becomes the fallback warning only when the default address was used; an unreachable server replaces the error with one naming the URL and polling does not start, otherwise polling starts |
| `ReceiverNegotiator.Receiver.BeginOffer` | desktop/src/hooks/useWebRTCReceiver.tsx:217-235 | a second offer while one is being processed is ignored; otherwise the old connection is closed, a new one is created and the flag is set |
| `ReceiverNegotiator.Receiver.FlushQueue` | desktop/src/hooks/useWebRTCReceiver.tsx:300-311 | every queued candidate is tried in order, the accepted ones are added, and the queue ends empty |
| `ReceiverNegotiator.Receiver.FinishOffer` | desktop/src/hooks/useWebRTCReceiver.tsx:292-330 | a failure keeps the queue and posts nothing; otherwise the queue is flushed and the answer is posted; the flag is cleared either way |
| `ReceiverNegotiator.Receiver.HandleCandidate` | desktop/src/hooks/useWebRTCReceiver.tsx:331-350 | before a remote description the candidate is queued; after it, the candidate is tried at once |
| `ReceiverNegotiator.Receiver.HandleMessage` | desktop/src/hooks/useWebRTCReceiver.tsx:214-357 | every message is recorded as handled and the error is untouched; an answer changes nothing; an offer during processing is dropped; an accepted offer closes and replaces the connection, and unless the remote description fails, flushes the queued candidates (dropped with a closed connection) into the new one and posts the answer, clearing the flag on every path; a candidate is tried at once after a remote description and queued otherwise or when it fails |
| `ReceiverNegotiator.Receiver.Poll` | desktop/src/hooks/useWebRTCReceiver.tsx:362-428 | a failed fetch, a non-ok status or an empty batch changes nothing; otherwise all offers are handled first and then all candidates |
| `ReceiverNegotiator.Receiver.HandleInOrder` | desktop/src/hooks/useWebRTCReceiver.tsx:410-420 | each message of a pass is handled, in order |
| `ReceiverNegotiator.Receiver.OnConnectionStateChange` | desktop/src/hooks/useWebRTCReceiver.tsx:275-289 | the error becomes the mapping's value for the new state |
| `ReceiverNegotiator.Receiver.OnLocalCandidate` | desktop/src/hooks/useWebRTCReceiver.tsx:262-272 | a local candidate is posted to the mobile side; the end-of-candidates event posts nothing |
| `ReceiverNegotiator.Receiver.OnTrack` | desktop/src/hooks/useWebRTCReceiver.tsx:238-259 | the first stream of the event becomes the remote stream |
| `ReceiverNegotiator.Receiver.Unmount` | desktop/src/hooks/useWebRTCReceiver.tsx:443-454 | polling stops, the connection is closed and forgotten |
| `SenderNegotiator.ApplyBatch` | mobile/src/hooks/useWebRTCStreaming.tsx:62-99 | handling a batch never touches the connection's tracks, local description or closed flag |
| `SenderNegotiator.ApplyBatchSplits` | mobile/src/hooks/useWebRTCStreaming.tsx:73-93 | a batch is handled as its prefix followed by its suffix, and the first throw stops the rest |
| `SenderNegotiator.BatchWithoutThrows` | mobile/src/hooks/useWebRTCStreaming.tsx:73-93 | when nothing throws, every candidate is added in order and the last answer becomes the remote description |
| `SenderNegotiator.SenderErrorAfter` | mobile/src/hooks/useWebRTCStreaming.tsx:151-162 | the error is kept or set to the one failure message |
| `SenderNegotiator.SenderConnectionErrorReport` | mobile/src/hooks/useWebRTCStreaming.tsx:151-162 | only failed or disconnected set the error, both to the same message; connected does not clear it; the mapping is idempotent |
| `SenderNegotiator.StopKeepsPreview` | mobile/src/hooks/useWebRTCStreaming.tsx:209-225 | stop closes the connection and cancels the poll timer, keeps the camera stream and the error, and stopping twice is stopping once |
| `SenderNegotiator.StopEvents` | mobile/src/hooks/useWebRTCStreaming.tsx:289-291 | one stop per track, in track order |
| `SenderNegotiator.UnmountReleasesEverything` | mobile/src/hooks/useWebRTCStreaming.tsx:282-296 | unmount releases the connection, the timer and the stream, stops every track of the stream, and is idempotent |
| `SenderNegotiator.StartFailsOnlyOnThrow` | mobile/src/hooks/useWebRTCStreaming.tsx:101-207 | start fails exactly when a step it awaits throws; a held stream is reused and getUserMedia is not called; a media failure reports that error |
| `SenderNegotiator.Sender.constructor` | mobile/src/hooks/useWebRTCStreaming.tsx:17-26 | not streaming, with no stream, no connection and no timer |
| `SenderNegotiator.Sender.Stop` | mobile/src/hooks/useWebRTCStreaming.tsx:209-225 | the new state is the stopped state, and the closed connection is recorded |
| `SenderNegotiator.Sender.AddTracks` | mobile/src/hooks/useWebRTCStreaming.tsx:126-133 | every track of the stream is added to the connection, in order |
| `SenderNegotiator.Sender.StopTracks` | mobile/src/hooks/useWebRTCStreaming.tsx:286-292 | every track of the stream is stopped, in order |
| `SenderNegotiator.Sender.FailStart` | mobile/src/hooks/useWebRTCStreaming.tsx:201-206 | the error is set from what was thrown, and then the sender stops |
| `SenderNegotiator.Sender.Start` | mobile/src/hooks/useWebRTCStreaming.tsx:101-207 | on success the sender is streaming with a fresh connection carrying the stream's tracks, the offer is posted and a poll timer runs; on a throw it is stopped with the error set |
| `SenderNegotiator.Sender.Negotiate` | mobile/src/hooks/useWebRTCStreaming.tsx:125-206 | with a stream in hand: a fresh connection with its tracks, then the offer as local description, posted, and a poll timer; a throw from the offer or the description stops with that error and posts nothing |
| `SenderNegotiator.Sender.AcquireStream` | mobile/src/hooks/useWebRTCStreaming.tsx:107-123 | a held stream is reused; otherwise the camera stream is requested and kept |
| `SenderNegotiator.Sender.OpenConnection` | mobile/src/hooks/useWebRTCStreaming.tsx:125-133 | a fresh connection carries the stream's tracks; an older connection still held is dropped without being closed |
| `SenderNegotiator.Sender.SendOffer` | mobile/src/hooks/useWebRTCStreaming.tsx:185-200 | the offer becomes the local description, it is posted, and a new poll timer is registered |
| `SenderNegotiator.Sender.Poll` | mobile/src/hooks/useWebRTCStreaming.tsx:62-99 | when streaming with a connection, the connection becomes the batch's result; otherwise nothing changes |
| `SenderNegotiator.Sender.OnConnectionStateChange` | mobile/src/hooks/useWebRTCStreaming.tsx:151-162 | the error follows the failure mapping |
| `SenderNegotiator.Sender.OnLocalCandidate` | mobile/src/hooks/useWebRTCStreaming.tsx:137-147 | each local candidate is posted; the end-of-candidates event is not |
| `SenderNegotiator.Sender.OnCameraPosition` | mobile/src/hooks/useWebRTCStreaming.tsx:228-279 | a new stream is requested only when none is held or the camera changed; the old stream's tracks are stopped first; a failure sets the error |
| `SenderNegotiator.Sender.CreatePreviewStream` | mobile/src/hooks/useWebRTCStreaming.tsx:232-267 | the old stream's tracks are stopped in order before the camera is asked; the new stream is kept, or the camera error is reported and the old reference kept |
| `SenderNegotiator.Sender.Unmount` | mobile/src/hooks/useWebRTCStreaming.tsx:282-296 | the new state is the unmounted state |
| `StreamingServer.NetAddresses` | desktop/src/services/streamingServer.ts:196-202 | the scan yields at most one address per entry |
| `StreamingServer.ChooseIp` | desktop/src/services/streamingServer.ts:205-207 | the chosen address is never empty: it is the first external address whenever there is one and it is non-empty, and `localhost` otherwise |
| `StreamingServer.FirstNetAddress` | desktop/src/services/streamingServer.ts:196-202 | within one interface, the first external IPv4 entry is found, and nothing is found exactly when there is none |
| `StreamingServer.FirstExternalAddress` | desktop/src/services/streamingServer.ts:191-208 | across interfaces, the first external IPv4 address in interface order is found, and nothing is found exactly when no interface has one |
| `StreamingServer.GetLocalIp` | desktop/src/services/streamingServer.ts:191-208 | the nested loop returns what the specification function chooses |
| `StreamingServer.DispatchTable` | desktop/src/services/streamingServer.ts:64-95 | OPTIONS is answered for any URL, and POST /frame, GET /stream and GET /health go to their handlers; everything else is 404 |
| `StreamingServer.ConcatKeepsOrder` | desktop/src/services/streamingServer.ts:100-108 | the body is the chunks joined in arrival order |
| `StreamingServer.ConcatLength` | desktop/src/services/streamingServer.ts:100-108 | the body's length is the sum of the chunk lengths |
| `StreamingServer.ListenRejection` | desktop/src/services/streamingServer.ts:44-50 | a new error is made exactly for address-in-use; any other error is passed on |
| `StreamingServer.ListenRejectionNamesPort` | desktop/src/services/streamingServer.ts:44-50 | the address-in-use message names the port, so different ports give different messages |
| `StreamingServer.StopIsIdempotent` | desktop/src/services/streamingServer.ts:54-62 | stop drops the server and the latest frame and resets the count; with no server it does nothing; stopping twice is stopping once |
| `StreamingServer.Server.constructor` | desktop/src/services/streamingServer.ts:10-15 | no server, no frame, count 0, port 3000, address `localhost` |
| `StreamingServer.Server.Info` | desktop/src/services/streamingServer.ts:210-220 | info exists exactly while a server exists, and carries the port, the address and the URL built from them |
| `StreamingServer.Server.Start` | desktop/src/services/streamingServer.ts:17-52 | a running server is refused; otherwise the port and address are set and a successful listen reports the info, while a failed one is rejected with the server object still held |
| `StreamingServer.Server.Stop` | desktop/src/services/streamingServer.ts:54-62 | the new state is the stopped state |
| `StreamingServer.Server.HandleFramePost` | desktop/src/services/streamingServer.ts:97-135 | a completed upload becomes the latest frame, increments the count and is acknowledged with its size; a request error gives 500 and changes nothing |
| `StreamingServer.Server.HandleHealthGet` | desktop/src/services/streamingServer.ts:180-189 | reports ok, the frame count and whether a frame exists |
| `StreamingServer.Server.HandleRequest` | desktop/src/services/streamingServer.ts:64-95 | preflight 200, 404, stream and health reply as their handlers do; a completed frame post stores the frame, counts it and returns the receipt with its size; a failed one answers 500 and, like every other route, leaves the frame state unchanged |
| `FrameUpload.UploadErrorReport` | mobile/src/hooks/useStreaming.tsx:53-67 | the error is cleared exactly when the reply is ok and its body parses; a non-ok reply names its status, so different statuses give different errors |
| `FrameUpload.Uploader.constructor` | mobile/src/hooks/useStreaming.tsx:7-11 | the default server URL, not streaming, no error, the lock free |
| `FrameUpload.Uploader.SetServerUrl` | mobile/src/hooks/useStreaming.tsx:7 | the URL is replaced |
| `FrameUpload.Uploader.BeginSend` | mobile/src/hooks/useStreaming.tsx:24-49 | a frame is posted to `<url>/frame` exactly when streaming and the lock is free; at most one upload is ever in flight |
| `FrameUpload.Uploader.FinishSend` | mobile/src/hooks/useStreaming.tsx:50-71 | the error follows the outcome, and the lock is released on every path |
| `FrameUpload.Uploader.StartStreaming` | mobile/src/hooks/useStreaming.tsx:76-79 | streaming, with the error cleared |
| `FrameUpload.Uploader.StopStreaming` | mobile/src/hooks/useStreaming.tsx:81-84 | not streaming, with the queue emptied; an upload in flight keeps its lock |
| `WebSocketStreaming.EventTransitions` | mobile/src/hooks/useWebSocketStreaming.tsx:21-48 | open marks the hook connected, clears the error and cancels a pending reconnect; error sets the connection error; close schedules a reconnect exactly when streaming |
| `WebSocketStreaming.DisconnectIsIdempotent` | mobile/src/hooks/useWebSocketStreaming.tsx:57-68 | disconnect cancels the reconnect, drops the socket, leaves nothing sendable, and is idempotent |
| `WebSocketStreaming.ConnectOpensAtMostOneSocket` | mobile/src/hooks/useWebSocketStreaming.tsx:13-55 | connect does nothing while a socket is open, and otherwise opens one socket to the current URL (or records the constructor's error) |
| `WebSocketStreaming.StopThenCloseDoesNotReconnect` | mobile/src/hooks/useWebSocketStreaming.tsx:37-48 | after stop, a late close event schedules no reconnect |
| `WebSocketStreaming.Streamer.constructor` | mobile/src/hooks/useWebSocketStreaming.tsx:6-11 | the initial state |
| `WebSocketStreaming.Streamer.SetServerUrl` | mobile/src/hooks/useWebSocketStreaming.tsx:7 | only the URL changes |
| `WebSocketStreaming.Streamer.Connect` | mobile/src/hooks/useWebSocketStreaming.tsx:13-55 | the new state is the connect transition |
| `WebSocketStreaming.Streamer.OnOpen` | mobile/src/hooks/useWebSocketStreaming.tsx:21-29 | the new state is the open transition |
| `WebSocketStreaming.Streamer.OnError` | mobile/src/hooks/useWebSocketStreaming.tsx:31-35 | the new state is the error transition |
| `WebSocketStreaming.Streamer.OnClose` | mobile/src/hooks/useWebSocketStreaming.tsx:37-48 | the new state is the close transition |
| `WebSocketStreaming.Streamer.OnReconnectTimer` | mobile/src/hooks/useWebSocketStreaming.tsx:41-46 | the fired timer leaves the pending set and connect runs |
| `WebSocketStreaming.Streamer.Disconnect` | mobile/src/hooks/useWebSocketStreaming.tsx:57-68 | the new state is the disconnect transition, and the socket is closed |
| `WebSocketStreaming.Streamer.SendFrame` | mobile/src/hooks/useWebSocketStreaming.tsx:70-89 | a frame is sent exactly when streaming over an open socket and the send does not throw; a throw sets the send error |
| `WebSocketStreaming.Streamer.StartStreaming` | mobile/src/hooks/useWebSocketStreaming.tsx:91-96 | streaming is set, and connect runs unless the hook is already connected |
| `WebSocketStreaming.Streamer.StopStreaming` | mobile/src/hooks/useWebSocketStreaming.tsx:98-101 | streaming is cleared, and then disconnect runs |
| `CameraPermission.PermissionFor` | src/hooks/useCameraPermission.tsx:16-21 | the Android permission exactly on Android, the iOS one elsewhere |
| `CameraPermission.StatusMapping` | src/hooks/useCameraPermission.tsx:23-51 | granted comes only from granted or limited, blocked only from blocked; everything else, a throw included, is denied |
| `CameraPermission.CheckAndRequestAgree` | src/hooks/useCameraPermission.tsx:23-94 | check and request set the same status for the same outcome; request returns true exactly when granted and alerts exactly when blocked; neither goes back to checking |
| `CameraPermission.FlagsExclusive` | src/hooks/useCameraPermission.tsx:100-107 | at most one flag holds, and none holds exactly when denied |
| `CameraPermission.PermissionHook.constructor` | src/hooks/useCameraPermission.tsx:14 | the status starts as checking |
| `CameraPermission.PermissionHook.Check` | src/hooks/useCameraPermission.tsx:23-51 | the status becomes the mapping's value for the outcome |
| `CameraPermission.PermissionHook.Request` | src/hooks/useCameraPermission.tsx:53-94 | status, result and alert follow the request mapping; the result is true exactly when granted |
| `Toast.ShorthandDefaults` | mobile/src/utils/toast.ts:13-47 | a shorthand passes the message through with offset 50, uses its title unless missing or empty and its duration unless missing or 0, and otherwise defaults per type (error 4000, others 3000) |
| `Toast.ShowDefaults` | mobile/src/utils/toast.ts:49-65 | show defaults the type to info and the title by type, keeps an explicit duration (0 included) and defaults a missing one to 3000 |
| `Toast.ShowMatchesShorthand` | mobile/src/utils/toast.ts:13-65 | show and the matching shorthand agree for a non-zero duration; they differ on 0, and on a missing duration exactly for errors |

## Scenarios

A few methods have no row in the table. They run the model through one use
case and check the outcome with assertions:

- `Mailbox.OfferAnswerRoundTrip`: an offer and an answer pass through the
  mailbox.
- `ReceiverNegotiator.CandidatesBeforeFirstOfferAreFlushed`: candidates that
  arrive before the first offer are added once it is handled.
- `SenderNegotiator.StartPollStop`: the sender starts, polls an answer and
  stops.
- `StreamingServer.PortClashKeepsServer`: a failed listen keeps the server
  object until it is stopped.
- `FrameUpload.SecondFrameIsDropped`: nothing is sent before streaming
  starts, a frame offered while an upload is in flight is dropped, and the
  next frame after the reply is sent.

## Code against its description

In three places the code does less than its design description. The model
follows the code:

- The mobile side never posts a stop message when streaming ends.
- The sender has no guard against an answer arriving before its offer is
  sent.
- Switching cameras while streaming does not replace the track on the
  connection. The new stream is only kept for the preview.

## Left out

- WebRTC itself is not modelled. Descriptions, candidates and media are
  opaque values, and whether the browser accepts a description or a
  candidate is an input.
- The sender's ICE-connection-state handler is installed only if the
  connection already has one. A fresh connection never has one, so the
  model has no such handler.
- The receiver's WebRTC address discovery reads candidate strings with a
  regular expression and waits two seconds. Both are abstracted: the
  addresses found are an input sequence.
- `ReceiverNegotiator.FirstRoutable`: the `127.` and `0.` prefix tests are
  modelled. What counts as a valid address beyond those prefixes is not.
- Timers are not modelled: the 500 ms polling intervals, the 2 s reconnect
  and probe timeouts, and the 33 ms MJPEG writer. Timers appear only as
  identifiers that are registered and cancelled.
- The MJPEG stream's repeated writes are not modelled. `GET /stream` is
  modelled as a 200 response whose body is a stream.
- The frame handler's request-error 500 is modelled by
  `StreamingServer.Server.HandleFramePost`. The other 500, from the `catch`
  around joining the chunks in the `end` handler, is not: joining cannot
  fail in the model.
- JSON encoding and decoding, CORS headers and content types are not
  modelled. Messages are datatypes.
- Console logging is left out. So are `Alert` and `Linking.openSettings`:
  the model records only whether the settings alert is shown.
- React's effect scheduling, re-renders and stale closures are not
  modelled. Handlers read the current state, and each handler runs
  atomically. The exceptions are the two split at a suspension point (the
  receiver's offer, the HTTP upload).
- `SenderNegotiator.Sender.Poll`: it is not split at its `await`s. A batch
  is applied in one step, against the connection held when the poll began.
- The sender's server URL state is left out. The mobile mailbox address is
  a constant there.
- `Mailbox.SignalingState.Serve`: a body that does not decode is answered
  `Rejected`, without a status code; which of 400, 415 or 422 axum sends is
  not modelled. The TCP listener and the CORS response headers are left out.
- Tauri's `invoke` of the local-address command is an oracle function.
- `ReceiverNegotiator.ProbeCommonIps` and `ReceiverNegotiator.Receiver.Connect`:
  each probe and the connectivity test is a `GET /desktop/receive`. On the
  mailbox that request drains the desktop-bound queue, and the receiver
  throws the reply away, so whatever the phone queued before `init` is lost.
  The model treats the probe results and the server check as inputs, and
  does not record this draining.
- `Toast`: durations are modelled as integers. JavaScript numbers are not.
  A NaN duration, which `||` treats as missing, and a fractional duration,
  which is kept as given, are not modelled.
- The WebSocket hook's unmount cleanup only calls `disconnect`. It is
  modelled by `WebSocketStreaming.Streamer.Disconnect` and has no member of
  its own.
