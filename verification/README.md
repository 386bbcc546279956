# WebRTC signaling relay and client controller, in Dafny

This project models the signaling core of a small WebRTC video-chat
application. Its three parts follow the application's own:

- **The relay** (`src/app.ts`). It keeps a registry of connected clients, each
  a record `{id, ws, room?}`. A `join` message sets the sender's room. The six
  forwarded types (`offer`, `answer`, `candidate`, `chat`, `file`, `end`) are
  stamped with the sender's id. They are then sent to every other record in
  the same room whose socket is open. The HTTP side chooses the file to serve,
  its content type and the response status. `relay.dfy` and
  `static_files.dfy` model these.
- **The signaling channel** (`src/WebSocketHandler.ts`). It keeps a map from
  event name to a list of listeners, calls them in registration order, and
  sends envelopes. `channel.dfy` models it.
- **The call controller** (`src/ChatUIHandler.ts`). It dispatches received
  envelopes by type and drives the offer/answer/candidate exchange against the
  peer connection. It sends envelopes tagged with the local display name,
  keeps the chat box, and tears the call down. `chat_ui.dfy` models it.

`envelopes.dfy` holds the envelope record and the six envelopes a browser
builds. `session.dfy` composes relay routing with the controller to state
what two browsers in one room observe of each other.

The relay registry, the channel and the controller update state in place, so
they are classes:

- `Relay.Server` has fields `clients`, `nextId` and `sent`.
- `Channel.SignalingChannel` has fields `handlers`, `outbox` and `invoked`.
- `ChatUI.ChatController` holds the DOM values it reads and writes, the local
  stream, and `pcLog`, the log of calls made on the peer connection.

Each of their methods is proved against a specification function: `Join`,
`Close`, `Recipients`/`Deliveries`, `Route`, `Register`, `Invocations`,
`AfterOffer`, `AfterReceive`, `AfterEnd` and so on. Lemmas state the
properties of those functions. The path, MIME type and status choice, and
the formatting of chat text, are pure functions.

Each awaited step of an async handler is one step of the model. Whether that
step resolves or rejects is a parameter, and a rejection ends the handler
there. For example, `HandleOffer(msg, remoteOk, answer)` says whether
`setRemoteDescription` resolved and what `createAnswer` produced.

JavaScript `undefined` is `None`. When it is assigned to `textContent` it
shows as the empty string. In a template literal or an `img` attribute it
becomes the text "undefined".

Some facts about the code that the model keeps:

- The controller has no phase enum.
- There is no queue of early ICE candidates; a received candidate goes
  straight to `addIceCandidate`.
- Ending a call has no idempotence guard: each `endVideoChat` sends one `end`.
- A repeated `join` overwrites the room (last write wins).
- The client never sends a `join`. Every browser therefore stays in the
  undefined room, and `Relay.UnjoinedPeersReceive` is the case that
  actually happens between two browsers.
- The broadcast loop has no per-recipient error isolation.
- A rejected negotiation step does not reset the call.

## Model

| member | source | states |
|---|---|---|
| Envelopes.OfferEnvelope | src/ChatUIHandler.ts:185 | the offer envelope is well-formed outbound: type `offer`, the offer and the username, no room or sender id |
| Envelopes.AnswerEnvelope | src/ChatUIHandler.ts:247 | the answer envelope is well-formed outbound: type `answer`, the answer and the username |
| Envelopes.CandidateEnvelope | src/ChatUIHandler.ts:98-102 | the candidate envelope is well-formed outbound: type `candidate`, the candidate and the username |
| Envelopes.ChatEnvelope | src/ChatUIHandler.ts:232 | the chat envelope is well-formed outbound: type `chat`, the message and the username |
| Envelopes.FileEnvelope | src/ChatUIHandler.ts:213-218 | the file envelope is well-formed outbound: type `file`, the data URL, the file name and the username |
| Envelopes.EndEnvelope | src/ChatUIHandler.ts:197 | the end envelope is well-formed outbound: type `end` and nothing else, not even a username |
| Envelopes.OutboundIsBuilt | src/ChatUIHandler.ts:98-247 | the converse of the builders: every well-formed outbound envelope is exactly what its kind's builder makes from its own properties |
| StaticFiles.ServedName | src/app.ts:21-23 | the served name is `index.html` exactly for a missing, empty or `/` URL (or `index.html` itself); otherwise it is the URL unchanged |
| StaticFiles.StripTrailingSlashes | src/app.ts:24 | the result is a prefix of the path that does not end in `/`, and only slashes were dropped |
| StaticFiles.LastSlash | src/app.ts:24 | the index of the last `/` of the path, -1 when there is none |
| StaticFiles.LastDot | src/app.ts:24 | the index of the last `.` of a segment, -1 when there is none |
| StaticFiles.LastSegment | src/app.ts:24 | the text after the last slash contains no slash |
| StaticFiles.LastSegmentIsTail | src/app.ts:24 | the last segment is the tail of the path after its last slash (or the whole path when there is none) |
| StaticFiles.Extname | src/app.ts:24 | the extension is empty or a dot followed by neither dot nor slash |
| StaticFiles.SegmentExt | src/app.ts:24 | a segment's extension is its tail from its last dot whenever that dot is past the first character and the segment is not `..`; otherwise (no dot, a leading only dot, or `..`) it is empty |
| StaticFiles.TrailingDotSegment | src/app.ts:24 | a segment that ends in its only dot, after other characters (`index.`), has the extension `.` |
| StaticFiles.Lower | src/app.ts:24 | lower-casing keeps the length and lower-cases each character in place |
| StaticFiles.ContentTypeByExtension | src/app.ts:24-42 | `ContentType` and `MimeLookup`: a stem not ending in `/` followed by an extension yields exactly that extension, and the content type is the table entry for its lower-cased form, or `application/octet-stream` when the table has none |
| StaticFiles.NoDotNoType | src/app.ts:24-42 | a name whose last segment has no dot has an empty extension and is served as `application/octet-stream` |
| StaticFiles.LeadingDotNoType | src/app.ts:24-42 | a name whose last segment starts with its only dot (`.bashrc`, `.`) or is `..` has an empty extension and is served as `application/octet-stream` |
| StaticFiles.Respond | src/app.ts:45-57 | status 200 exactly on a successful read, with the looked-up content type and the file's bytes; 404 with `text/plain` and `404 Not Found` exactly for ENOENT; 500 with no content type for any other error code |
| Relay.IndexOfSocket | src/app.ts:100 | `indexOf`: the first record with that socket, or -1 when there is none |
| Relay.Join | src/app.ts:83-86 | a join keeps every id, socket and position and changes the room of the sender's record only |
| Relay.Others | src/app.ts:99-102 | the records of every socket but the given one, in order |
| Relay.JoinLastWins | src/app.ts:83-86 | joining twice is the same as joining only the second room |
| Relay.CloseKeepsOthers | src/app.ts:99-102 | `Close`, the splice at the record's index: it removes exactly the closing socket's record, keeps the others in order and shortens the registry by one |
| Relay.Recipients | src/app.ts:112-118 | a record is a recipient exactly when it is in the sender's room, is not the sender's socket, and is open |
| Relay.Deliveries | src/app.ts:113-121 | one frame per recipient, in registry order, each carrying the same message |
| Relay.DeliveredOnce | src/app.ts:112-122 | with unique sockets, an eligible record receives exactly one copy and any other record none |
| Relay.NotDeliveredToAbsent | src/app.ts:112-122 | a socket with no record receives nothing |
| Relay.Stamp | src/app.ts:93 | the stamped envelope carries the sender's id and differs from the received one in nothing else |
| Relay.OnlyForwardedRoute | src/app.ts:82-96 | `Route`: `join` and any type outside the six forwarded ones send nothing; a forwarded type sends one frame per recipient |
| Relay.RouteStampsSender | src/app.ts:87-94 | every forwarded frame is the received message with the sender's id replacing any id the client supplied |
| Relay.SenderNeverReceives | src/app.ts:116 | the sender's socket never receives its own message |
| Relay.NoCrossRoomDelivery | src/app.ts:115 | a record in another room never receives the message |
| Relay.UnjoinedPeersReceive | src/app.ts:115 | two records that never joined share the undefined room, so an open one receives exactly one copy |
| Relay.ClosedNeverTargeted | src/app.ts:99-122 | after a close, no later broadcast from any remaining client targets the closed socket |
| Relay.Server.constructor | src/app.ts:71 | the registry starts empty and nothing has been sent |
| Relay.Server.Connect | src/app.ts:73-76 | exactly one record, with a fresh id and no room, is appended; existing records are unchanged and nothing is sent |
| Relay.Server.OnMessage | src/app.ts:78-97 | the registry becomes `RegistryAfter` (join sets the room; any other type changes nothing) and the frames sent are `Route` (forwarded types only: stamped, to the room's other open records; join and unknown types send nothing) |
| Relay.Server.Broadcast | src/app.ts:112-122 | the loop sends exactly `Deliveries(Recipients(...))`: one frame per eligible record, in registry order |
| Relay.Server.OnClose | src/app.ts:99-102 | the record is spliced out (`Close`), nothing is sent, and the registry stays well-formed |
| Channel.Register | src/WebSocketHandler.ts:43-48 | the listener goes to the end of its event's list, which is created empty if absent |
| Channel.RegisterLeavesOthers | src/WebSocketHandler.ts:43-48 | registering leaves every other event's list unchanged and adds only that event's name as a key |
| Channel.Invocations | src/WebSocketHandler.ts:31-35 | one call per listener, in list order, each with the same event |
| Channel.InvocationCount | src/WebSocketHandler.ts:33 | a listener is called as many times as it is registered: there is no deduplication |
| Channel.RegisterTwiceRunsTwice | src/WebSocketHandler.ts:47 | registering a listener twice makes the next dispatch run it twice more |
| Channel.SignalingChannel.constructor | src/WebSocketHandler.ts:3 | no listeners, nothing sent, nothing dispatched |
| Channel.SignalingChannel.HandleEvent | src/WebSocketHandler.ts:31-35 | the loop calls every listener of the event once, in registration order; an event with no list calls nothing |
| Channel.SignalingChannel.On | src/WebSocketHandler.ts:43-48 | the listener map becomes `Register(old, name, h)` |
| Channel.SignalingChannel.Send | src/WebSocketHandler.ts:55-57 | exactly one envelope per call is appended to the outbox, whatever the socket's state |
| ChatUI.FirstAudio | src/ChatUIHandler.ts:338 | `getAudioTracks()[0]`: the first audio track's position, or -1 when the stream has no audio track |
| ChatUI.DisplayName | src/ChatUIHandler.ts:164 | the name is never empty: the typed name, or `Anonymous` when nothing was typed |
| ChatUI.TrimEmptyIffBlank | src/ChatUIHandler.ts:230-231 | `Trim`, ECMAScript `trim`: the trimmed input is empty exactly when the input is all ECMAScript white space and line terminators |
| ChatUI.TrimHasNoOuterSpace | src/ChatUIHandler.ts:230 | the trimmed text neither starts nor ends with white space |
| ChatUI.TrimIsInner | src/ChatUIHandler.ts:230 | the trimmed text sits in the input with only white space before and after it |
| ChatUI.ListenersOfFreshChannel | src/ChatUIHandler.ts:76-79 | registering the four controller listeners on a fresh channel gives exactly one listener each for `open`, `error`, `close` and `message` |
| ChatUI.StopAll | src/ChatUIHandler.ts:322 | every track of the list is stopped and keeps its `enabled` flag |
| ChatUI.ChatController.constructor | src/ChatUIHandler.ts:42-79 | username `You`, no stream, empty logs; the channel's listeners are exactly the four handlers for `open`, `error`, `close` and `message` |
| ChatUI.ChatController.OnIceCandidate | src/ChatUIHandler.ts:97-103 | every discovered candidate is sent once as a `candidate` envelope tagged with the current username |
| ChatUI.ChatController.HandleWebSocketMessage | src/ChatUIHandler.ts:134-158 | dispatches by type to the offer, answer, candidate, chat, file and end handlers (`AfterReceive`, `ReceiveReply`); any other type changes nothing; only `end` stops the local tracks |
| ChatUI.ChatController.SetUsername | src/ChatUIHandler.ts:163-167 | the username becomes the input value, or `Anonymous` when it is empty, and the local label equals it; nothing else changes |
| ChatUI.ChatController.StartVideoChat | src/ChatUIHandler.ts:172-190 | one `offer` with the current username is sent only when media, `addStream` and `createOffer` all succeed, and only then are the end, mute and send-file controls shown; each failure stops the sequence where it happened |
| ChatUI.ChatController.EndVideoChat | src/ChatUIHandler.ts:195-199 | every call sends exactly one `end`, then tears down: all local tracks stopped, the peer connection closed, the stream dropped, the remote label reset, the chat box emptied, the four controls hidden |
| ChatUI.ChatController.HandleFileInput | src/ChatUIHandler.ts:206-224 | a picked and read file is sent once as a `file` envelope with the username and shown once as a sent image; otherwise nothing changes |
| ChatUI.ChatController.SendMessage | src/ChatUIHandler.ts:229-237 | white-space-only input sends and shows nothing; otherwise one `chat` envelope with the trimmed text and the username is sent, one sent entry showing that text is appended, and the input is cleared |
| ChatUI.ChatController.HandleOffer | src/ChatUIHandler.ts:244-249 | in order: set the remote description, create the answer, send one `answer` with the local username, set the remote label to the offer's username; each rejection stops the rest |
| ChatUI.ChatController.HandleAnswer | src/ChatUIHandler.ts:256-259 | sets the remote description, then (if that resolved) the remote label; sends nothing |
| ChatUI.ChatController.HandleCandidate | src/ChatUIHandler.ts:266-268 | the received candidate goes straight to `addIceCandidate`, unqueued |
| ChatUI.ChatController.DisplayChatMessage | src/ChatUIHandler.ts:276-289 | one entry is appended: the message alone when sent, `username: message` when received |
| ChatUI.ChatController.DisplayFileMessage | src/ChatUIHandler.ts:297-314 | one image entry is appended, with the data URL as source and the file name as alternative text |
| ChatUI.ChatController.HandleEndChat | src/ChatUIHandler.ts:319-329 | every track of the local stream is stopped (mute state kept), the peer connection is closed, the stream and both videos are cleared, and the page is reset |
| ChatUI.ChatController.ToggleMic | src/ChatUIHandler.ts:336-342 | with no stream, or no audio track, nothing changes; otherwise the first audio track's `enabled` becomes `unmute`, no other track changes, and the mute and unmute buttons end up with complementary visibility |
| ChatUI.ChatController.UpdateUIForChatStart | src/ChatUIHandler.ts:347-351 | the end, mute and send-file controls are shown; nothing else changes |
| ChatUI.ChatController.ResetUI | src/ChatUIHandler.ts:356-363 | the remote label reads `Remote User`, the chat box is empty, the four controls are hidden |
| Session.ReachesPeer | src/app.ts:87-122 | any forwarded envelope from one record reaches an open record of the same room exactly once, stamped with the sender's id |
| Session.Negotiation | src/ChatUIHandler.ts:172-259 | when every step succeeds, the offer reaches the callee, which applies it, creates an answer, replies with its own name and shows the caller's name; the answer reaches the caller, which applies it and shows the callee's name |
| Session.ChatReachesPeer | src/ChatUIHandler.ts:229-289 | a non-blank line shows trimmed in the sender's box (`ChatText` of a sent message), reaches the peer exactly once, and shows there as `name: text` (`ChatText` of a received one) |
| Session.CandidateReachesPeer | src/ChatUIHandler.ts:266-268 | a candidate sent by one side reaches the other once and goes straight to its peer connection, changing nothing else |
| Session.HangUpReachesPeer | src/ChatUIHandler.ts:154-156 | an `end` from one side reaches the other once and tears its call down too |

## Left out

- JSON encoding and decoding are not modelled. An envelope is the decoded object; a property the object lacks is `None`. A frame that does not parse as JSON throws in the handler; that path is not modelled.
- I/O is replaced by parameters: the HTTP server, `fs.readFile` (its result is a parameter of `Respond`), the `ws` library, the browser `WebSocket`, `getUserMedia`, `FileReader` and the peer connection.
- The peer connection (`src/PeerConnectionHandler.ts`) is not part of this model. Its calls are recorded in `pcLog`, and whether each resolves is a parameter. Its own state, such as whether it is already closed, is not tracked.
- The remote stream is attached by the peer connection's track callback, which is not modelled. `remoteVideo` is only cleared here.
- Concurrency is not modelled: each handler runs to completion, in sequence, and connections do not interleave.
- UUIDs are replaced by a counter (`nextId`), which makes ids fresh by construction.
- The `open`, `error` and `close` listeners only log, so they appear only as registered names.
- The `click` and `keypress` wiring, DOM lookup, styling, scrolling and logging are not modelled.
- A `send` on a socket that is not open is not modelled; the relay and the channel record every send.
- `Object.prototype` keys (e.g. `constructor`) in the listener map and the MIME table are not modelled: a plain JavaScript object would find inherited properties under them.
- The initial contents of the chat box come from the page markup and are not modelled; the controller starts with an empty chat log.
- JavaScript strings are UTF-16 and the model's strings are sequences of code points. This does not affect `trim`, because every white-space code point is a single UTF-16 unit.
- StaticFiles.ServedName: the name is not joined under the public directory, so `path.join`'s normalisation of `.`, `..` and repeated slashes is not modelled. The extension is taken from the name as requested.
- StaticFiles.Lower: lower-cases ASCII letters only. The table lookup has the same outcome as with full Unicode lower-casing. Full lower-casing maps only two non-ASCII characters to text with an ASCII letter. The Kelvin sign becomes `k`, and no table key contains `k`. `İ` (U+0130) becomes `i` followed by the combining dot U+0307, and no table key contains U+0307.
- Relay.Server.OnMessage: requires the socket to have a record. In the source each handler's closure holds its own record, so a message never arrives for an unknown client.
- Relay.Server.OnClose: requires the socket to have a record. In the source the closure's record is still registered when `close` fires, so `indexOf` never returns -1.
- Relay.Server.Connect: requires the socket to be new. Each `connection` event brings a new socket object.
- ChatUI.ChatController.ToggleMic: with no audio track, `getAudioTracks()[0]` is undefined and the assignment throws. The model represents this as no change at all.
- ChatUI.ChatController.HandleFileInput: the file picker and the reader are parameters. `None` means either that no file was picked or that the reader never fired `onload`.

