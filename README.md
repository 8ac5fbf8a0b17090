# Video call and live-translation client: verified model of the call core

This project models the call-handling core of a browser video-calling client. Two users
register a name with a signalling server, and one calls the other. The two browsers then
exchange WebRTC signals (offer, answer, ICE candidates) through that server. While a call
runs, the client streams raw microphone audio to the server and shows live subtitles
that the server sends back. All of this lives in one React component, `src/App.js`.

The model has five modules:

- `Session` (session.dfy): the component's call state as a class, `CallSession`.
  - Its fields are the state slots and refs `callStatus`, `remoteUser`, `incomingCall`,
    `pendingCandidates`, `subtitles`, `peerRef`, `localStreamRef` and
    `audioProcessorRef`. It also holds the login slots and `outbox`, the list of
    messages emitted on the socket.
  - Sockets are numbered in the order the login effect opens them (src/App.js:110-114).
    The session keeps how many were opened (`socketCount`) and whether the newest one is
    connected. An older socket was closed by the effect's teardown and never reconnects.
    The audio processor records the number of the socket that `socketRef` held when it
    was created (src/App.js:214). Its frames are sent only while that socket is connected.
  - Every socket event, peer event and button handler is a method.
  - Each method's `modifies this`field` frame lists the only fields it may change.
  - The WebRTC peer is the log of signals applied to it (`PeerLink.applied`), plus its
    role and the user its own signals go to.
  - `setupCall` awaits `getUserMedia` before it creates the peer. So a button handler
    records a `MediaRequest` holding what the continuation closed over. Later
    `MediaReady` runs the continuation, or `MediaFailed` runs the `catch`, interleaved
    with any other events.
- `Subtitles` (subtitles.dfy): the pure updater run on each `liveSubtitle` event. The
  current time is an explicit parameter `now`.
- `Pcm16` (pcm16.dfy): the little-endian 16-bit PCM framing loop of the audio processor.
  It comes with a decoder, so that both round trips can be stated.
- `Login` (login.dfy): `String.prototype.trim` and the login decision.
- `Wrappers` (wrappers.dfy): `Option`.

The code behaves as follows, and the model keeps it:

- A `callUser` offer becomes the incoming call in every call phase, even during a call
  (src/App.js:124-126).
- A candidate is queued exactly when no peer object exists, whatever the phase
  (src/App.js:127-134).
- `callAccepted` sets the call `active` at once, for any signal type, candidates included
  (src/App.js:139-142).
- The phases are `idle`, `calling`, `receiving`, `connecting` and `active`. A hang-up
  returns straight to `idle`, and an incoming call can only be accepted or left waiting.
- No handler exists for a failed call; only the listed socket events are handled.
- A dropped peer or socket ends the call. Nothing reconnects, restarts ICE, monitors
  quality or switches cameras.
- The audio processor starts as soon as the media is obtained, before the peer connects
  (src/App.js:214).
- Hanging up does not cancel a pending `getUserMedia`. When the media later resolves,
  the continuation still attaches the stream and starts the audio processor. That audio
  flows if the socket is connected. It also creates a peer, and an initiator peer sends
  its offer to the user called before the hang-up (src/App.js:209-232).

## Model

| member | source | states |
|---|---|---|
| `Session.CallSession.constructor` | src/App.js:50-58 | The initial state: idle, no remote user, no incoming call, empty queue and subtitles, no peer, stream or processor, logged out. |
| `Session.CallSession.Cleanup` | src/App.js:80-101 | `cleanupCall` leaves status idle, remote user empty, no incoming call, empty queue and subtitles, and no peer, stream or processor. Its frame leaves login, socket, outbox and awaited media untouched. On an already torn-down session it changes nothing, so two calls equal one. |
| `Session.CallSession.DisconnectCall` | src/App.js:103-108 | Hang-up emits `disconnectCall` only when asked to and a socket exists, then tears down as `cleanupCall` does. |
| `Session.CallSession.OnSocketConnect` | src/App.js:116 | On `connect`, which arrives only on the socket of the current login, the newest socket is connected and `registerUsername` with the current name is emitted. The class invariant keeps a connected socket tied to a logged-in user. |
| `Session.CallSession.OnRegistrationFailed` | src/App.js:117-121 | On `registrationFailed`, the error is kept, the user is logged out, the socket is closed and the call is torn down. The teardown is the socket effect's cleanup at lines 166-169, which logging out triggers. |
| `Session.CallSession.OnCallUser` | src/App.js:122-136 | An offer becomes the incoming call with status `receiving` in every phase, and the queue and peer are untouched. A candidate is appended to the peer's log when a peer exists, with the queue unchanged. With no peer it goes to the end of the queue. Any other signal type changes nothing. |
| `Session.CallSession.OnCallAccepted` | src/App.js:137-147 | With no peer, nothing changes. Otherwise the signal is appended to the peer's log, the status is `active` and the remote user is the sender. |
| `Session.CallSession.OnLiveSubtitle` | src/App.js:148-156 | The buffer becomes `Subtitles.Update` of the old buffer, and the just-received line is always among the lines kept. The invariant of at most 5 lines, with at most one interim line per speaker, is preserved. |
| `Session.CallSession.OnPeerDisconnected` | src/App.js:157-160 | `peerDisconnected` tears the call down. |
| `Session.CallSession.OnSocketDisconnect` | src/App.js:161-164 | Socket `disconnect` logs out, marks the socket disconnected and tears the call down. |
| `Session.CallSession.OnAudioProcess` | src/App.js:184-193 | An `audioChunk` carrying `Pcm16.Encode(samples)` and the sample rate is appended to the outbox only when the socket the processor captured is connected, which means it is the newest socket. Otherwise the outbox is unchanged: the frame is dropped, not queued. |
| `Session.StaleSocketDropsAudio` | src/App.js:191-193 | A call is placed and the socket drops before the camera opens. The user then logs in again on a new, connected socket. Every frame of the processor created in between is dropped. |
| `Session.LiveSocketCarriesAudio` | src/App.js:191-193 | When the socket stays connected from the call to the camera opening, every frame reaches the server as `audioChunk` with its PCM16 encoding and sample rate. |
| `Session.CallSession.MediaReady` | src/App.js:206-289 | The continuation of `setupCall`. The stream and a new peer exist, with the role and target captured at the call. The audio processor holds the socket `socketRef` names when the media resolves. A callee's peer log is the offer followed by the captured queue in arrival order. The live queue is emptied only when that captured queue was non-empty. An initiator's peer starts with an empty log. |
| `Session.Replay` | src/App.js:282-288 | The `forEach` over queued candidates leaves the peer's log equal to the old log followed by the candidates in order. This is the same log as applying each one when it arrived. Role and target are unchanged. |
| `Session.CallSession.OnPeerSignal` | src/App.js:229-238 | Each signal of the peer is emitted as `callUser` to the called user when the peer initiated, and otherwise as `answerCall` to the caller. |
| `Session.CallSession.OnPeerConnect` | src/App.js:263-266 | Peer `connect` sets status `active`. |
| `Session.CallSession.OnPeerClose` | src/App.js:268-276 | Peer `close` and peer `error` both tear the call down. |
| `Session.CallSession.MediaFailed` | src/App.js:290-294 | A refused media request is dropped and the call is torn down. |
| `Session.CallSession.HandleCallUser` | src/App.js:297-301 | With an empty remote user, nothing changes. Otherwise the status is `calling`, and an initiator request aimed at the remote user awaits the media. |
| `Session.CallSession.HandleAcceptCall` | src/App.js:303-309 | The status is `connecting`, the remote user is the caller and the incoming call is cleared. A callee request awaits the media, carrying the caller's offer and the queue as it stood at the click. |
| `Session.CallSession.HandleLogin` | src/App.js:311-318 | When the trimmed name is empty, nothing changes. Otherwise the user is logged in under the trimmed name with the error cleared, and the login effect opens a new socket that is not yet connected. |
| `Session.CallSession.EnterRemoteUser` | src/App.js:413 | Typing in the call box sets the remote user. |
| `Session.CallSession.MediaReadyDrainingLiveQueue` | src/App.js:278-288 | The corrected continuation (see Findings). A callee's peer log is the offer followed by every candidate queued so far, in arrival order, and the queue is then empty. |
| `Session.LateCandidateLost` | src/App.js:282-287 | For a logged-in user on a connected socket: offer o, candidate c1, accept, then candidate c2 before the media resolves. The peer receives `[o, c1]`. c2 is never applied and the queue ends empty. |
| `Session.LateCandidateApplied` | src/App.js:282-287 | The same events with the corrected continuation give the peer `[o, c1, c2]` and an empty queue. |
| `Subtitles.FindInterim` | src/App.js:151 | `findIndex` returns the first position holding an interim line of the speaker, or none when there is no such line. |
| `Subtitles.Upsert` | src/App.js:150-153 | If the speaker has an interim line, the first one is replaced at the same index by the new line stamped `now`, and every other line is unchanged. Otherwise the new line is appended at the end. |
| `Subtitles.Expire` | src/App.js:154 | The filter keeps exactly the lines with `now - timestamp < 10000`. Every kept line is fresh, every fresh line is kept, and a line exactly 10000 ms old is dropped. |
| `Subtitles.ExpireAppend` | src/App.js:154 | The filter distributes over concatenation, so it keeps the survivors in their original relative order. |
| `Subtitles.KeepLast` | src/App.js:154 | For n ≥ 1, `slice(-n)` is the suffix of length `min(n, length)`. The source calls it only with n = 5. |
| `Subtitles.Update` | src/App.js:148-156 | After any update, the buffer has at most 5 lines and every line satisfies `now - timestamp < 10000`. |
| `Subtitles.ShowsLatest` | src/App.js:150-154 | From a buffer of at most 5 lines, the new line stamped `now` is always kept. When it was appended, it is the last line. |
| `Subtitles.KeepsOneInterimPerSpeaker` | src/App.js:149-155 | If no speaker had two interim lines before an update, none has two after it. |
| `Subtitles.UpdateKeepsBufferValid` | src/App.js:148-156 | The three buffer facts the session keeps: at most 5 lines, one interim line per speaker, and the latest line shown. |
| `Pcm16.ToInt16` | src/App.js:189 | The value `setInt16` stores is in the signed 16-bit range, and it equals the sample when the sample is already in that range. |
| `Pcm16.Encode` | src/App.js:186-190 | The frame has length `2 × samples`. |
| `Pcm16.EncodeAt` | src/App.js:188-190 | Sample `i` sits at byte `2i` (low byte) and byte `2i+1` (high byte) of its 16-bit two's-complement pattern. |
| `Pcm16.EncodeFrame` | src/App.js:185-190 | The loop fills a fresh buffer of `2 × samples` bytes that equals `Encode(samples)`. |
| `Pcm16.Decode` | src/App.js:189 | The reading partner of the frame: an even-length buffer yields half as many samples, all in the signed 16-bit range. |
| `Pcm16.DecodeEncode` | src/App.js:186-190 | Decoding a frame returns every sample as `ToInt16` stored it. |
| `Pcm16.RoundTrip` | src/App.js:186-190 | Samples in [-32768, 32767] decode back unchanged. |
| `Pcm16.EncodeDecode` | src/App.js:186-190 | Every even-length byte buffer is the frame of its own decoding, so the framing is a bijection onto even-length buffers. |
| `Login.SkipWhiteForward` | src/App.js:313 | The forward scan stops at the first character that is not white space. Everything it passed is white space. |
| `Login.SkipWhiteBackward` | src/App.js:313 | The backward scan stops just after the last character that is not white space. Everything it passed is white space. |
| `Login.Trim` | src/App.js:313 | `trim()` returns a stretch of the input enclosed by two white-space runs. Its result neither starts nor ends with white space, and it is empty exactly when the input is all white space. |
| `Login.LoginName` | src/App.js:313-317 | The user logs in exactly when the typed name is not all white space, and the name used is the trimmed one. |
| `Login.TrimIdempotent` | src/App.js:313-314 | Trimming the trimmed name changes nothing. |

## Findings

| source | as written | input that shows it | evidently intended | confidence | as-written member | corrected member |
|---|---|---|---|---|---|---|
| src/App.js:282-287 | `setupCall` replays the `pendingCandidates` of the render that ran `handleAcceptCall`, after awaiting the camera. It then empties the live queue, but only if that captured list was non-empty. | The caller's offer o and candidate c1 arrive. The callee accepts. Candidate c2 arrives while `getUserMedia` is pending, so no peer exists and it is queued. The media resolves, and the peer gets `[o, c1]` while c2 is cleared without being applied. With an empty capture, c2 stays queued and is never applied to this peer, until the call is torn down. | Every candidate received before the peer exists is applied after the offer, in arrival order, and the queue is then empty. | medium; not executed | `Session.LateCandidateLost` | `Session.CallSession.MediaReadyDrainingLiveQueue` |

`Session.CallSession.MediaReady` models the code as written. `Session.LateCandidateApplied`
drives the same events through the corrected continuation.

## Left out

- Socket.io transport, the simple-peer library and WebRTC, `getUserMedia`, and the
  `AudioContext`/`ScriptProcessor` wiring (src/App.js:113-121, 179-183, 195-203,
  209-225). They are foreign I/O. A socket appears only as its number, the connected
  flag of the newest one, and the log of emitted messages. A media request resolves or
  fails through `MediaReady` or `MediaFailed`, and peer events are methods.
- The float scaling `inputData[i] * 0x7FFF` and the float-to-integer truncation of
  `setInt16` (src/App.js:189). They are floating-point. Samples enter the model as
  integers, and `setInt16`'s modulo-2^16 step is modelled exactly.
- `Session.CallSession.OnLiveSubtitle`: the source reads `Date.now()` once per new line
  and once per filtered line. The model uses a single `now` for the whole update.
- `Session.CallSession.OnPeerSignal`: it requires a current peer. Signals from a peer that
  a later `setupCall` replaced, without destroying it, are not modelled.
- `Session.CallSession.MediaReady`: a peer or audio processor replaced by a second
  resolving request is simply forgotten. In the source the old ones are never destroyed and
  can still fire events. Their `close`/`error` events are the same teardown (`OnPeerClose`).
  The audio callbacks of a forgotten processor, which would send on the socket it captured,
  are not modelled.
- `Session.CallSession.HandleLogin`: it requires the user to be logged out, because the
  login form is rendered only then (src/App.js:374). A second login while logged in,
  which would re-run the socket effect, is not modelled.
- `Session.CallSession.OnSocketConnect`: it requires the user to be logged in. Logging out
  runs the socket effect's teardown, `socket.disconnect()` (src/App.js:166-167), and a
  socket closed that way never fires `connect` again.
- `Session.CallSession.HandleAcceptCall`: it requires an incoming call. The source
  dereferences `incomingCall.from` unconditionally, and the Accept button exists only in
  `receiving`, where the class invariant guarantees an incoming call.
- Emitting while the socket is disconnected: socket.io buffers such emits, and `outbox`
  records the calls to `emit` regardless.
- The `track`/`stream` handlers and the remote-video playback effect with its retry and
  autoplay fallback (src/App.js:240-261, 320-371). They are DOM side effects and timers.
- The `updateLanguageSettings` effect, the language list, JSX rendering and CSS
  (src/App.js:68-78, 172-177, 374-476). They are UI only; the call box's `onChange` is
  kept as `EnterRemoteUser`.
- The polyfills (src/App.js:8-22), `alert` and `console` calls.
- Quality monitoring, reconnection and ICE restart, camera switching, decline and a
  first-offer-wins guard: the source has none of them.
