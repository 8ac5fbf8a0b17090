/**
 * The call-session state machine of the `App` component (src/App.js).
 *
 * The component's state slots and refs become fields of one `CallSession`
 * object; every socket event, peer event and button handler that touches
 * them becomes a method. The WebRTC peer is represented by the log of the
 * signals applied to it, the media stream by whether it exists, and the
 * audio processor by the socket it captured. Sockets are numbered in the
 * order the login effect opens them; the session knows how many were
 * opened, whether the newest is connected, and the list of messages
 * emitted (`outbox`).
 *
 * `setupCall` is asynchronous: it awaits the camera and microphone before
 * creating the peer. A call to it is therefore split in two: the button
 * handler records a `MediaRequest` holding what the continuation closed
 * over, and `MediaReady` / `MediaFailed` run the continuation or the
 * `catch` block later, interleaved with other events.
 */
module Session {
  import opened Wrappers
  import Pcm16
  import Subtitles
  import Login

  /** simple-peer signalling data, by its `type` field. */
  datatype Signal =
    | Offer(sdp: string)
    | Answer(sdp: string)
    | Candidate(candidate: string)
    | OtherSignal(kind: string)

  /** Messages the client emits to the signalling server. */
  datatype Outgoing =
    | RegisterUsername(name: string)
    | CallUser(userToCall: string, signalData: Signal)
    | AnswerCall(to: string, signal: Signal)
    | DisconnectCall
    | AudioChunk(chunk: seq<Pcm16.Byte>, sampleRate: int)

  datatype CallStatus = Idle | Calling | Receiving | Connecting | Active

  /** The `incomingCall` slot: who calls and the offer they sent. */
  datatype IncomingCall = IncomingCall(from: string, signalData: Signal)

  /**
   * A live peer: whether it initiated, whom its own signals are sent to
   * (captured when `setupCall` ran) and every signal applied to it so far.
   */
  datatype PeerLink = PeerLink(initiator: bool, target: string, applied: seq<Signal>)

  /**
   * A `setupCall` awaiting the media devices, with the values its closure
   * captured: the role, the offer to apply, the `pendingCandidates` of the
   * render that invoked it, and the peer's signalling target.
   */
  datatype MediaRequest = MediaRequest(initiator: bool, initialSignal: Option<Signal>,
                                       queued: seq<Signal>, target: string)

  /** `peer.signal(s)`. */
  function Signaled(link: PeerLink, s: Signal): (r: PeerLink) {
    link.(applied := link.applied + [s])
  }

  /**
   * The `forEach` that feeds queued candidates to a peer one by one: the
   * result is the peer as if each candidate had been applied on arrival,
   * in arrival order.
   */
  method Replay(link: PeerLink, candidates: seq<Signal>) returns (r: PeerLink)
    ensures r.initiator == link.initiator && r.target == link.target
    ensures r.applied == link.applied + candidates
  {
    r := link;
    var i := 0;
    while i < |candidates|
      invariant 0 <= i <= |candidates|
      invariant r.initiator == link.initiator && r.target == link.target
      invariant r.applied == link.applied + candidates[..i]
    {
      assert candidates[..i + 1] == candidates[..i] + [candidates[i]];
      r := Signaled(r, candidates[i]);
      i := i + 1;
    }
    assert candidates[..i] == candidates;
  }

  function RemoveAt(requests: seq<MediaRequest>, k: nat): (r: seq<MediaRequest>)
    requires k < |requests|
    ensures |r| == |requests| - 1
  {
    requests[..k] + requests[k + 1..]
  }

  class CallSession {
    var username: string
    var loggedIn: bool
    var loginError: string
    /**
     * How many sockets the login effect has opened; `socketRef.current` is
     * socket number socketCount, or unset while it is 0 (it is never reset).
     */
    var socketCount: nat
    /**
     * `connected` of the newest socket. Every older socket was closed by
     * the effect's teardown and never reconnects.
     */
    var socketConnected: bool
    var outbox: seq<Outgoing>

    var callStatus: CallStatus
    var remoteUser: string
    var incomingCall: Option<IncomingCall>
    var pendingCandidates: seq<Signal>
    var subtitles: seq<Subtitles.Subtitle>
    /** `peerRef.current`. */
    var peer: Option<PeerLink>
    /** `localStreamRef.current` is set. */
    var hasLocalStream: bool
    /**
     * `audioProcessorRef.current`: Some(n) when a processor runs, n being
     * the number of the socket it captured (0: `socketRef` was unset).
     */
    var audioProcessor: Option<nat>
    /** Calls of `setupCall` still awaiting `getUserMedia`. */
    var awaitingMedia: seq<MediaRequest>

    ghost predicate Valid()
      reads this
    {
      && (callStatus == Receiving ==> incomingCall.Some?)
      && (peer.Some? ==> hasLocalStream && audioProcessor.Some?)
      && |subtitles| <= Subtitles.Capacity
      && Subtitles.OneInterimPerSpeaker(subtitles)
      && (socketConnected ==> loggedIn)
    }

    /** The state `cleanupCall` leaves behind. */
    predicate IsTornDown()
      reads this
    {
      && callStatus == Idle
      && remoteUser == ""
      && incomingCall == None
      && pendingCandidates == []
      && subtitles == []
      && peer == None
      && !hasLocalStream
      && audioProcessor == None
    }

    /** The running processor's socket is the newest one, and it is connected. */
    predicate AudioReachesServer()
      reads this`audioProcessor, this`socketCount, this`socketConnected
    {
      audioProcessor == Some(socketCount) && socketCount > 0 && socketConnected
    }

    /** The component's initial state. */
    constructor ()
      ensures Valid() && IsTornDown()
      ensures username == "" && !loggedIn && loginError == ""
      ensures socketCount == 0 && !socketConnected && outbox == [] && awaitingMedia == []
    {
      username, loggedIn, loginError := "", false, "";
      socketCount, socketConnected, outbox := 0, false, [];
      callStatus, remoteUser, incomingCall := Idle, "", None;
      pendingCandidates, subtitles, peer := [], [], None;
      hasLocalStream, audioProcessor, awaitingMedia := false, None, [];
    }

    /**
     * `cleanupCall`: stop the media, destroy the peer, stop the audio
     * processor and reset every call slot. The end state does not depend on
     * the start state, so a second call changes nothing.
     */
    method Cleanup()
      requires Valid()
      modifies this`callStatus, this`remoteUser, this`incomingCall, this`pendingCandidates,
               this`subtitles, this`peer, this`hasLocalStream, this`audioProcessor
      ensures Valid() && IsTornDown()
      ensures old(IsTornDown()) ==> unchanged(this)
    {
      hasLocalStream := false;
      peer := None;
      audioProcessor := None;
      callStatus := Idle;
      remoteUser := "";
      incomingCall := None;
      pendingCandidates := [];
      subtitles := [];
    }

    /** `disconnectCall(emitToServer)`: the hang-up button. */
    method DisconnectCall(emitToServer: bool)
      requires Valid()
      modifies this`outbox, this`callStatus, this`remoteUser, this`incomingCall,
               this`pendingCandidates, this`subtitles, this`peer, this`hasLocalStream,
               this`audioProcessor
      ensures Valid() && IsTornDown()
      ensures outbox == if emitToServer && socketCount > 0 then old(outbox) + [Outgoing.DisconnectCall] else old(outbox)
    {
      if emitToServer && socketCount > 0 {
        outbox := outbox + [Outgoing.DisconnectCall];
      }
      Cleanup();
    }

    /**
     * `handleLogin`, submitted from the login form shown while logged out:
     * log in under the trimmed name, unless it is empty. Logging in runs
     * the socket effect, which opens a new, not yet connected socket.
     */
    method HandleLogin(typed: string)
      requires Valid() && !loggedIn
      modifies this`username, this`loggedIn, this`loginError, this`socketCount, this`socketConnected
      ensures Valid()
      ensures Login.LoginName(typed).None? ==> unchanged(this)
      ensures Login.LoginName(typed).Some? ==>
        && username == Login.LoginName(typed).value && loggedIn && loginError == ""
        && socketCount == old(socketCount) + 1 && !socketConnected
    {
      var name := Login.LoginName(typed);
      if name.Some? {
        username := name.value;
        loggedIn := true;
        loginError := "";
        socketCount := socketCount + 1;
        socketConnected := false;
      }
    }

    /** The socket's `connect` event: register the user name. */
    method OnSocketConnect()
      requires Valid() && loggedIn
      modifies this`socketConnected, this`outbox
      ensures Valid()
      ensures socketConnected && outbox == old(outbox) + [RegisterUsername(username)]
    {
      socketConnected := true;
      outbox := outbox + [RegisterUsername(username)];
    }

    /**
     * The `registrationFailed` event: show the error, log out and close the
     * socket; logging out runs the socket effect's teardown, `cleanupCall`.
     */
    method OnRegistrationFailed(error: string)
      requires Valid()
      modifies this`loginError, this`loggedIn, this`socketConnected, this`callStatus,
               this`remoteUser, this`incomingCall, this`pendingCandidates, this`subtitles,
               this`peer, this`hasLocalStream, this`audioProcessor
      ensures Valid() && IsTornDown()
      ensures loginError == error && !loggedIn && !socketConnected
    {
      loginError := error;
      loggedIn := false;
      socketConnected := false;
      Cleanup();
    }

    /** The socket's `disconnect` event: log out and tear the call down. */
    method OnSocketDisconnect()
      requires Valid()
      modifies this`loggedIn, this`socketConnected, this`callStatus, this`remoteUser,
               this`incomingCall, this`pendingCandidates, this`subtitles, this`peer,
               this`hasLocalStream, this`audioProcessor
      ensures Valid() && IsTornDown()
      ensures !loggedIn && !socketConnected
    {
      loggedIn := false;
      socketConnected := false;
      Cleanup();
    }

    /**
     * The `callUser` socket event. An offer always becomes the incoming
     * call, whatever the phase. A candidate goes to the peer when there is
     * one, to the end of the queue otherwise. Other signal types are ignored.
     */
    method OnCallUser(from: string, signalData: Signal)
      requires Valid()
      modifies this`incomingCall, this`callStatus, this`pendingCandidates, this`peer
      ensures Valid()
      ensures signalData.Offer? ==>
        && incomingCall == Some(IncomingCall(from, signalData)) && callStatus == Receiving
        && pendingCandidates == old(pendingCandidates) && peer == old(peer)
      ensures signalData.Candidate? && old(peer).Some? ==>
        && peer == Some(old(peer).value.(applied := old(peer).value.applied + [signalData]))
        && pendingCandidates == old(pendingCandidates)
        && incomingCall == old(incomingCall) && callStatus == old(callStatus)
      ensures signalData.Candidate? && old(peer).None? ==>
        && pendingCandidates == old(pendingCandidates) + [signalData] && peer == None
        && incomingCall == old(incomingCall) && callStatus == old(callStatus)
      ensures !signalData.Offer? && !signalData.Candidate? ==> unchanged(this)
    {
      match signalData
      case Offer(_) =>
        incomingCall := Some(IncomingCall(from, signalData));
        callStatus := Receiving;
      case Candidate(_) =>
        if peer.Some? {
          peer := Some(Signaled(peer.value, signalData));
        } else {
          pendingCandidates := pendingCandidates + [signalData];
        }
      case _ =>
    }

    /**
     * The `callAccepted` socket event: with a peer, apply the callee's
     * signal, mark the call active and record who answered; without a peer,
     * nothing happens.
     */
    method OnCallAccepted(signal: Signal, from: string)
      requires Valid()
      modifies this`peer, this`callStatus, this`remoteUser
      ensures Valid()
      ensures old(peer).None? ==> unchanged(this)
      ensures old(peer).Some? ==>
        && peer == Some(old(peer).value.(applied := old(peer).value.applied + [signal]))
        && callStatus == Active && remoteUser == from
    {
      if peer.Some? {
        peer := Some(Signaled(peer.value, signal));
        callStatus := Active;
        remoteUser := from;
      }
    }

    /** The `liveSubtitle` socket event, received at time now. */
    method OnLiveSubtitle(data: Subtitles.Transcript, now: int)
      requires Valid()
      modifies this`subtitles
      ensures Valid()
      ensures subtitles == Subtitles.Update(old(subtitles), data, now)
      ensures Subtitles.Stamp(data, now) in subtitles
    {
      var next := Subtitles.Update(subtitles, data, now);
      Subtitles.UpdateKeepsBufferValid(subtitles, data, now);
      subtitles := next;
    }

    /** The `peerDisconnected` socket event: the other side hung up. */
    method OnPeerDisconnected()
      requires Valid()
      modifies this`callStatus, this`remoteUser, this`incomingCall, this`pendingCandidates,
               this`subtitles, this`peer, this`hasLocalStream, this`audioProcessor
      ensures Valid() && IsTornDown()
    {
      Cleanup();
    }

    /** The peer's `connect` event. */
    method OnPeerConnect()
      requires Valid()
      modifies this`callStatus
      ensures Valid()
      ensures callStatus == Active
    {
      callStatus := Active;
    }

    /** The peer's `close` event and its `error` event, which run the same teardown. */
    method OnPeerClose()
      requires Valid()
      modifies this`callStatus, this`remoteUser, this`incomingCall, this`pendingCandidates,
               this`subtitles, this`peer, this`hasLocalStream, this`audioProcessor
      ensures Valid() && IsTornDown()
    {
      Cleanup();
    }

    /**
     * The peer's `signal` event: the initiator sends its signals as
     * `callUser` to the user it called, the callee as `answerCall` to the
     * caller, both as captured when the peer was set up.
     */
    method OnPeerSignal(data: Signal)
      requires Valid() && peer.Some?
      modifies this`outbox
      ensures Valid()
      ensures outbox == old(outbox) + [if peer.value.initiator then CallUser(peer.value.target, data)
                                       else AnswerCall(peer.value.target, data)]
    {
      if peer.value.initiator {
        outbox := outbox + [CallUser(peer.value.target, data)];
      } else {
        outbox := outbox + [AnswerCall(peer.value.target, data)];
      }
    }

    /** Typing in the "Username to call" box. */
    method EnterRemoteUser(name: string)
      requires Valid()
      modifies this`remoteUser
      ensures Valid() && remoteUser == name
    {
      remoteUser := name;
    }

    /**
     * `handleCallUser`: with no user to call, nothing changes; otherwise the
     * call is `calling` and an initiator `setupCall` awaits the media.
     */
    method HandleCallUser()
      requires Valid()
      modifies this`callStatus, this`awaitingMedia
      ensures Valid()
      ensures old(remoteUser) == "" ==> unchanged(this)
      ensures old(remoteUser) != "" ==>
        && callStatus == Calling
        && awaitingMedia == old(awaitingMedia) + [MediaRequest(true, None, pendingCandidates, remoteUser)]
    {
      if remoteUser != "" {
        callStatus := Calling;
        awaitingMedia := awaitingMedia + [MediaRequest(true, None, pendingCandidates, remoteUser)];
      }
    }

    /**
     * `handleAcceptCall`: the call is `connecting` with the caller as remote
     * user, a callee `setupCall` carrying the offer and the queue as it is
     * now awaits the media, and the incoming call is cleared.
     */
    method HandleAcceptCall()
      requires Valid() && incomingCall.Some?
      modifies this`callStatus, this`remoteUser, this`awaitingMedia, this`incomingCall
      ensures Valid()
      ensures callStatus == Connecting && remoteUser == old(incomingCall).value.from
      ensures incomingCall == None
      ensures awaitingMedia == old(awaitingMedia) +
        [MediaRequest(false, Some(old(incomingCall).value.signalData), pendingCandidates, remoteUser)]
    {
      var call := incomingCall.value;
      callStatus := Connecting;
      remoteUser := call.from;
      awaitingMedia := awaitingMedia + [MediaRequest(false, Some(call.signalData), pendingCandidates, call.from)];
      incomingCall := None;
    }

    /**
     * The continuation of `setupCall` once the k-th awaited media request
     * resolves: the stream exists, an audio processor captures the socket
     * `socketRef` holds at that moment, and a new peer exists. A
     * callee's peer receives the offer, then the captured queue in arrival
     * order; when that queue was not empty the live queue is then emptied.
     */
    method MediaReady(k: nat)
      requires Valid() && k < |awaitingMedia|
      modifies this`awaitingMedia, this`hasLocalStream, this`audioProcessor, this`peer,
               this`pendingCandidates
      ensures Valid()
      ensures awaitingMedia == RemoveAt(old(awaitingMedia), k)
      ensures hasLocalStream && audioProcessor == Some(socketCount)
      ensures var req := old(awaitingMedia)[k];
        && peer.Some? && peer.value.initiator == req.initiator && peer.value.target == req.target
        && peer.value.applied ==
             (if !req.initiator && req.initialSignal.Some? then [req.initialSignal.value] + req.queued else [])
        && pendingCandidates ==
             (if !req.initiator && req.initialSignal.Some? && |req.queued| > 0 then [] else old(pendingCandidates))
    {
      var req := awaitingMedia[k];
      awaitingMedia := RemoveAt(awaitingMedia, k);
      hasLocalStream := true;
      audioProcessor := Some(socketCount);
      var link := PeerLink(req.initiator, req.target, []);
      if !req.initiator && req.initialSignal.Some? {
        link := Signaled(link, req.initialSignal.value);
        if |req.queued| > 0 {
          link := Replay(link, req.queued);
          pendingCandidates := [];
        }
      }
      peer := Some(link);
    }

    /**
     * The same continuation with the queue read when the media resolves
     * instead of when accept was clicked: the peer receives the offer and
     * then every candidate queued so far, and the queue is empty.
     */
    method MediaReadyDrainingLiveQueue(k: nat)
      requires Valid() && k < |awaitingMedia|
      modifies this`awaitingMedia, this`hasLocalStream, this`audioProcessor, this`peer,
               this`pendingCandidates
      ensures Valid()
      ensures awaitingMedia == RemoveAt(old(awaitingMedia), k)
      ensures hasLocalStream && audioProcessor == Some(socketCount)
      ensures var req := old(awaitingMedia)[k];
        && peer.Some? && peer.value.initiator == req.initiator && peer.value.target == req.target
        && (!req.initiator && req.initialSignal.Some? ==>
              peer.value.applied == [req.initialSignal.value] + old(pendingCandidates)
              && pendingCandidates == [])
        && (req.initiator || req.initialSignal.None? ==>
              peer.value.applied == [] && pendingCandidates == old(pendingCandidates))
    {
      var req := awaitingMedia[k];
      awaitingMedia := RemoveAt(awaitingMedia, k);
      hasLocalStream := true;
      audioProcessor := Some(socketCount);
      var link := PeerLink(req.initiator, req.target, []);
      if !req.initiator && req.initialSignal.Some? {
        link := Signaled(link, req.initialSignal.value);
        link := Replay(link, pendingCandidates);
        pendingCandidates := [];
      }
      peer := Some(link);
    }

    /** The `catch` of `setupCall`: the k-th media request was refused. */
    method MediaFailed(k: nat)
      requires Valid() && k < |awaitingMedia|
      modifies this`awaitingMedia, this`callStatus, this`remoteUser, this`incomingCall,
               this`pendingCandidates, this`subtitles, this`peer, this`hasLocalStream,
               this`audioProcessor
      ensures Valid() && IsTornDown()
      ensures awaitingMedia == RemoveAt(old(awaitingMedia), k)
    {
      awaitingMedia := RemoveAt(awaitingMedia, k);
      Cleanup();
    }

    /**
     * The running audio processor's `onaudioprocess` callback: the buffer is
     * framed as PCM16LE and emitted with the sample rate only when the
     * socket the processor captured is connected, which only the newest
     * socket can be; otherwise the frame is dropped. With no processor
     * there is no callback and nothing changes.
     */
    method OnAudioProcess(samples: seq<int>, sampleRate: int)
      requires Valid()
      modifies this`outbox
      ensures Valid()
      ensures outbox == if AudioReachesServer() then old(outbox) + [AudioChunk(Pcm16.Encode(samples), sampleRate)]
                        else old(outbox)
    {
      var frame := Pcm16.EncodeFrame(samples);
      if AudioReachesServer() {
        outbox := outbox + [AudioChunk(frame[..], sampleRate)];
      }
    }
  }

  /**
   * The callee clicks accept with one candidate queued; a second candidate
   * arrives while the camera is being opened. As written, the second one is
   * never applied and the queue is emptied.
   */
  method LateCandidateLost() returns (applied: seq<Signal>, queued: seq<Signal>)
    ensures applied == [Offer("o"), Candidate("c1")]
    ensures Candidate("c2") !in applied && queued == []
  {
    var s := LogIn();
    s.OnCallUser("alice", Offer("o"));
    s.OnCallUser("alice", Candidate("c1"));
    s.HandleAcceptCall();
    s.OnCallUser("alice", Candidate("c2"));
    s.MediaReady(0);
    applied, queued := s.peer.value.applied, s.pendingCandidates;
  }

  /** A user logs in and the socket connects; no call is under way. */
  method LogIn() returns (s: CallSession)
    ensures fresh(s) && s.Valid() && s.IsTornDown()
    ensures s.loggedIn && s.socketCount == 1 && s.socketConnected && s.awaitingMedia == []
  {
    s := new CallSession();
    s.HandleLogin("bob");
    assert s.socketCount == 1 && s.loggedIn;
    s.OnSocketConnect();
  }

  /** A user logs in, the socket connects and a call to "alice" awaits the camera. */
  method PlaceCall() returns (s: CallSession)
    ensures fresh(s) && s.Valid()
    ensures s.loggedIn && s.socketCount == 1 && s.socketConnected && |s.awaitingMedia| == 1
  {
    s := LogIn();
    s.EnterRemoteUser("alice");
    s.HandleCallUser();
  }

  /**
   * The socket drops before the camera opens: the user is logged out, and
   * the processor the continuation then creates holds the closed socket.
   */
  method DropBeforeCamera() returns (s: CallSession)
    ensures fresh(s) && s.Valid()
    ensures !s.loggedIn && s.socketCount == 1 && s.audioProcessor == Some(1)
  {
    s := PlaceCall();
    s.OnSocketDisconnect();
    assert !s.loggedIn && s.socketCount == 1 && |s.awaitingMedia| == 1;
    s.MediaReady(0);
  }

  /**
   * After the drop the user logs in again on a new socket. Frames of the
   * processor created meanwhile never reach the server.
   */
  method StaleSocketDropsAudio(samples: seq<int>, sampleRate: int) returns (before: seq<Outgoing>, after: seq<Outgoing>)
    ensures after == before
  {
    var s := DropBeforeCamera();
    s.HandleLogin("bob");
    assert s.socketCount == 2 && s.audioProcessor == Some(1);
    s.OnSocketConnect();
    assert s.socketCount == 2 && s.audioProcessor == Some(1);
    assert !s.AudioReachesServer();
    before := s.outbox;
    s.OnAudioProcess(samples, sampleRate);
    after := s.outbox;
  }

  /** The same call with the socket kept: the frame reaches the server. */
  method LiveSocketCarriesAudio(samples: seq<int>, sampleRate: int) returns (before: seq<Outgoing>, after: seq<Outgoing>)
    ensures after == before + [AudioChunk(Pcm16.Encode(samples), sampleRate)]
  {
    var s := PlaceCall();
    s.MediaReady(0);
    assert s.socketCount == 1 && s.socketConnected && s.audioProcessor == Some(1);
    assert s.AudioReachesServer();
    before := s.outbox;
    s.OnAudioProcess(samples, sampleRate);
    after := s.outbox;
  }

  /** The same events with the live queue drained: both candidates reach the peer, in order. */
  method LateCandidateApplied() returns (applied: seq<Signal>, queued: seq<Signal>)
    ensures applied == [Offer("o"), Candidate("c1"), Candidate("c2")] && queued == []
  {
    var s := LogIn();
    s.OnCallUser("alice", Offer("o"));
    s.OnCallUser("alice", Candidate("c1"));
    s.HandleAcceptCall();
    s.OnCallUser("alice", Candidate("c2"));
    s.MediaReadyDrainingLiveQueue(0);
    applied, queued := s.peer.value.applied, s.pendingCandidates;
  }
}
