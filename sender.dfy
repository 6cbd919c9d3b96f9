/** The mobile side of the session: it holds the camera preview, offers a
    connection carrying the preview's tracks, relays its own candidates, and
    polls `/mobile/receive` for the desktop's answer and candidates.

    Each handler runs to completion (the awaits inside one handler are not
    interleaved with other handlers); every awaited call into the camera or
    the WebRTC stack is an outcome chosen by the environment. */
module SenderNegotiator {
  import opened Wrappers
  import opened Mailbox
  import opened WebRtc

  datatype Camera = Front | Back

  /** A camera stream: its track ids, in `getTracks()` order. */
  datatype MediaStream = MediaStream(id: nat, facing: Camera, tracks: seq<nat>)

  /** What the hook asks of the camera, in order. */
  datatype DeviceEvent = MediaRequested(facing: Camera) | TrackStopped(track: nat)

  /** What the model keeps of the sender's `RTCPeerConnection`. */
  datatype SenderConnection = SenderConnection(
    id: nat,
    tracks: seq<nat>,                    // every addTrack call, in order
    localDescription: Option<string>,
    remoteDescription: Option<string>,
    attempted: seq<CandidatePayload>,    // every addIceCandidate call, in order
    added: seq<CandidatePayload>,        // the calls that succeeded
    closed: bool)

  function FreshConnection(id: nat): SenderConnection
  {
    SenderConnection(id, [], None, None, [], [], false)
  }

  // ---------------------------------------------------------------------
  // The poll loop, as a function of the batch

  /** How the awaited calls of the poll loop turn out. */
  datatype PollEnvironment = PollEnvironment(
    answerAccepted: string -> bool,
    candidateAccepted: CandidatePayload -> bool)

  /** One message of the loop: the connection afterwards, and whether the
      awaited call returned (false: it threw, which ends the whole loop). An
      answer sets the remote description whatever was set before; a
      candidate is applied at once; an offer has no case. */
  function ApplyMessage(pc: SenderConnection, m: SignalingMessage, env: PollEnvironment): (SenderConnection, bool)
  {
    match m
    case Answer(sdp) =>
      if env.answerAccepted(sdp) then (pc.(remoteDescription := Some(sdp)), true) else (pc, false)
    case IceCandidate(c) =>
      if c.NullPayload? then (pc, true)
      else if env.candidateAccepted(c) then (pc.(attempted := pc.attempted + [c], added := pc.added + [c]), true)
      else (pc.(attempted := pc.attempted + [c]), false)
    case Offer(_) => (pc, true)
  }

  /** The `for` loop over a batch inside its `try`: messages in arrival
      order until the first one whose call throws. The flag says whether
      the whole batch was handled. */
  function ApplyBatch(pc: SenderConnection, ms: seq<SignalingMessage>, env: PollEnvironment): (r: (SenderConnection, bool))
    ensures r.0.id == pc.id && r.0.tracks == pc.tracks && r.0.closed == pc.closed
    ensures r.0.localDescription == pc.localDescription
    decreases |ms|
  {
    if ms == [] then (pc, true)
    else
      var (next, ok) := ApplyMessage(pc, ms[0], env);
      if !ok then (next, false) else ApplyBatch(next, ms[1..], env)
  }

  /** Whether a message's awaited call returns. */
  predicate Succeeds(m: SignalingMessage, env: PollEnvironment)
  {
    match m
    case Answer(sdp) => env.answerAccepted(sdp)
    case IceCandidate(c) => c.NullPayload? || env.candidateAccepted(c)
    case Offer(_) => true
  }

  /** The candidates of a batch the loop passes on (`message.candidate` truthy). */
  function CandidatePayloads(ms: seq<SignalingMessage>): seq<CandidatePayload>
  {
    if ms == [] then []
    else (if ms[0].IceCandidate? && ms[0].candidate.Payload? then [ms[0].candidate] else []) + CandidatePayloads(ms[1..])
  }

  /** The sdp of the last answer of a batch. */
  function LastAnswer(ms: seq<SignalingMessage>): Option<string>
  {
    if ms == [] then None
    else if LastAnswer(ms[1..]).Some? then LastAnswer(ms[1..])
    else if ms[0].Answer? then Some(ms[0].sdp)
    else None
  }

  /** Handling a batch in one go is handling its first part and then, unless
      that part stopped at a throw, the rest: messages take effect strictly
      in arrival order, and nothing after a throw takes effect. */
  lemma {:induction false} ApplyBatchSplits(pc: SenderConnection, a: seq<SignalingMessage>, b: seq<SignalingMessage>, env: PollEnvironment)
    ensures ApplyBatch(pc, a + b, env) ==
      (if ApplyBatch(pc, a, env).1 then ApplyBatch(ApplyBatch(pc, a, env).0, b, env) else ApplyBatch(pc, a, env))
    decreases |a|
  {
    if a == [] {
      assert a + b == b;
    } else {
      assert (a + b)[0] == a[0];
      assert (a + b)[1..] == a[1..] + b;
      var (next, ok) := ApplyMessage(pc, a[0], env);
      if ok {
        ApplyBatchSplits(next, a[1..], b, env);
      }
    }
  }

  /** When no call throws, every candidate of the batch is applied at once,
      in arrival order, whether or not an answer came before it (there is no
      pending queue on this side), and each answer replaces the remote
      description (there is no guard against a second answer). */
  lemma {:induction false} BatchWithoutThrows(pc: SenderConnection, ms: seq<SignalingMessage>, env: PollEnvironment)
    requires forall i :: 0 <= i < |ms| ==> Succeeds(ms[i], env)
    ensures ApplyBatch(pc, ms, env).1
    ensures ApplyBatch(pc, ms, env).0.attempted == pc.attempted + CandidatePayloads(ms)
    ensures ApplyBatch(pc, ms, env).0.added == pc.added + CandidatePayloads(ms)
    ensures LastAnswer(ms).Some? ==> ApplyBatch(pc, ms, env).0.remoteDescription == LastAnswer(ms)
    ensures LastAnswer(ms).None? ==> ApplyBatch(pc, ms, env).0.remoteDescription == pc.remoteDescription
    decreases |ms|
  {
    if ms != [] {
      assert Succeeds(ms[0], env);
      var (next, ok) := ApplyMessage(pc, ms[0], env);
      assert ok;
      BatchWithoutThrows(next, ms[1..], env);
      var rest := CandidatePayloads(ms[1..]);
      if ms[0].IceCandidate? && ms[0].candidate.Payload? {
        assert next.attempted + rest == pc.attempted + ([ms[0].candidate] + rest);
        assert next.added + rest == pc.added + ([ms[0].candidate] + rest);
      } else {
        assert CandidatePayloads(ms) == rest;
      }
    }
  }

  // ---------------------------------------------------------------------
  // Connection-state handler

  const ConnectionFailedError: string := "WebRTC connection failed"

  /** `error` after `onconnectionstatechange` reports `state`: `failed` and
      `disconnected` both set the same message; no state clears it. */
  function SenderErrorAfter(state: ConnectionState, current: Option<string>): (r: Option<string>)
    ensures r == current || r == Some(ConnectionFailedError)
    ensures state in {Failed, Disconnected} ==> r == Some(ConnectionFailedError)
  {
    if state == Failed || state == Disconnected then Some(ConnectionFailedError) else current
  }

  lemma SenderConnectionErrorReport(state: ConnectionState, current: Option<string>)
    ensures SenderErrorAfter(state, current) != current ==> state in {Failed, Disconnected}
    ensures state in {Failed, Disconnected} ==> SenderErrorAfter(state, current) == Some(ConnectionFailedError)
    ensures state in {Failed, Disconnected} <==> SenderErrorAfter(state, None).Some?
    ensures SenderErrorAfter(Failed, current) == SenderErrorAfter(Disconnected, current)
    ensures SenderErrorAfter(state, SenderErrorAfter(state, current)) == SenderErrorAfter(state, current)
  {
  }

  // ---------------------------------------------------------------------
  // Stop and unmount, as functions of the hook's state

  /** The part of the hook's state that stop and unmount touch. */
  datatype SenderState = SenderState(
    streaming: bool,
    error: Option<string>,
    localStream: Option<MediaStream>,
    peerConnection: Option<SenderConnection>,
    pollTimer: Option<nat>,
    liveTimers: set<nat>,
    deviceLog: seq<DeviceEvent>)

  /** `stopStreaming`: streaming off, the poll timer cleared and forgotten,
      the connection closed and forgotten; the preview stream is kept. */
  function Stopped(s: SenderState): SenderState
  {
    s.(streaming := false,
       pollTimer := None,
       liveTimers := if s.pollTimer.Some? then s.liveTimers - {s.pollTimer.value} else s.liveTimers,
       peerConnection := None)
  }

  /** Stopping leaves nothing it owns running, keeps the preview and the
      error, and a second stop changes nothing further. */
  lemma StopKeepsPreview(s: SenderState)
    ensures !Stopped(s).streaming && Stopped(s).peerConnection.None? && Stopped(s).pollTimer.None?
    ensures s.pollTimer.Some? ==> s.pollTimer.value !in Stopped(s).liveTimers
    ensures Stopped(s).liveTimers <= s.liveTimers
    ensures Stopped(s).localStream == s.localStream && Stopped(s).error == s.error
    ensures Stopped(s).deviceLog == s.deviceLog
    ensures Stopped(Stopped(s)) == Stopped(s)
  {
  }

  /** `track.stop()` for each track, in order. */
  function StopEvents(tracks: seq<nat>): (r: seq<DeviceEvent>)
    ensures |r| == |tracks|
    ensures forall i :: 0 <= i < |tracks| ==> r[i] == TrackStopped(tracks[i])
  {
    if tracks == [] then [] else [TrackStopped(tracks[0])] + StopEvents(tracks[1..])
  }

  /** The unmount cleanup: stop, then stop every track of the preview
      stream and release it. */
  function Unmounted(s: SenderState): SenderState
  {
    var t := Stopped(s);
    if t.localStream.Some? then
      t.(localStream := None, deviceLog := t.deviceLog + StopEvents(t.localStream.value.tracks))
    else t
  }

  /** After unmounting the hook owns no connection, timer or stream, every
      track of the preview has been stopped, and unmounting again is harmless. */
  lemma UnmountReleasesEverything(s: SenderState)
    ensures Unmounted(s).peerConnection.None? && Unmounted(s).pollTimer.None? && Unmounted(s).localStream.None?
    ensures !Unmounted(s).streaming
    ensures s.localStream.Some? ==>
      Unmounted(s).deviceLog == s.deviceLog + StopEvents(s.localStream.value.tracks) &&
      forall i :: 0 <= i < |s.localStream.value.tracks| ==>
        TrackStopped(s.localStream.value.tracks[i]) in Unmounted(s).deviceLog
    ensures s.localStream.None? ==> Unmounted(s).deviceLog == s.deviceLog
    ensures Unmounted(Unmounted(s)) == Unmounted(s)
  {
    if s.localStream.Some? {
      var tracks := s.localStream.value.tracks;
      forall i | 0 <= i < |tracks|
        ensures TrackStopped(tracks[i]) in Unmounted(s).deviceLog
      {
        assert Unmounted(s).deviceLog[|s.deviceLog| + i] == TrackStopped(tracks[i]);
      }
    }
  }

  // ---------------------------------------------------------------------
  // Start

  /** How the awaited calls of `startStreaming` turn out. */
  datatype StartEnvironment = StartEnvironment(
    media: Result<MediaStream, Thrown>,   // getUserMedia, when no stream is held
    offer: Result<string, Thrown>,        // createOffer: the offer's sdp (`offer.sdp || ''`)
    setLocal: Option<Thrown>)             // setLocalDescription: None when it returns

  const StartFailedError: string := "Failed to start streaming"

  /** What `startStreaming` throws, if anything: the first awaited call that
      throws. The camera is asked only when no stream is held. */
  function StartFailure(env: StartEnvironment, holdsStream: bool): Option<Thrown>
  {
    if !holdsStream && env.media.Err? then Some(env.media.error)
    else if env.offer.Err? then Some(env.offer.error)
    else env.setLocal
  }

  /** The stream `startStreaming` puts on the connection, when it gets one. */
  function StartStream(media: Result<MediaStream, Thrown>, held: Option<MediaStream>): Option<MediaStream>
  {
    if held.Some? then held else if media.Ok? then Some(media.value) else None
  }

  /** A start fails exactly when one of its calls throws; a held stream
      is reused and a failed camera request leaves no stream to offer. */
  lemma StartFailsOnlyOnThrow(env: StartEnvironment, held: Option<MediaStream>)
    ensures StartFailure(env, held.Some?).None? <==>
      (held.Some? || env.media.Ok?) && env.offer.Ok? && env.setLocal.None?
    ensures StartFailure(env, held.Some?).None? ==> StartStream(env.media, held).Some?
    ensures held.Some? ==> StartStream(env.media, held) == held
    ensures held.None? && env.media.Err? ==> StartFailure(env, false) == Some(env.media.error)
  {
  }

  // ---------------------------------------------------------------------
  // The hook's state

  class Sender {
    var camera: Camera                       // the `cameraPosition` prop, and lastCameraPositionRef
    var streaming: bool
    var error: Option<string>
    var localStream: Option<MediaStream>     // localStreamRef (and the mirrored React state)
    var peerConnection: Option<SenderConnection>
    var pollTimer: Option<nat>               // pollingIntervalRef
    var liveTimers: set<nat>                 // intervals not cleared
    var deviceLog: seq<DeviceEvent>
    var outbox: seq<SignalingMessage>        // what was posted to /mobile/send, in order
    var nextConnectionId: nat
    var nextTimerId: nat
    ghost var retired: seq<SenderConnection> // connections closed and released
    ghost var dropped: seq<SenderConnection> // connections overwritten without being closed

    ghost predicate Valid()
      reads this
    {
      (forall i :: 0 <= i < |retired| ==> retired[i].closed) &&
      (peerConnection.Some? ==> !peerConnection.value.closed && peerConnection.value.id < nextConnectionId) &&
      (pollTimer.Some? ==> pollTimer.value in liveTimers) &&
      (forall t :: t in liveTimers ==> t < nextTimerId)
    }

    function Snapshot(): SenderState
      reads this
    {
      SenderState(streaming, error, localStream, peerConnection, pollTimer, liveTimers, deviceLog)
    }

    constructor (position: Camera)
      ensures Valid()
      ensures camera == position && !streaming && error == None && localStream == None
      ensures peerConnection == None && pollTimer == None && liveTimers == {}
      ensures deviceLog == [] && outbox == [] && retired == [] && dropped == []
    {
      camera, streaming, error, localStream := position, false, None, None;
      peerConnection, pollTimer, liveTimers := None, None, {};
      deviceLog, outbox, nextConnectionId, nextTimerId := [], [], 0, 0;
      retired, dropped := [], [];
    }

    /** `stopStreaming`. */
    method Stop()
      requires Valid()
      modifies this
      ensures Valid()
      ensures Snapshot() == Stopped(old(Snapshot()))
      ensures retired == old(retired) + (if old(peerConnection).Some? then [old(peerConnection).value.(closed := true)] else [])
      ensures camera == old(camera) && outbox == old(outbox) && dropped == old(dropped)
      ensures nextConnectionId == old(nextConnectionId) && nextTimerId == old(nextTimerId)
    {
      streaming := false;
      if pollTimer.Some? {
        liveTimers := liveTimers - {pollTimer.value};
        pollTimer := None;
      }
      if peerConnection.Some? {
        retired := retired + [peerConnection.value.(closed := true)];
        peerConnection := None;
      }
    }

    /** The `forEach` over the stream's tracks: each one added once, in order. */
    method AddTracks(stream: MediaStream)
      requires peerConnection.Some?
      modifies this`peerConnection
      ensures peerConnection == Some(old(peerConnection).value.(tracks := old(peerConnection).value.tracks + stream.tracks))
    {
      ghost var start := peerConnection.value;
      assert start.tracks + stream.tracks[..0] == start.tracks;
      for i := 0 to |stream.tracks|
        invariant peerConnection == Some(start.(tracks := start.tracks + stream.tracks[..i]))
      {
        var pc := peerConnection.value;
        assert stream.tracks[..i + 1] == stream.tracks[..i] + [stream.tracks[i]];
        assert start.tracks + stream.tracks[..i + 1] == pc.tracks + [stream.tracks[i]];
        peerConnection := Some(pc.(tracks := pc.tracks + [stream.tracks[i]]));
      }
      assert stream.tracks[..|stream.tracks|] == stream.tracks;
    }

    /** The `forEach` that stops each track of a stream, in order. */
    method StopTracks(stream: MediaStream)
      modifies this`deviceLog
      ensures deviceLog == old(deviceLog) + StopEvents(stream.tracks)
    {
      for i := 0 to |stream.tracks|
        invariant deviceLog == old(deviceLog) + StopEvents(stream.tracks[..i])
      {
        assert StopEvents(stream.tracks[..i + 1]) == StopEvents(stream.tracks[..i]) + [TrackStopped(stream.tracks[i])];
        deviceLog := deviceLog + [TrackStopped(stream.tracks[i])];
      }
      assert stream.tracks[..|stream.tracks|] == stream.tracks;
    }

    /** The `catch` of `startStreaming`. */
    method FailStart(t: Thrown)
      requires Valid()
      modifies this
      ensures Valid()
      ensures Snapshot() == Stopped(old(Snapshot()).(error := Some(MessageOr(t, StartFailedError))))
      ensures retired == old(retired) + (if old(peerConnection).Some? then [old(peerConnection).value.(closed := true)] else [])
      ensures camera == old(camera) && outbox == old(outbox) && dropped == old(dropped)
      ensures nextConnectionId == old(nextConnectionId) && nextTimerId == old(nextTimerId)
      ensures !streaming && error == Some(MessageOr(t, StartFailedError)) && peerConnection == None && pollTimer == None
      ensures localStream == old(localStream) && deviceLog == old(deviceLog)
    {
      error := Some(MessageOr(t, StartFailedError));
      streaming := false;
      Stop();
    }

    /** `startStreaming`: reuse or acquire the stream, create the connection,
        add every track, create the offer, set it as local description, send
        it, and only then start polling. */
    method Start(env: StartEnvironment)
      requires Valid()
      modifies this
      ensures Valid()
      ensures camera == old(camera)
      ensures old(localStream).Some? ==> localStream == old(localStream) && deviceLog == old(deviceLog)
      ensures old(localStream).None? ==>
        deviceLog == old(deviceLog) + [MediaRequested(camera)] &&
        localStream == (if env.media.Ok? then Some(env.media.value) else None)
      ensures StartFailure(env, old(localStream).Some?).None? ==>
        streaming && error == None &&
        peerConnection == Some(FreshConnection(old(nextConnectionId)).(
          tracks := StartStream(env.media, old(localStream)).value.tracks,
          localDescription := Some(env.offer.value))) &&
        outbox == old(outbox) + [Offer(env.offer.value)] &&
        pollTimer == Some(old(nextTimerId)) && liveTimers == old(liveTimers) + {old(nextTimerId)} &&
        retired == old(retired) &&
        dropped == old(dropped) + (if old(peerConnection).Some? then [old(peerConnection).value] else [])
      ensures StartFailure(env, old(localStream).Some?).Some? ==>
        !streaming && error == Some(MessageOr(StartFailure(env, old(localStream).Some?).value, StartFailedError)) &&
        peerConnection == None && pollTimer == None && outbox == old(outbox)
    {
      streaming := true;
      error := None;
      var stream := AcquireStream(env.media);
      if stream.None? {
        FailStart(env.media.error);
        return;
      }
      Negotiate(stream.value, env);
    }

    /** The part of `startStreaming` after the stream is in hand: the new
        connection, the offer, the local description, the post and the
        poll timer; a throw from the offer or the description stops. */
    method Negotiate(stream: MediaStream, env: StartEnvironment)
      requires Valid() && streaming && error == None
      modifies this
      ensures Valid()
      ensures camera == old(camera) && localStream == old(localStream) && deviceLog == old(deviceLog)
      ensures env.offer.Ok? && env.setLocal.None? ==>
        streaming && error == None &&
        peerConnection == Some(FreshConnection(old(nextConnectionId)).(
          tracks := stream.tracks, localDescription := Some(env.offer.value))) &&
        outbox == old(outbox) + [Offer(env.offer.value)] &&
        pollTimer == Some(old(nextTimerId)) && liveTimers == old(liveTimers) + {old(nextTimerId)} &&
        retired == old(retired) &&
        dropped == old(dropped) + (if old(peerConnection).Some? then [old(peerConnection).value] else [])
      ensures env.offer.Err? ==>
        !streaming && error == Some(MessageOr(env.offer.error, StartFailedError)) &&
        peerConnection == None && pollTimer == None && outbox == old(outbox)
      ensures env.offer.Ok? && env.setLocal.Some? ==>
        !streaming && error == Some(MessageOr(env.setLocal.value, StartFailedError)) &&
        peerConnection == None && pollTimer == None && outbox == old(outbox)
    {
      OpenConnection(stream);
      if env.offer.Err? {
        FailStart(env.offer.error);
        return;
      }
      if env.setLocal.Some? {
        FailStart(env.setLocal.value);
        return;
      }
      SendOffer(env.offer.value);
    }

    /** `let stream = localStreamRef.current`, and the camera request when
        it is null. */
    method AcquireStream(media: Result<MediaStream, Thrown>) returns (stream: Option<MediaStream>)
      modifies this`deviceLog, this`localStream
      ensures stream == StartStream(media, old(localStream))
      ensures stream.Some? ==> localStream == stream
      ensures old(localStream).Some? ==> localStream == old(localStream) && deviceLog == old(deviceLog)
      ensures old(localStream).None? ==>
        deviceLog == old(deviceLog) + [MediaRequested(camera)] &&
        localStream == (if media.Ok? then Some(media.value) else None)
    {
      if localStream.Some? {
        return localStream;
      }
      deviceLog := deviceLog + [MediaRequested(camera)];
      if media.Err? {
        return None;
      }
      localStream := Some(media.value);
      stream := localStream;
    }

    /** A new connection replaces the held one (which is not closed) and
        receives every track of the stream. */
    method OpenConnection(stream: MediaStream)
      requires Valid()
      modifies this`peerConnection, this`nextConnectionId, this`dropped
      ensures Valid()
      ensures peerConnection == Some(FreshConnection(old(nextConnectionId)).(tracks := stream.tracks))
      ensures nextConnectionId == old(nextConnectionId) + 1
      ensures dropped == old(dropped) + (if old(peerConnection).Some? then [old(peerConnection).value] else [])
    {
      if peerConnection.Some? {
        dropped := dropped + [peerConnection.value];
      }
      peerConnection := Some(FreshConnection(nextConnectionId));
      nextConnectionId := nextConnectionId + 1;
      AddTracks(stream);
      assert [] + stream.tracks == stream.tracks;
    }

    /** The offer is set as local description, then sent, then the poll
        timer is started. */
    method SendOffer(sdp: string)
      requires Valid() && peerConnection.Some?
      modifies this`peerConnection, this`outbox, this`pollTimer, this`liveTimers, this`nextTimerId
      ensures Valid()
      ensures peerConnection == Some(old(peerConnection).value.(localDescription := Some(sdp)))
      ensures outbox == old(outbox) + [Offer(sdp)]
      ensures pollTimer == Some(old(nextTimerId)) && liveTimers == old(liveTimers) + {old(nextTimerId)}
      ensures nextTimerId == old(nextTimerId) + 1
    {
      peerConnection := Some(peerConnection.value.(localDescription := Some(sdp)));
      outbox := outbox + [Offer(sdp)];
      pollTimer := Some(nextTimerId);
      liveTimers := liveTimers + {nextTimerId};
      nextTimerId := nextTimerId + 1;
    }

    /** `pollSignalingMessages`: nothing unless streaming with a connection;
        nothing on a failed fetch, a non-ok reply or an empty batch; else the
        batch in arrival order until a call throws. */
    method Poll(response: PollResponse, env: PollEnvironment)
      modifies this`peerConnection
      ensures streaming && old(peerConnection).Some? && response.Messages? ==>
        peerConnection == Some(ApplyBatch(old(peerConnection).value, response.batch, env).0)
      ensures !(streaming && old(peerConnection).Some? && response.Messages?) ==>
        peerConnection == old(peerConnection)
    {
      if !streaming || peerConnection.None? {
        return;
      }
      if !response.Messages? || |response.batch| == 0 {
        return;
      }
      var batch := response.batch;
      ghost var start := peerConnection.value;
      var i := 0;
      while i < |batch|
        invariant 0 <= i <= |batch|
        invariant peerConnection.Some?
        invariant ApplyBatch(start, batch, env) == ApplyBatch(peerConnection.value, batch[i..], env)
        decreases |batch| - i
      {
        assert batch[i..][0] == batch[i] && batch[i..][1..] == batch[i + 1..];
        var (next, ok) := ApplyMessage(peerConnection.value, batch[i], env);
        peerConnection := Some(next);
        if !ok {
          return;
        }
        i := i + 1;
      }
    }

    /** `onconnectionstatechange` of the connection. */
    method OnConnectionStateChange(state: ConnectionState)
      modifies this`error
      ensures error == SenderErrorAfter(state, old(error))
    {
      if state == Connected {
      } else if state == Failed || state == Disconnected {
        error := Some(ConnectionFailedError);
      }
    }

    /** `onicecandidate`: a discovered candidate is posted at once; the
        end-of-gathering event posts nothing. */
    method OnLocalCandidate(candidate: Option<CandidatePayload>)
      modifies this`outbox
      ensures outbox == old(outbox) + (if candidate.Some? then [IceCandidate(candidate.value)] else [])
    {
      if candidate.Some? {
        outbox := outbox + [IceCandidate(candidate.value)];
      }
    }

    /** The camera effect, run on mount and whenever the camera prop changes:
        a new preview stream only when none is held or the camera changed,
        the old stream's tracks stopped before the new one is asked for. */
    method OnCameraPosition(position: Camera, media: Result<MediaStream, Thrown>) returns (created: bool)
      requires Valid()
      modifies this`camera, this`localStream, this`deviceLog, this`error
      ensures Valid()
      ensures camera == position
      ensures created <==> old(localStream).None? || old(camera) != position
      ensures !created ==> localStream == old(localStream) && deviceLog == old(deviceLog) && error == old(error)
      ensures created ==>
        deviceLog == old(deviceLog) +
          (if old(localStream).Some? then StopEvents(old(localStream).value.tracks) else []) +
          [MediaRequested(position)]
      ensures created && media.Ok? ==> localStream == Some(media.value) && error == old(error)
      ensures created && media.Err? ==>
        localStream == old(localStream) && error == Some(MessageOr(media.error, "Failed to access camera"))
      ensures streaming == old(streaming) && peerConnection == old(peerConnection) && pollTimer == old(pollTimer)
      ensures liveTimers == old(liveTimers) && outbox == old(outbox)
      ensures retired == old(retired) && dropped == old(dropped)
      ensures nextConnectionId == old(nextConnectionId) && nextTimerId == old(nextTimerId)
    {
      var changed := camera != position;
      camera := position;
      created := localStream.None? || changed;
      if !created {
        return;
      }
      CreatePreviewStream(position, media);
    }

    /** `createPreviewStream`: stop the old stream's tracks, ask for the
        camera, keep the new stream or report the failure. */
    method CreatePreviewStream(position: Camera, media: Result<MediaStream, Thrown>)
      modifies this`localStream, this`deviceLog, this`error
      ensures deviceLog == old(deviceLog) +
        (if old(localStream).Some? then StopEvents(old(localStream).value.tracks) else []) +
        [MediaRequested(position)]
      ensures media.Ok? ==> localStream == Some(media.value) && error == old(error)
      ensures media.Err? ==>
        localStream == old(localStream) && error == Some(MessageOr(media.error, "Failed to access camera"))
    {
      if localStream.Some? {
        StopTracks(localStream.value);
      } else {
        assert deviceLog + [] == deviceLog;
      }
      deviceLog := deviceLog + [MediaRequested(position)];
      match media
      case Ok(s) =>
        localStream := Some(s);
      case Err(t) =>
        error := Some(MessageOr(t, "Failed to access camera"));
    }

    /** The unmount cleanup. */
    method Unmount()
      requires Valid()
      modifies this
      ensures Valid()
      ensures Snapshot() == Unmounted(old(Snapshot()))
      ensures retired == old(retired) + (if old(peerConnection).Some? then [old(peerConnection).value.(closed := true)] else [])
      ensures camera == old(camera) && outbox == old(outbox) && dropped == old(dropped)
    {
      Stop();
      if localStream.Some? {
        StopTracks(localStream.value);
        localStream := None;
      }
    }
  }

  /** A full session on a fresh hook: preview, start, an answer and a
      candidate in one batch, stop twice; the preview survives the stops. */
  method StartPollStop(stream: MediaStream, sdp: string, answer: string, c: string)
  {
    var s := new Sender(Back);
    var created := s.OnCameraPosition(Back, Ok(stream));
    assert created && s.localStream == Some(stream);
    var startEnv := StartEnvironment(Err(OtherValue), Ok(sdp), None);
    assert StartFailure(startEnv, true).None? && StartStream(startEnv.media, Some(stream)) == Some(stream);
    s.Start(startEnv);
    assert s.streaming && s.peerConnection.value.tracks == stream.tracks;
    assert s.outbox == [Offer(sdp)];
    var env := PollEnvironment(_ => true, _ => true);
    var batch := [IceCandidate(Payload(c)), Answer(answer)];
    var pc := s.peerConnection.value;
    assert pc.added == [];
    s.Poll(Messages(batch), env);
    assert Succeeds(batch[0], env) && Succeeds(batch[1], env);
    BatchWithoutThrows(pc, batch, env);
    assert CandidatePayloads(batch) == [Payload(c)] by {
      assert batch[1..] == [Answer(answer)] && batch[1..][1..] == [];
      assert CandidatePayloads(batch[1..]) == [];
    }
    assert s.peerConnection.value.added == [Payload(c)];
    s.Stop();
    s.Stop();
    assert s.localStream == Some(stream) && s.peerConnection.None?;
  }
}
