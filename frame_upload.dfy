/** The mobile app's HTTP frame uploader: each captured frame is posted to
    the desktop's `/frame` endpoint, with a lock that keeps at most one
    upload in flight and drops frames that arrive meanwhile.

    `sendFrame` suspends at its `fetch`, so it is modelled in two phases:
    `BeginSend` (the guards, the lock, the request) and `FinishSend` (the
    reply, the error, the release in `finally`). */
module FrameUpload {
  import opened Wrappers
  import opened Text
  import opened WebRtc

  const DefaultServerUrl: string := "http://192.168.1.203:3000"

  /** How an upload turns out. */
  datatype UploadOutcome =
    | FetchFailed(thrown: Thrown)                 // fetch rejected
    | Replied(status: nat, json: Option<Thrown>)  // a reply; `json` is what `response.json()` threw, if anything

  /** `response.ok`. */
  predicate ResponseOk(status: nat)
  {
    200 <= status <= 299
  }

  /** `error` after an upload: cleared on success, otherwise the message
      of what was thrown (a non-ok reply throws an `Error` naming the status). */
  function UploadError(outcome: UploadOutcome): Option<string>
  {
    match outcome
    case FetchFailed(t) => Some(MessageOr(t, "Unknown error"))
    case Replied(status, json) =>
      if !ResponseOk(status) then Some("HTTP error! status: " + NatToString(status))
      else if json.Some? then Some(MessageOr(json.value, "Unknown error"))
      else None
  }

  /** The error is cleared exactly when the reply is ok and its body
      parses; a non-ok reply names its status, so two different statuses
      leave different errors. */
  lemma UploadErrorReport(outcome: UploadOutcome, other: nat)
    ensures UploadError(outcome).None? <==> outcome.Replied? && ResponseOk(outcome.status) && outcome.json.None?
    ensures outcome.Replied? && !ResponseOk(outcome.status) && !ResponseOk(other) && other != outcome.status ==>
      UploadError(outcome) != UploadError(Replied(other, None))
  {
    if outcome.Replied? && !ResponseOk(outcome.status) && !ResponseOk(other) && other != outcome.status {
      var prefix := "HTTP error! status: ";
      var a := NatToString(outcome.status);
      var b := NatToString(other);
      if prefix + a == prefix + b {
        assert a == (prefix + a)[|prefix|..];
        assert b == (prefix + b)[|prefix|..];
        NatToStringRoundTrip(outcome.status);
        NatToStringRoundTrip(other);
      }
    }
  }

  /** One POST the hook issued. */
  datatype Request = Request(endpoint: string, frame: seq<byte>)

  class Uploader {
    var serverUrl: string
    var streaming: bool
    var error: Option<string>
    var frameQueue: seq<seq<byte>>
    var sending: bool                  // isSendingRef
    var requests: seq<Request>         // every POST issued, in order
    ghost var inFlight: nat            // requests issued and not yet settled

    /** The lock is held exactly while one request is outstanding. */
    ghost predicate Valid()
      reads this
    {
      inFlight == if sending then 1 else 0
    }

    constructor ()
      ensures Valid()
      ensures serverUrl == DefaultServerUrl && !streaming && error == None
      ensures frameQueue == [] && !sending && requests == []
    {
      serverUrl, streaming, error := DefaultServerUrl, false, None;
      frameQueue, sending, requests, inFlight := [], false, [], 0;
    }

    /** `setServerUrl`. */
    method SetServerUrl(url: string)
      modifies this`serverUrl
      ensures serverUrl == url
    {
      serverUrl := url;
    }

    /** The first phase of `sendFrame`: nothing when not streaming or while
        an upload is in flight; otherwise take the lock and post the frame
        to `<serverUrl>/frame`. */
    method BeginSend(frame: seq<byte>) returns (started: bool)
      requires Valid()
      modifies this`sending, this`requests, this`inFlight
      ensures Valid()
      ensures started <==> old(streaming) && !old(sending)
      ensures started ==> sending && requests == old(requests) + [Request(serverUrl + "/frame", frame)]
      ensures !started ==> sending == old(sending) && requests == old(requests) && inFlight == old(inFlight)
      ensures inFlight <= 1
    {
      if !streaming {
        return false;
      }
      if sending {
        return false;
      }
      sending := true;
      requests := requests + [Request(serverUrl + "/frame", frame)];
      inFlight := inFlight + 1;
      started := true;
    }

    /** The second phase: the error is set from the outcome and the lock
        is released on every path. */
    method FinishSend(outcome: UploadOutcome)
      requires Valid() && sending
      modifies this`sending, this`error, this`inFlight
      ensures Valid()
      ensures !sending && inFlight == 0
      ensures error == UploadError(outcome)
    {
      if outcome.FetchFailed? {
        error := Some(MessageOr(outcome.thrown, "Unknown error"));
      } else if !ResponseOk(outcome.status) {
        error := Some("HTTP error! status: " + NatToString(outcome.status));
      } else if outcome.json.Some? {
        error := Some(MessageOr(outcome.json.value, "Unknown error"));
      } else {
        error := None;
      }
      sending := false;
      inFlight := inFlight - 1;
    }

    /** `startStreaming`. */
    method StartStreaming()
      modifies this`streaming, this`error
      ensures streaming && error == None
    {
      streaming := true;
      error := None;
    }

    /** `stopStreaming`: the lock is left to the upload in flight. */
    method StopStreaming()
      modifies this`streaming, this`frameQueue
      ensures !streaming && frameQueue == []
    {
      streaming := false;
      frameQueue := [];
    }
  }

  /** Frames offered while an upload is in flight are dropped, and the
      next frame after the reply is sent. */
  method SecondFrameIsDropped(f1: seq<byte>, f2: seq<byte>, f3: seq<byte>)
  {
    var u := new Uploader();
    var s0 := u.BeginSend(f1);
    assert !s0 && u.requests == [];
    u.StartStreaming();
    var s1 := u.BeginSend(f1);
    var s2 := u.BeginSend(f2);
    assert s1 && !s2 && u.requests == [Request(DefaultServerUrl + "/frame", f1)];
    u.FinishSend(Replied(500, None));
    assert u.error.Some? && !u.sending;
    var s3 := u.BeginSend(f3);
    assert s3 && |u.requests| == 2 && u.requests[1].frame == f3;
  }
}
