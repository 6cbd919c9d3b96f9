/** The signalling mailbox of the desktop application: two in-memory FIFO
    queues of signalling messages, one per direction, reached over four HTTP
    routes. The mobile sender posts into `mobile_messages`, which the desktop
    drains; the desktop posts into `desktop_messages`, which the mobile drains.
    The relay never looks inside a message. */
module Mailbox {
  import opened Wrappers

  /** The `candidate` field of an ice-candidate message: an arbitrary JSON
      value. JSON `null` is told apart because the mobile side tests the
      field for truthiness before using it. */
  datatype CandidatePayload = NullPayload | Payload(json: string)

  /** `SignalingMessage`, tagged by `type` on the wire. */
  datatype SignalingMessage =
    | Offer(sdp: string)
    | Answer(sdp: string)
    | IceCandidate(candidate: CandidatePayload)

  /** The two queues as one value. */
  datatype Queues = Queues(mobile: seq<SignalingMessage>, desktop: seq<SignalingMessage>)

  /** One request to one of the four handlers. */
  datatype Call =
    | MobileSend(message: SignalingMessage)
    | MobileReceive
    | DesktopSend(message: SignalingMessage)
    | DesktopReceive

  /** The endpoints of the router. */
  datatype Endpoint = MobileSendRoute | MobileReceiveRoute | DesktopSendRoute | DesktopReceiveRoute

  /** What the service does with a method and a path: the CORS layer, which
      wraps the router, answers every OPTIONS request itself; otherwise a
      handler, or a refusal (a known path with another method is 405, an
      unknown path 404). */
  datatype Routing = Preflight | Handler(endpoint: Endpoint) | MethodNotAllowed | NotFound

  /** Replies of the relay. `Rejected` is a body the JSON extractor could not
      decode into a `SignalingMessage`: nothing is queued. `HeadersOnly` is a
      200 without a body: the CORS preflight answer, and a HEAD request, which
      runs the GET handler and drops its body. */
  datatype Reply = Acknowledged | Batch(messages: seq<SignalingMessage>) | HeadersOnly | Rejected | Refused(status: nat)

  /** A poll of a receive route as a client sees it: the fetch threw, the
      reply was not ok, or the batch decoded from the body. */
  datatype PollResponse = FetchFailed | NotOk(status: nat) | Messages(batch: seq<SignalingMessage>)

  function PathOf(e: Endpoint): string
  {
    match e
    case MobileSendRoute => "/mobile/send"
    case MobileReceiveRoute => "/mobile/receive"
    case DesktopSendRoute => "/desktop/send"
    case DesktopReceiveRoute => "/desktop/receive"
  }

  /** A `get` route: axum serves HEAD with the GET handler. */
  predicate GetOrHead(verb: string)
  {
    verb == "GET" || verb == "HEAD"
  }

  /** The CORS layer in front of the route table; in the table the two send
      routes take POST and the two receive routes GET (and so HEAD). */
  function Route(verb: string, path: string): (r: Routing)
    ensures r.Preflight? <==> verb == "OPTIONS"
    ensures r.Handler? <==>
      (verb == "POST" && path in {"/mobile/send", "/desktop/send"}) ||
      ((verb == "GET" || verb == "HEAD") && path in {"/mobile/receive", "/desktop/receive"})
    ensures r.Handler? ==> PathOf(r.endpoint) == path
    ensures r.NotFound? <==>
      verb != "OPTIONS" && path !in {"/mobile/send", "/mobile/receive", "/desktop/send", "/desktop/receive"}
  {
    if verb == "OPTIONS" then Preflight
    else if path == "/mobile/send" then (if verb == "POST" then Handler(MobileSendRoute) else MethodNotAllowed)
    else if path == "/mobile/receive" then (if GetOrHead(verb) then Handler(MobileReceiveRoute) else MethodNotAllowed)
    else if path == "/desktop/send" then (if verb == "POST" then Handler(DesktopSendRoute) else MethodNotAllowed)
    else if path == "/desktop/receive" then (if GetOrHead(verb) then Handler(DesktopReceiveRoute) else MethodNotAllowed)
    else NotFound
  }

  /** The effect of one handler on the queues, and the batch it returns. */
  function Step(q: Queues, c: Call): (Queues, seq<SignalingMessage>)
  {
    match c
    case MobileSend(m) => (q.(mobile := q.mobile + [m]), [])
    case MobileReceive => (q.(desktop := []), q.desktop)
    case DesktopSend(m) => (q.(desktop := q.desktop + [m]), [])
    case DesktopReceive => (q.(mobile := []), q.mobile)
  }

  /** The messages a run of calls posts from the mobile, in order. */
  function SentByMobile(calls: seq<Call>): seq<SignalingMessage>
  {
    if calls == [] then []
    else (if calls[0].MobileSend? then [calls[0].message] else []) + SentByMobile(calls[1..])
  }

  /** The messages a run of calls posts from the desktop, in order. */
  function SentByDesktop(calls: seq<Call>): seq<SignalingMessage>
  {
    if calls == [] then []
    else (if calls[0].DesktopSend? then [calls[0].message] else []) + SentByDesktop(calls[1..])
  }

  /** What a run of calls leaves behind: the final queues, everything the
      desktop's receives returned (concatenated), and everything the mobile's
      receives returned. */
  datatype Trace = Trace(final: Queues, toDesktop: seq<SignalingMessage>, toMobile: seq<SignalingMessage>)

  function Run(q: Queues, calls: seq<Call>): Trace
    decreases |calls|
  {
    if calls == [] then Trace(q, [], [])
    else
      var (q', batch) := Step(q, calls[0]);
      var rest := Run(q', calls[1..]);
      Trace(rest.final,
            (if calls[0].DesktopReceive? then batch else []) + rest.toDesktop,
            (if calls[0].MobileReceive? then batch else []) + rest.toMobile)
  }

  /** Exactly-once FIFO relay from the mobile to the desktop: over any run,
      what the desktop has received followed by what is still queued for it
      is what was queued at the start followed by everything the mobile
      sent, in send order. */
  lemma {:induction false} MobileToDesktopFifo(q: Queues, calls: seq<Call>)
    ensures Run(q, calls).toDesktop + Run(q, calls).final.mobile == q.mobile + SentByMobile(calls)
    decreases |calls|
  {
    if calls != [] {
      var (q', batch) := Step(q, calls[0]);
      MobileToDesktopFifo(q', calls[1..]);
      var rest := Run(q', calls[1..]);
      assert Run(q, calls).final == rest.final;
      match calls[0]
      case MobileSend(m) =>
        assert SentByMobile(calls) == [m] + SentByMobile(calls[1..]);
        assert Run(q, calls).toDesktop == rest.toDesktop;
        assert (q.mobile + [m]) + SentByMobile(calls[1..]) == q.mobile + ([m] + SentByMobile(calls[1..]));
      case MobileReceive =>
        assert SentByMobile(calls) == SentByMobile(calls[1..]);
        assert Run(q, calls).toDesktop == rest.toDesktop;
      case DesktopSend(m) =>
        assert SentByMobile(calls) == SentByMobile(calls[1..]);
        assert Run(q, calls).toDesktop == rest.toDesktop;
      case DesktopReceive =>
        assert SentByMobile(calls) == SentByMobile(calls[1..]);
        assert Run(q, calls).toDesktop == q.mobile + rest.toDesktop;
    }
  }

  /** Exactly-once FIFO relay from the desktop to the mobile, the mirror of
      `MobileToDesktopFifo`. */
  lemma {:induction false} DesktopToMobileFifo(q: Queues, calls: seq<Call>)
    ensures Run(q, calls).toMobile + Run(q, calls).final.desktop == q.desktop + SentByDesktop(calls)
    decreases |calls|
  {
    if calls != [] {
      var (q', batch) := Step(q, calls[0]);
      DesktopToMobileFifo(q', calls[1..]);
      var rest := Run(q', calls[1..]);
      assert Run(q, calls).final == rest.final;
      match calls[0]
      case DesktopSend(m) =>
        assert SentByDesktop(calls) == [m] + SentByDesktop(calls[1..]);
        assert Run(q, calls).toMobile == rest.toMobile;
        assert (q.desktop + [m]) + SentByDesktop(calls[1..]) == q.desktop + ([m] + SentByDesktop(calls[1..]));
      case DesktopReceive =>
        assert SentByDesktop(calls) == SentByDesktop(calls[1..]);
        assert Run(q, calls).toMobile == rest.toMobile;
      case MobileSend(m) =>
        assert SentByDesktop(calls) == SentByDesktop(calls[1..]);
        assert Run(q, calls).toMobile == rest.toMobile;
      case MobileReceive =>
        assert SentByDesktop(calls) == SentByDesktop(calls[1..]);
        assert Run(q, calls).toMobile == q.desktop + rest.toMobile;
    }
  }

  /** Exactly-once FIFO relay in both crossed directions. No message is
      lost, duplicated, reordered or delivered to the side that sent it. */
  lemma RelayIsExactlyOnceFifo(q: Queues, calls: seq<Call>)
    ensures Run(q, calls).toDesktop + Run(q, calls).final.mobile == q.mobile + SentByMobile(calls)
    ensures Run(q, calls).toMobile + Run(q, calls).final.desktop == q.desktop + SentByDesktop(calls)
  {
    MobileToDesktopFifo(q, calls);
    DesktopToMobileFifo(q, calls);
  }

  /** Two receives in a row on one direction: the whole batch, then nothing. */
  lemma ReceiveTwiceDrains(q: Queues)
    ensures Run(q, [DesktopReceive, DesktopReceive]).toDesktop == q.mobile
    ensures Run(q, [DesktopReceive, DesktopReceive]).final == q.(mobile := [])
    ensures Run(q, [MobileReceive, MobileReceive]).toMobile == q.desktop
    ensures Run(q, [MobileReceive, MobileReceive]).final == q.(desktop := [])
  {
    var d: seq<Call> := [DesktopReceive, DesktopReceive];
    var m: seq<Call> := [MobileReceive, MobileReceive];
    assert d[1..] == [DesktopReceive] && d[1..][1..] == [];
    assert m[1..] == [MobileReceive] && m[1..][1..] == [];
    assert Run(q.(mobile := []), [DesktopReceive]) == Trace(q.(mobile := []), [], []);
    assert Run(q.(desktop := []), [MobileReceive]) == Trace(q.(desktop := []), [], []);
  }

  /** `SignalingState`: the two shared queues. The ghost logs record every
      message ever posted and every message ever handed out, per direction;
      `Valid` ties them to the queues. */
  class SignalingState {
    var mobileMessages: seq<SignalingMessage>
    var desktopMessages: seq<SignalingMessage>
    ghost var sentByMobile: seq<SignalingMessage>
    ghost var deliveredToDesktop: seq<SignalingMessage>
    ghost var sentByDesktop: seq<SignalingMessage>
    ghost var deliveredToMobile: seq<SignalingMessage>

    /** What was delivered, followed by what is queued, is what was sent. */
    ghost predicate Valid()
      reads this
    {
      deliveredToDesktop + mobileMessages == sentByMobile &&
      deliveredToMobile + desktopMessages == sentByDesktop
    }

    function Snapshot(): Queues
      reads this
    {
      Queues(mobileMessages, desktopMessages)
    }

    /** Both queues start empty. */
    constructor ()
      ensures Valid()
      ensures mobileMessages == [] && desktopMessages == []
      ensures sentByMobile == [] && sentByDesktop == []
    {
      mobileMessages, desktopMessages := [], [];
      sentByMobile, deliveredToDesktop, sentByDesktop, deliveredToMobile := [], [], [], [];
    }

    /** `mobile_send`: append to `mobile_messages`. */
    method MobileSend(message: SignalingMessage) returns (reply: Reply)
      requires Valid()
      modifies this
      ensures Valid()
      ensures reply == Acknowledged
      ensures mobileMessages == old(mobileMessages) + [message]
      ensures desktopMessages == old(desktopMessages)
      ensures sentByMobile == old(sentByMobile) + [message]
      ensures deliveredToDesktop == old(deliveredToDesktop)
      ensures sentByDesktop == old(sentByDesktop) && deliveredToMobile == old(deliveredToMobile)
      ensures Snapshot() == Step(old(Snapshot()), Call.MobileSend(message)).0
    {
      mobileMessages := mobileMessages + [message];
      sentByMobile := sentByMobile + [message];
      reply := Acknowledged;
    }

    /** `mobile_receive`: hand out and clear `desktop_messages`. */
    method MobileReceive() returns (reply: Reply)
      requires Valid()
      modifies this
      ensures Valid()
      ensures reply == Batch(old(desktopMessages))
      ensures desktopMessages == []
      ensures mobileMessages == old(mobileMessages)
      ensures deliveredToMobile == old(deliveredToMobile) + old(desktopMessages)
      ensures sentByDesktop == old(sentByDesktop)
      ensures sentByMobile == old(sentByMobile) && deliveredToDesktop == old(deliveredToDesktop)
      ensures old(desktopMessages) == [] ==> Snapshot() == old(Snapshot())
      ensures Snapshot() == Step(old(Snapshot()), Call.MobileReceive).0
    {
      if |desktopMessages| == 0 {
        return Batch([]);
      }
      var response := desktopMessages;
      desktopMessages := [];
      deliveredToMobile := deliveredToMobile + response;
      reply := Batch(response);
    }

    /** `desktop_send`: append to `desktop_messages`. */
    method DesktopSend(message: SignalingMessage) returns (reply: Reply)
      requires Valid()
      modifies this
      ensures Valid()
      ensures reply == Acknowledged
      ensures desktopMessages == old(desktopMessages) + [message]
      ensures mobileMessages == old(mobileMessages)
      ensures sentByDesktop == old(sentByDesktop) + [message]
      ensures deliveredToMobile == old(deliveredToMobile)
      ensures sentByMobile == old(sentByMobile) && deliveredToDesktop == old(deliveredToDesktop)
      ensures Snapshot() == Step(old(Snapshot()), Call.DesktopSend(message)).0
    {
      desktopMessages := desktopMessages + [message];
      sentByDesktop := sentByDesktop + [message];
      reply := Acknowledged;
    }

    /** `desktop_receive`: hand out and clear `mobile_messages`. */
    method DesktopReceive() returns (reply: Reply)
      requires Valid()
      modifies this
      ensures Valid()
      ensures reply == Batch(old(mobileMessages))
      ensures mobileMessages == []
      ensures desktopMessages == old(desktopMessages)
      ensures deliveredToDesktop == old(deliveredToDesktop) + old(mobileMessages)
      ensures sentByMobile == old(sentByMobile)
      ensures sentByDesktop == old(sentByDesktop) && deliveredToMobile == old(deliveredToMobile)
      ensures old(mobileMessages) == [] ==> Snapshot() == old(Snapshot())
      ensures Snapshot() == Step(old(Snapshot()), Call.DesktopReceive).0
    {
      if |mobileMessages| == 0 {
        return Batch([]);
      }
      var response := mobileMessages;
      mobileMessages := [];
      deliveredToDesktop := deliveredToDesktop + response;
      reply := Batch(response);
    }

    /** One HTTP request to the relay: the router picks the handler; a send
        whose body did not decode is rejected before its handler runs. */
    method Serve(verb: string, path: string, body: Option<SignalingMessage>) returns (reply: Reply)
      requires Valid()
      modifies this
      ensures Valid()
      ensures Route(verb, path).Preflight? ==> reply == HeadersOnly && Snapshot() == old(Snapshot())
      ensures Route(verb, path).NotFound? ==> reply == Refused(404) && Snapshot() == old(Snapshot())
      ensures Route(verb, path).MethodNotAllowed? ==> reply == Refused(405) && Snapshot() == old(Snapshot())
      ensures Route(verb, path) == Handler(MobileSendRoute) ==>
        if body.Some? then reply == Acknowledged && Snapshot() == Step(old(Snapshot()), Call.MobileSend(body.value)).0
        else reply == Rejected && Snapshot() == old(Snapshot())
      ensures Route(verb, path) == Handler(DesktopSendRoute) ==>
        if body.Some? then reply == Acknowledged && Snapshot() == Step(old(Snapshot()), Call.DesktopSend(body.value)).0
        else reply == Rejected && Snapshot() == old(Snapshot())
      ensures Route(verb, path) == Handler(MobileReceiveRoute) ==>
        reply == (if verb == "HEAD" then HeadersOnly else Batch(old(desktopMessages))) &&
        Snapshot() == Step(old(Snapshot()), Call.MobileReceive).0
      ensures Route(verb, path) == Handler(DesktopReceiveRoute) ==>
        reply == (if verb == "HEAD" then HeadersOnly else Batch(old(mobileMessages))) &&
        Snapshot() == Step(old(Snapshot()), Call.DesktopReceive).0
    {
      match Route(verb, path)
      case Preflight => reply := HeadersOnly;
      case NotFound => reply := Refused(404);
      case MethodNotAllowed => reply := Refused(405);
      case Handler(e) =>
        match e
        case MobileSendRoute =>
          if body.Some? { reply := MobileSend(body.value); } else { reply := Rejected; }
        case DesktopSendRoute =>
          if body.Some? { reply := DesktopSend(body.value); } else { reply := Rejected; }
        case MobileReceiveRoute =>
          reply := MobileReceive();
          if verb == "HEAD" { reply := HeadersOnly; }
        case DesktopReceiveRoute =>
          reply := DesktopReceive();
          if verb == "HEAD" { reply := HeadersOnly; }
    }
  }

  /** The scenario of one offer/answer round trip through a fresh relay:
      the offer reaches the desktop, the answer reaches the mobile, and both
      queues end empty. */
  method OfferAnswerRoundTrip(offerSdp: string, answerSdp: string)
  {
    var relay := new SignalingState();
    var r := relay.MobileSend(Offer(offerSdp));
    assert relay.mobileMessages == [Offer(offerSdp)];
    r := relay.DesktopReceive();
    assert r == Batch([Offer(offerSdp)]);
    r := relay.DesktopSend(Answer(answerSdp));
    r := relay.MobileReceive();
    assert r == Batch([Answer(answerSdp)]);
    assert relay.mobileMessages == [] && relay.desktopMessages == [];
    r := relay.DesktopReceive();
    assert r == Batch([]);
  }
}
