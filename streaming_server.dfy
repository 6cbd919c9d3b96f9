/** The desktop's frame relay over plain HTTP: the mobile app posts JPEG
    frames to `/frame`, viewers read them back from `/stream`, and
    `/health` reports what arrived. One `StreamingServer` object holds the
    state; the Node `http` server, the sockets and the interface table of
    the machine are inputs. */
module StreamingServer {
  import opened Wrappers
  import opened Text

  const DefaultPort: nat := 3000

  // ---------------------------------------------------------------------
  // The address the server advertises

  /** One entry of `os.networkInterfaces()`. */
  datatype Net = Net(family: string, internal: bool, address: string)

  /** A named interface; `nets` is `None` where Node reports `undefined`. */
  datatype Interface = Interface(name: string, nets: Option<seq<Net>>)

  /** An address the scan keeps: IPv4 and not internal. */
  predicate External(n: Net)
  {
    n.family == "IPv4" && !n.internal
  }

  predicate NoExternal(nets: seq<Net>)
  {
    forall j :: 0 <= j < |nets| ==> !External(nets[j])
  }

  function NetsOf(i: Interface): seq<Net>
  {
    i.nets.GetOr([])
  }

  /** The addresses the inner loop pushes for one interface. */
  function NetAddresses(nets: seq<Net>): (r: seq<string>)
    ensures |r| <= |nets|
  {
    if nets == [] then []
    else NetAddresses(nets[..|nets| - 1]) + (if External(nets[|nets| - 1]) then [nets[|nets| - 1].address] else [])
  }

  /** The `addresses` array after the scan of `ifs`. */
  function ExternalAddresses(ifs: seq<Interface>): seq<string>
  {
    if ifs == [] then [] else ExternalAddresses(ifs[..|ifs| - 1]) + NetAddresses(NetsOf(ifs[|ifs| - 1]))
  }

  /** `addresses[0] || 'localhost'`: an empty first address counts as none. */
  function ChooseIp(addresses: seq<string>): (ip: string)
    ensures ip != ""
    ensures ip != "localhost" ==> |addresses| > 0 && ip == addresses[0]
    ensures |addresses| > 0 && addresses[0] != "" ==> ip == addresses[0]
    ensures (|addresses| == 0 || addresses[0] == "") ==> ip == "localhost"
  {
    if |addresses| > 0 && addresses[0] != "" then addresses[0] else "localhost"
  }

  /** Within one interface the first address kept is that of the first
      external entry; none is kept exactly when no entry is external. */
  lemma {:induction false} FirstNetAddress(nets: seq<Net>)
    ensures NetAddresses(nets) == [] <==> NoExternal(nets)
    ensures NetAddresses(nets) != [] ==>
      exists j :: 0 <= j < |nets| && External(nets[j]) && NetAddresses(nets)[0] == nets[j].address &&
                  NoExternal(nets[..j])
  {
    if nets != [] {
      var p := nets[..|nets| - 1];
      var x := nets[|nets| - 1];
      FirstNetAddress(p);
      assert forall k :: 0 <= k < |p| ==> p[k] == nets[k];
      if NetAddresses(p) != [] {
        var j :| 0 <= j < |p| && External(p[j]) && NetAddresses(p)[0] == p[j].address && NoExternal(p[..j]);
        assert p[..j] == nets[..j];
      } else if External(x) {
        assert nets[..|p|] == p;
      }
    }
  }

  /** `getLocalIp` reports the address of the first external IPv4 entry in
      interface order, or `localhost` when there is none. */
  lemma {:induction false} FirstExternalAddress(ifs: seq<Interface>)
    ensures ExternalAddresses(ifs) == [] <==> forall i :: 0 <= i < |ifs| ==> NoExternal(NetsOf(ifs[i]))
    ensures ExternalAddresses(ifs) != [] ==>
      exists i, j :: 0 <= i < |ifs| && 0 <= j < |NetsOf(ifs[i])| &&
        External(NetsOf(ifs[i])[j]) && ExternalAddresses(ifs)[0] == NetsOf(ifs[i])[j].address &&
        (forall k :: 0 <= k < i ==> NoExternal(NetsOf(ifs[k]))) && NoExternal(NetsOf(ifs[i])[..j])
  {
    if ifs != [] {
      var p := ifs[..|ifs| - 1];
      var x := ifs[|ifs| - 1];
      FirstExternalAddress(p);
      FirstNetAddress(NetsOf(x));
      assert forall k :: 0 <= k < |p| ==> p[k] == ifs[k];
      if ExternalAddresses(p) != [] {
        var i, j :| 0 <= i < |p| && 0 <= j < |NetsOf(p[i])| &&
          External(NetsOf(p[i])[j]) && ExternalAddresses(p)[0] == NetsOf(p[i])[j].address &&
          (forall k :: 0 <= k < i ==> NoExternal(NetsOf(p[k]))) && NoExternal(NetsOf(p[i])[..j]);
        assert ExternalAddresses(ifs)[0] == NetsOf(ifs[i])[j].address;
      } else if NetAddresses(NetsOf(x)) != [] {
        var j :| 0 <= j < |NetsOf(x)| && External(NetsOf(x)[j]) && NetAddresses(NetsOf(x))[0] == NetsOf(x)[j].address &&
          NoExternal(NetsOf(x)[..j]);
        assert ExternalAddresses(ifs)[0] == NetsOf(ifs[|p|])[j].address;
      }
    }
  }

  /** `getLocalIp`: the nested loops over interfaces and their entries. */
  method GetLocalIp(interfaces: seq<Interface>) returns (ip: string)
    ensures ip == ChooseIp(ExternalAddresses(interfaces))
  {
    var addresses: seq<string> := [];
    for i := 0 to |interfaces|
      invariant addresses == ExternalAddresses(interfaces[..i])
    {
      assert interfaces[..i + 1][..i] == interfaces[..i];
      if interfaces[i].nets.None? {
        continue;
      }
      var nets := interfaces[i].nets.value;
      for j := 0 to |nets|
        invariant addresses == ExternalAddresses(interfaces[..i]) + NetAddresses(nets[..j])
      {
        assert nets[..j + 1][..j] == nets[..j];
        if External(nets[j]) {
          addresses := addresses + [nets[j].address];
        }
      }
      assert nets[..|nets|] == nets;
    }
    assert interfaces[..|interfaces|] == interfaces;
    ip := if |addresses| > 0 && addresses[0] != "" then addresses[0] else "localhost";
  }

  // ---------------------------------------------------------------------
  // Requests and replies

  /** The handler `handleRequest` dispatches to. */
  datatype Handler = Preflight | FramePost | StreamGet | HealthGet | NoRoute

  /** `handleRequest`'s dispatch on method and URL, first match wins. */
  function Dispatch(verb: string, url: string): Handler
  {
    if verb == "OPTIONS" then Preflight
    else if verb == "POST" && url == "/frame" then FramePost
    else if verb == "GET" && url == "/stream" then StreamGet
    else if verb == "GET" && url == "/health" then HealthGet
    else NoRoute
  }

  /** Every OPTIONS request is a preflight whatever its URL; the three
      routes match one method and one exact URL each; all else is 404. */
  lemma DispatchTable(verb: string, url: string)
    ensures Dispatch(verb, url) == Preflight <==> verb == "OPTIONS"
    ensures Dispatch(verb, url) == FramePost <==> verb == "POST" && url == "/frame"
    ensures Dispatch(verb, url) == StreamGet <==> verb == "GET" && url == "/stream"
    ensures Dispatch(verb, url) == HealthGet <==> verb == "GET" && url == "/health"
    ensures Dispatch(verb, url) == NoRoute <==>
      verb != "OPTIONS" && (verb, url) !in {("POST", "/frame"), ("GET", "/stream"), ("GET", "/health")}
  {
  }

  /** How the body of a frame upload arrives: its `data` chunks in order,
      then `end`; or an `error` event. */
  datatype FrameUpload = Completed(chunks: seq<seq<byte>>) | RequestError

  datatype Body =
    | NoBody
    | PlainText(text: string)
    | FrameReceipt(success: bool, frameCount: nat, frameSize: nat)
    | HealthReport(status: string, framesReceived: nat, hasFrame: bool)
    | MjpegStream

  datatype Response = Response(status: nat, body: Body)

  /** `Buffer.concat(chunks)`. */
  function Concat(chunks: seq<seq<byte>>): seq<byte>
  {
    if chunks == [] then [] else Concat(chunks[..|chunks| - 1]) + chunks[|chunks| - 1]
  }

  function TotalLength(chunks: seq<seq<byte>>): nat
  {
    if chunks == [] then 0 else TotalLength(chunks[..|chunks| - 1]) + |chunks[|chunks| - 1]|
  }

  /** The frame is the chunks back to back, in arrival order: its size is
      their total, and a body split differently into chunks gives the same
      frame. */
  lemma {:induction false} ConcatKeepsOrder(a: seq<seq<byte>>, b: seq<seq<byte>>)
    ensures Concat(a + b) == Concat(a) + Concat(b)
    ensures |Concat(a)| == TotalLength(a)
    decreases |b|
  {
    if b == [] {
      assert a + b == a;
      ConcatLength(a);
    } else {
      var b' := b[..|b| - 1];
      assert (a + b)[..|a + b| - 1] == a + b';
      assert (a + b)[|a + b| - 1] == b[|b| - 1];
      ConcatKeepsOrder(a, b');
    }
  }

  lemma {:induction false} ConcatLength(a: seq<seq<byte>>)
    ensures |Concat(a)| == TotalLength(a)
  {
    if a != [] {
      ConcatLength(a[..|a| - 1]);
    }
  }

  /** What `start` rejects with: a fresh `Error` with a message, or the
      listen error itself. */
  datatype Rejection = NewError(message: string) | SameError(code: string, message: string)

  /** How `listen` turns out. */
  datatype ListenOutcome = Listening | ListenFailed(code: string, message: string)

  /** The `error` listener: `EADDRINUSE` becomes a message naming the
      port; any other error is passed on unchanged. */
  function ListenRejection(port: nat, code: string, message: string): (r: Rejection)
    ensures code == "EADDRINUSE" <==> r.NewError?
  {
    if code == "EADDRINUSE" then NewError("Port " + NatToString(port) + " is already in use")
    else SameError(code, message)
  }

  /** A port clash names the port it clashed on, so two clashes on
      different ports are told apart; other errors reach the caller as they
      came. */
  lemma ListenRejectionNamesPort(p: nat, q: nat, code: string, message: string)
    ensures code != "EADDRINUSE" ==> ListenRejection(p, code, message) == SameError(code, message)
    ensures p != q ==> ListenRejection(p, "EADDRINUSE", message) != ListenRejection(q, "EADDRINUSE", message)
  {
    if p != q && ListenRejection(p, "EADDRINUSE", message) == ListenRejection(q, "EADDRINUSE", message) {
      var sp := NatToString(p);
      var sq := NatToString(q);
      assert "Port " + sp + " is already in use" == "Port " + sq + " is already in use";
      assert |sp| == |sq|;
      assert sp == ("Port " + sp + " is already in use")[5..5 + |sp|];
      assert sp == sq;
      NatToStringRoundTrip(p);
      NatToStringRoundTrip(q);
    }
  }

  /** `{ port, localIp, url }`. */
  datatype ServerInfo = ServerInfo(port: nat, localIp: string, url: string)

  function UrlFor(localIp: string, port: nat): string
  {
    "http://" + localIp + ":" + NatToString(port)
  }

  /** The `http.Server` object: the port it was asked to listen on and
      whether it is listening. */
  datatype HttpServer = HttpServer(port: nat, listening: bool)

  /** The fields `stop` touches. */
  datatype ServerState = ServerState(server: Option<HttpServer>, latestFrame: Option<seq<byte>>, frameCount: nat)

  /** `stop`: a running server is closed and forgotten together with the
      last frame and the count; a stopped one is left alone. */
  function Stopped(s: ServerState): ServerState
  {
    if s.server.Some? then ServerState(None, None, 0) else s
  }

  /** After a stop no server, frame or count remains, and a second stop
      changes nothing. */
  lemma StopIsIdempotent(s: ServerState)
    ensures Stopped(s).server.None?
    ensures s.server.Some? ==> Stopped(s).latestFrame.None? && Stopped(s).frameCount == 0
    ensures s.server.None? ==> Stopped(s) == s
    ensures Stopped(Stopped(s)) == Stopped(s)
  {
  }

  class Server {
    var server: Option<HttpServer>
    var latestFrame: Option<seq<byte>>
    var frameCount: nat
    var port: nat
    var localIp: string

    constructor ()
      ensures server == None && latestFrame == None && frameCount == 0
      ensures port == DefaultPort && localIp == "localhost"
    {
      server, latestFrame, frameCount := None, None, 0;
      port, localIp := DefaultPort, "localhost";
    }

    function State(): ServerState
      reads this
    {
      ServerState(server, latestFrame, frameCount)
    }

    /** `getServerInfo`: null exactly when no server object is held. */
    function Info(): (r: Option<ServerInfo>)
      reads this
      ensures r.None? <==> server.None?
      ensures r.Some? ==> r.value == ServerInfo(port, localIp, UrlFor(localIp, port))
    {
      if server.None? then None else Some(ServerInfo(port, localIp, UrlFor(localIp, port)))
    }

    /** `start(port)`: refused while a server object is held; otherwise the
        port and address are recorded and the server object is kept whether
        or not `listen` succeeds. */
    method Start(requested: Option<nat>, interfaces: seq<Interface>, listen: ListenOutcome)
      returns (r: Result<ServerInfo, Rejection>)
      modifies this
      ensures old(server).Some? ==>
        r == Err(NewError("Server already running")) &&
        server == old(server) && port == old(port) && localIp == old(localIp)
      ensures old(server).None? ==>
        port == requested.GetOr(DefaultPort) &&
        localIp == ChooseIp(ExternalAddresses(interfaces)) &&
        server == Some(HttpServer(port, listen.Listening?))
      ensures old(server).None? && listen.Listening? ==> r == Ok(Info().value)
      ensures old(server).None? && listen.ListenFailed? ==>
        r == Err(ListenRejection(requested.GetOr(DefaultPort), listen.code, listen.message))
      ensures latestFrame == old(latestFrame) && frameCount == old(frameCount)
    {
      if server.Some? {
        return Err(NewError("Server already running"));
      }
      port := requested.GetOr(DefaultPort);
      localIp := GetLocalIp(interfaces);
      server := Some(HttpServer(port, listen.Listening?));
      match listen
      case Listening =>
        r := Ok(ServerInfo(port, localIp, UrlFor(localIp, port)));
      case ListenFailed(code, message) =>
        r := Err(ListenRejection(port, code, message));
    }

    /** `stop`. */
    method Stop()
      modifies this
      ensures State() == Stopped(old(State()))
      ensures port == old(port) && localIp == old(localIp)
    {
      if server.Some? {
        server := None;
        latestFrame := None;
        frameCount := 0;
      }
    }

    /** `handleFramePost`: a completed upload becomes the latest frame and
        is counted once; a request error answers 500 and changes nothing. */
    method HandleFramePost(upload: FrameUpload) returns (response: Response)
      modifies this`latestFrame, this`frameCount
      ensures upload.Completed? ==>
        latestFrame == Some(Concat(upload.chunks)) && frameCount == old(frameCount) + 1 &&
        response == Response(200, FrameReceipt(true, frameCount, TotalLength(upload.chunks)))
      ensures upload.RequestError? ==>
        latestFrame == old(latestFrame) && frameCount == old(frameCount) &&
        response == Response(500, PlainText("Internal Server Error"))
    {
      match upload
      case Completed(chunks) =>
        var frame := Concat(chunks);
        ConcatLength(chunks);
        latestFrame := Some(frame);
        frameCount := frameCount + 1;
        response := Response(200, FrameReceipt(true, frameCount, |frame|));
      case RequestError =>
        response := Response(500, PlainText("Internal Server Error"));
    }

    /** `handleHealthGet`. */
    method HandleHealthGet() returns (response: Response)
      ensures response == Response(200, HealthReport("ok", frameCount, latestFrame.Some?))
    {
      response := Response(200, HealthReport("ok", frameCount, latestFrame != None));
    }

    /** `handleRequest`: the dispatch, then the chosen handler. The stream
        handler's timer loop is not modelled; its reply is the open MJPEG
        stream. */
    method HandleRequest(verb: string, url: string, upload: FrameUpload) returns (response: Response)
      modifies this`latestFrame, this`frameCount
      ensures Dispatch(verb, url) != FramePost ==> latestFrame == old(latestFrame) && frameCount == old(frameCount)
      ensures Dispatch(verb, url) == Preflight ==> response == Response(200, NoBody)
      ensures Dispatch(verb, url) == NoRoute ==> response == Response(404, PlainText("Not Found"))
      ensures Dispatch(verb, url) == StreamGet ==> response == Response(200, MjpegStream)
      ensures Dispatch(verb, url) == HealthGet ==>
        response == Response(200, HealthReport("ok", frameCount, latestFrame.Some?))
      ensures Dispatch(verb, url) == FramePost && upload.Completed? ==>
        frameCount == old(frameCount) + 1 && latestFrame == Some(Concat(upload.chunks)) &&
        response == Response(200, FrameReceipt(true, frameCount, TotalLength(upload.chunks)))
      ensures Dispatch(verb, url) == FramePost && upload.RequestError? ==>
        latestFrame == old(latestFrame) && frameCount == old(frameCount) &&
        response == Response(500, PlainText("Internal Server Error"))
    {
      match Dispatch(verb, url)
      case Preflight =>
        response := Response(200, NoBody);
      case FramePost =>
        response := HandleFramePost(upload);
      case StreamGet =>
        response := Response(200, MjpegStream);
      case HealthGet =>
        response := HandleHealthGet();
      case NoRoute =>
        response := Response(404, PlainText("Not Found"));
    }
  }

  /** A failed `listen` leaves the server object in place: the info is
      reported, a second `start` is refused, and only `stop` clears it. */
  method PortClashKeepsServer(interfaces: seq<Interface>)
  {
    var s := new Server();
    var first := s.Start(Some(3000), interfaces, ListenFailed("EADDRINUSE", "listen EADDRINUSE"));
    assert first.Err? && first.error.NewError?;
    assert s.Info().Some?;
    var second := s.Start(Some(3001), interfaces, Listening);
    assert second == Err(NewError("Server already running"));
    s.Stop();
    assert s.Info().None?;
    var third := s.Start(Some(3001), interfaces, Listening);
    assert third.Ok? && third.value.port == 3001;
  }
}
