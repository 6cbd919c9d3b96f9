/** The desktop side of the session: it polls `/desktop/receive`, answers
    offers, trickles candidates in both directions, and first of all works
    out the address of its own signalling server.

    The offer handler suspends at its first `await` (setting the remote
    description), and the poller fires every 500 ms whether or not the
    previous poll has finished; so the handler is modelled in two phases,
    `BeginOffer` (everything before that first `await`) and `FinishOffer`
    (the rest), and other handlers may run in between. Every awaited call
    into the WebRTC stack is an outcome chosen by the environment. */
module ReceiverNegotiator {
  import opened Wrappers
  import opened Text
  import opened Mailbox
  import opened WebRtc

  /** What the model keeps of one `RTCPeerConnection`. */
  datatype PeerConnection = PeerConnection(
    id: nat,
    remoteDescription: Option<string>,   // the offer's sdp, once set
    localDescription: Option<string>,    // the answer's sdp, once set
    attempted: seq<CandidatePayload>,    // every addIceCandidate call, in order
    added: seq<CandidatePayload>,        // the calls that succeeded, in order
    closed: bool)

  function NewConnection(id: nat): PeerConnection
  {
    PeerConnection(id, None, None, [], [], false)
  }

  /** How the awaited calls of one offer turn out. */
  datatype OfferOutcome =
    | RemoteDescriptionFailed          // setRemoteDescription threw
    | AnswerFailed                     // createAnswer or setLocalDescription threw
    | Answered(sdp: string)            // the answer's sdp (`answer.sdp || ''`)

  /** The outcomes the WebRTC stack chooses. */
  datatype Environment = Environment(
    offerOutcome: string -> OfferOutcome,
    candidateAccepted: CandidatePayload -> bool)

  // ---------------------------------------------------------------------
  // Pure helpers: the two-pass split of a batch and queue filtering

  /** `messages.filter((m) => m.type === 'offer')`. */
  function Offers(ms: seq<SignalingMessage>): (r: seq<SignalingMessage>)
    ensures forall m :: m in r <==> m in ms && m.Offer?
    ensures |r| <= |ms|
  {
    if ms == [] then []
    else (if ms[0].Offer? then [ms[0]] else []) + Offers(ms[1..])
  }

  /** `messages.filter((m) => m.type === 'ice-candidate')`. */
  function Candidates(ms: seq<SignalingMessage>): (r: seq<SignalingMessage>)
    ensures forall m :: m in r <==> m in ms && m.IceCandidate?
    ensures |r| <= |ms|
  {
    if ms == [] then []
    else (if ms[0].IceCandidate? then [ms[0]] else []) + Candidates(ms[1..])
  }

  /** The answers of a batch, which neither pass picks up. */
  function Answers(ms: seq<SignalingMessage>): seq<SignalingMessage>
  {
    if ms == [] then [] else (if ms[0].Answer? then [ms[0]] else []) + Answers(ms[1..])
  }

  /** The two passes partition the batch: together with the dropped answers
      they hold every message of the batch exactly as often as it arrived. */
  lemma {:induction false} TwoPassPartitionsBatch(ms: seq<SignalingMessage>)
    ensures multiset(Offers(ms)) + multiset(Candidates(ms)) + multiset(Answers(ms)) == multiset(ms)
    ensures |Offers(ms)| + |Candidates(ms)| + |Answers(ms)| == |ms|
  {
    if ms != [] {
      TwoPassPartitionsBatch(ms[1..]);
      assert ms == [ms[0]] + ms[1..];
      assert multiset(ms) == multiset{ms[0]} + multiset(ms[1..]);
    }
  }

  /** Each pass keeps arrival order: splitting a batch in two and filtering
      each half is filtering the whole. */
  lemma {:induction false} PassesKeepArrivalOrder(a: seq<SignalingMessage>, b: seq<SignalingMessage>)
    ensures Offers(a + b) == Offers(a) + Offers(b)
    ensures Candidates(a + b) == Candidates(a) + Candidates(b)
  {
    if a != [] {
      assert (a + b)[1..] == a[1..] + b;
      PassesKeepArrivalOrder(a[1..], b);
    } else {
      assert a + b == b;
    }
  }

  /** The queued candidates the flush loop tries: `if (candidate)` skips a
      JSON `null`. */
  function Tried(cs: seq<CandidatePayload>): (r: seq<CandidatePayload>)
    ensures |r| <= |cs|
  {
    if cs == [] then []
    else Tried(cs[..|cs| - 1]) + (if cs[|cs| - 1].Payload? then [cs[|cs| - 1]] else [])
  }

  /** The queued candidates the connection accepts, in queue order. */
  function Added(cs: seq<CandidatePayload>, accepts: CandidatePayload -> bool): (r: seq<CandidatePayload>)
    ensures |r| <= |Tried(cs)|
  {
    if cs == [] then []
    else Added(cs[..|cs| - 1], accepts) + (if cs[|cs| - 1].Payload? && accepts(cs[|cs| - 1]) then [cs[|cs| - 1]] else [])
  }

  /** One more queued candidate adds at most itself to each list. */
  lemma TriedAddedSnoc(cs: seq<CandidatePayload>, c: CandidatePayload, accepts: CandidatePayload -> bool,
                       attempted: seq<CandidatePayload>, added: seq<CandidatePayload>)
    ensures c.Payload? ==> attempted + Tried(cs + [c]) == attempted + Tried(cs) + [c]
    ensures c.Payload? && accepts(c) ==> added + Added(cs + [c], accepts) == added + Added(cs, accepts) + [c]
    ensures !(c.Payload? && accepts(c)) ==> Added(cs + [c], accepts) == Added(cs, accepts)
    ensures !c.Payload? ==> Tried(cs + [c]) == Tried(cs)
  {
    assert (cs + [c])[..|cs|] == cs;
  }

  // ---------------------------------------------------------------------
  // Connection-state handler

  /** `error` after `onconnectionstatechange` reports `state`. */
  function ErrorAfter(state: ConnectionState, current: Option<string>): Option<string>
  {
    match state
    case Connected => None
    case Failed => Some("WebRTC connection " + StateName(state))
    case Disconnected => Some("WebRTC connection " + StateName(state))
    case _ => current
  }

  /** `connected` clears the error, `failed` and `disconnected` set it to a
      message naming the state, every other state keeps it; so reporting
      the same state twice is the same as reporting it once. */
  lemma ConnectionErrorReport(state: ConnectionState, current: Option<string>)
    ensures ErrorAfter(state, current) == None <==> state == Connected || (current == None && state !in {Failed, Disconnected})
    ensures state in {Failed, Disconnected} ==> ErrorAfter(state, current) == Some("WebRTC connection " + StateName(state))
    ensures state !in {Connected, Failed, Disconnected} ==> ErrorAfter(state, current) == current
    ensures ErrorAfter(state, ErrorAfter(state, current)) == ErrorAfter(state, current)
    ensures ErrorAfter(Failed, current) != ErrorAfter(Disconnected, current)
  {
    assert ErrorAfter(Failed, current).value[18] == 'f';
    assert ErrorAfter(Disconnected, current).value[18] == 'd';
  }

  // ---------------------------------------------------------------------
  // Discovery of the local address of the signalling server

  const TauriAttempts: nat := 10
  const CommonIps: seq<string> := ["192.168.1.203", "192.168.1.1", "192.168.0.1"]
  const DefaultIp: string := "192.168.1.203"
  const IpFallbackError: string :=
    "Não foi possível detectar o IP automaticamente. Usando 192.168.1.203. Se não funcionar, verifique o IP da máquina."

  /** A Tauri result the loop takes: a non-empty string (`if (ip)`). */
  predicate Usable(r: Option<string>)
  {
    r.Some? && r.value != ""
  }

  /** The first usable Tauri result among attempts `k` .. 9. */
  function TauriIp(tauri: nat -> Option<string>, k: nat): (r: Option<string>)
    ensures r.Some? ==> exists i :: k <= i < TauriAttempts && Usable(tauri(i)) && r == tauri(i)
    ensures r.None? <==> forall i :: k <= i < TauriAttempts ==> !Usable(tauri(i))
    decreases TauriAttempts - k
  {
    if k >= TauriAttempts then None
    else if Usable(tauri(k)) then tauri(k)
    else TauriIp(tauri, k + 1)
  }

  /** Skipping attempts that gave nothing usable does not change the first
      usable result. */
  lemma {:induction false} TauriIpSkipsUnusable(tauri: nat -> Option<string>, k: nat)
    requires k <= TauriAttempts
    requires forall i :: 0 <= i < k ==> !Usable(tauri(i))
    ensures TauriIp(tauri, 0) == TauriIp(tauri, k)
  {
    if k > 0 {
      TauriIpSkipsUnusable(tauri, k - 1);
    }
  }

  /** The retry loop over the Tauri `get_local_ip` command: at most ten
      attempts, stopping at the first usable address. `tauri(k)` is the
      result of attempt `k` (`None` for no Tauri, a thrown call or `null`). */
  method TauriLocalIp(tauri: nat -> Option<string>) returns (ip: Option<string>, calls: nat)
    ensures 1 <= calls <= TauriAttempts
    ensures ip == TauriIp(tauri, 0)
    ensures forall k :: 0 <= k < calls - 1 ==> !Usable(tauri(k))
    ensures ip.Some? ==> ip == tauri(calls - 1) && Usable(ip)
    ensures ip.None? ==> calls == TauriAttempts
  {
    var retries: nat := 0;
    while retries < TauriAttempts
      invariant retries <= TauriAttempts
      invariant forall k :: 0 <= k < retries ==> !Usable(tauri(k))
    {
      var r := tauri(retries);
      if Usable(r) {
        TauriIpSkipsUnusable(tauri, retries);
        return r, retries + 1;
      }
      retries := retries + 1;
    }
    TauriIpSkipsUnusable(tauri, retries);
    return None, retries;
  }

  /** A candidate address the WebRTC fallback accepts: present and not
      starting with `127.` or `0.`. */
  predicate Routable(found: Option<string>)
  {
    found.Some? && found.value != "" && !StartsWith(found.value, "127.") && !StartsWith(found.value, "0.")
  }

  /** The WebRTC fallback: `found` holds, per gathered candidate in arrival
      order until the 2 s timeout, the first dotted-quad address in its text
      (`None` when there is none). The first routable one wins. */
  function FirstRoutable(found: seq<Option<string>>): (r: Option<string>)
    ensures r.None? <==> forall i :: 0 <= i < |found| ==> !Routable(found[i])
    ensures r.Some? ==> exists i :: 0 <= i < |found| && found[i] == r && Routable(r) &&
                          forall j :: 0 <= j < i ==> !Routable(found[j])
  {
    if found == [] then None
    else if Routable(found[0]) then found[0]
    else
      var r := FirstRoutable(found[1..]);
      assert r.Some? ==> exists i :: 0 <= i < |found[1..]| && found[1..][i] == r && Routable(r) &&
                          forall j :: 0 <= j < i ==> !Routable(found[1..][j]);
      assert r.Some? ==> exists i :: 1 <= i < |found| && found[i] == r && Routable(r) &&
                          forall j :: 0 <= j < i ==> !Routable(found[j]) by {
        if r.Some? {
          var i :| 0 <= i < |found[1..]| && found[1..][i] == r && Routable(r) &&
                   forall j :: 0 <= j < i ==> !Routable(found[1..][j]);
          assert found[i + 1] == r;
          assert forall j :: 0 <= j < i + 1 ==> !Routable(found[j]) by {
            forall j | 0 <= j < i + 1 ensures !Routable(found[j]) {
              if j > 0 { assert found[j] == found[1..][j - 1]; }
            }
          }
        }
      }
      r
  }

  /** The first address of `ips` whose probe of `/desktop/receive` answered ok. */
  function FirstReachable(ips: seq<string>, probeOk: string -> bool): Option<string>
  {
    if ips == [] then None
    else if probeOk(ips[0]) then Some(ips[0])
    else FirstReachable(ips[1..], probeOk)
  }

  /** The probe loop over the common LAN addresses, in order, stopping at the
      first that answers. */
  method ProbeCommonIps(probeOk: string -> bool) returns (ip: Option<string>)
    ensures ip == FirstReachable(CommonIps, probeOk)
    ensures ip.None? <==> forall i :: 0 <= i < |CommonIps| ==> !probeOk(CommonIps[i])
    ensures ip.Some? ==> ip.value in CommonIps && probeOk(ip.value)
  {
    ip := None;
    for i := 0 to |CommonIps|
      invariant ip.None? ==> forall j :: 0 <= j < i ==> !probeOk(CommonIps[j])
      invariant ip.None? ==> FirstReachable(CommonIps, probeOk) == FirstReachable(CommonIps[i..], probeOk)
      invariant ip.Some? ==> ip == FirstReachable(CommonIps, probeOk) && ip.value in CommonIps && probeOk(ip.value)
    {
      if probeOk(CommonIps[i]) {
        ip := Some(CommonIps[i]);
        assert CommonIps[i..][0] == CommonIps[i];
        break;
      }
      assert CommonIps[i..][1..] == CommonIps[i + 1..];
    }
  }

  /** What the discovery of the local address depends on. */
  datatype DiscoveryEnvironment = DiscoveryEnvironment(
    tauri: nat -> Option<string>,
    webRtcAddresses: seq<Option<string>>,
    probeOk: string -> bool)

  /** The address the fallback chain settles on, and the error it reports:
      Tauri, then WebRTC, then the common addresses, then the fixed default
      together with an error. */
  function LocalIpChoice(env: DiscoveryEnvironment): (string, Option<string>)
  {
    var fromTauri := TauriIp(env.tauri, 0);
    if fromTauri.Some? then (fromTauri.value, None)
    else
      var fromWebRtc := FirstRoutable(env.webRtcAddresses);
      if fromWebRtc.Some? then (fromWebRtc.value, None)
      else
        var probed := FirstReachable(CommonIps, env.probeOk);
        if probed.Some? then (probed.value, None)
        else (DefaultIp, Some(IpFallbackError))
  }

  /** The chain always settles on some address; the error is reported
      exactly when no stage found one, and then the address is the default;
      a later stage is consulted only when every earlier one came back empty. */
  lemma LocalIpChoiceFallsBackInOrder(env: DiscoveryEnvironment)
    ensures LocalIpChoice(env).0 != ""
    ensures LocalIpChoice(env).1.Some? <==>
      (forall i :: 0 <= i < TauriAttempts ==> !Usable(env.tauri(i))) &&
      (forall i :: 0 <= i < |env.webRtcAddresses| ==> !Routable(env.webRtcAddresses[i])) &&
      (forall i :: 0 <= i < |CommonIps| ==> !env.probeOk(CommonIps[i]))
    ensures LocalIpChoice(env).1.Some? ==> LocalIpChoice(env) == (DefaultIp, Some(IpFallbackError))
    ensures (exists i :: 0 <= i < TauriAttempts && Usable(env.tauri(i))) ==>
      LocalIpChoice(env) == (TauriIp(env.tauri, 0).value, None)
  {
    var probed := FirstReachable(CommonIps, env.probeOk);
    FirstReachableFindsFirst(CommonIps, env.probeOk);
  }

  /** What `init` relies on: an address is always chosen, and an error
      comes only with the default. */
  lemma LocalIpChoiceIsAddress(env: DiscoveryEnvironment)
    ensures LocalIpChoice(env).0 != ""
    ensures LocalIpChoice(env).1.Some? ==> LocalIpChoice(env) == (DefaultIp, Some(IpFallbackError))
  {
    FirstReachableFindsFirst(CommonIps, env.probeOk);
  }

  lemma {:induction false} FirstReachableFindsFirst(ips: seq<string>, probeOk: string -> bool)
    ensures FirstReachable(ips, probeOk).None? <==> forall i :: 0 <= i < |ips| ==> !probeOk(ips[i])
    ensures FirstReachable(ips, probeOk).Some? ==>
      FirstReachable(ips, probeOk).value in ips && probeOk(FirstReachable(ips, probeOk).value)
    ensures FirstReachable(ips, probeOk).Some? ==>
      exists i :: 0 <= i < |ips| && ips[i] == FirstReachable(ips, probeOk).value &&
                  forall j :: 0 <= j < i ==> !probeOk(ips[j])
  {
    if ips != [] && !probeOk(ips[0]) {
      var rest := ips[1..];
      FirstReachableFindsFirst(rest, probeOk);
      assert forall i :: 1 <= i < |ips| ==> ips[i] == rest[i - 1];
      if FirstReachable(rest, probeOk).Some? {
        var k :| 0 <= k < |rest| && rest[k] == FirstReachable(rest, probeOk).value &&
                 forall j :: 0 <= j < k ==> !probeOk(rest[j]);
        assert ips[k + 1] == FirstReachable(ips, probeOk).value;
        assert forall j :: 0 <= j < k + 1 ==> !probeOk(ips[j]) by {
          forall j | 0 <= j < k + 1 ensures !probeOk(ips[j]) {
            if j > 0 { assert ips[j] == rest[j - 1]; }
          }
        }
      }
    } else if ips != [] {
      assert ips[0] == FirstReachable(ips, probeOk).value;
    }
  }

  /** The whole discovery, run step by step. */
  method DiscoverLocalIp(env: DiscoveryEnvironment) returns (ip: string, warning: Option<string>)
    ensures (ip, warning) == LocalIpChoice(env)
  {
    var fromTauri, _ := TauriLocalIp(env.tauri);
    if fromTauri.Some? {
      return fromTauri.value, None;
    }
    var fromWebRtc := FirstRoutable(env.webRtcAddresses);
    if fromWebRtc.Some? {
      return fromWebRtc.value, None;
    }
    var probed := ProbeCommonIps(env.probeOk);
    if probed.Some? {
      return probed.value, None;
    }
    return DefaultIp, Some(IpFallbackError);
  }

  /** The connectivity test against `/desktop/receive`. */
  datatype ServerCheck = Reachable | RespondedWithError(status: nat) | Unreachable

  datatype InitEnvironment = InitEnvironment(
    windowAvailable: bool,
    discovery: DiscoveryEnvironment,
    serverCheck: ServerCheck)

  function ServerUrlFor(ip: string): string
  {
    "http://" + ip + ":3000"
  }

  function UnreachableError(url: string): string
  {
    "Não foi possível conectar ao servidor em " + url + ". Verifique se o Tauri está rodando."
  }

  // ---------------------------------------------------------------------
  // The hook's state

  class Receiver {
    var peerConnection: Option<PeerConnection>
    var candidateQueue: seq<CandidatePayload>
    var processingOffer: bool
    var error: Option<string>
    var serverUrl: Option<string>
    var polling: bool
    var remoteStream: Option<nat>
    var outbox: seq<SignalingMessage>       // what was posted to /desktop/send, in order
    var nextConnectionId: nat
    ghost var retired: seq<PeerConnection>  // connections closed and released
    ghost var handled: seq<SignalingMessage> // what reached handleSignalingMessage, in order

    /** Every released connection was closed first; ids are handed out once. */
    ghost predicate Valid()
      reads this
    {
      (forall i :: 0 <= i < |retired| ==> retired[i].closed && retired[i].id < nextConnectionId) &&
      (peerConnection.Some? ==> !peerConnection.value.closed && peerConnection.value.id < nextConnectionId)
    }

    constructor ()
      ensures Valid()
      ensures peerConnection == None && candidateQueue == [] && !processingOffer
      ensures error == None && serverUrl == None && !polling && remoteStream == None
      ensures outbox == [] && retired == [] && handled == []
    {
      peerConnection, candidateQueue, processingOffer := None, [], false;
      error, serverUrl, polling, remoteStream := None, None, false, None;
      outbox, nextConnectionId, retired, handled := [], 0, [], [];
    }

    /** `sendSignalingMessage`: posts only once the server address is known. */
    method Send(message: SignalingMessage)
      modifies this`outbox
      ensures outbox == old(outbox) + (if serverUrl.Some? then [message] else [])
    {
      if serverUrl.Some? {
        outbox := outbox + [message];
      }
    }

    /** `init`: find the server, test it, start polling. */
    method Init(env: InitEnvironment) returns (localIp: string)
      requires Valid()
      modifies this`error, this`serverUrl, this`polling
      ensures Valid()
      ensures peerConnection == old(peerConnection) && candidateQueue == old(candidateQueue)
      ensures processingOffer == old(processingOffer) && outbox == old(outbox)
      ensures remoteStream == old(remoteStream) && retired == old(retired) && handled == old(handled)
      ensures nextConnectionId == old(nextConnectionId)
      ensures !env.windowAvailable ==>
        error == Some("Window não está disponível") && serverUrl == old(serverUrl) && polling == old(polling)
      ensures env.windowAvailable <==> localIp != ""
      ensures env.windowAvailable ==> localIp == LocalIpChoice(env.discovery).0
      ensures env.windowAvailable ==> serverUrl == Some(ServerUrlFor(localIp))
      ensures env.windowAvailable && !env.serverCheck.Unreachable? ==>
        error == (if LocalIpChoice(env.discovery).1.Some? then LocalIpChoice(env.discovery).1 else old(error))
      ensures env.windowAvailable && !env.serverCheck.Unreachable? ==>
        error == old(error) || (error == Some(IpFallbackError) && localIp == DefaultIp)
      ensures env.windowAvailable && env.serverCheck.Unreachable? ==>
        error == Some(UnreachableError(ServerUrlFor(localIp))) && polling == old(polling)
      ensures env.windowAvailable && !env.serverCheck.Unreachable? ==> polling
      ensures polling && !old(polling) ==> serverUrl.Some?
    {
      if !env.windowAvailable {
        error := Some("Window não está disponível");
        return "";
      }
      localIp := Connect(env.discovery, env.serverCheck);
    }

    /** The part of `init` after the window check: the discovered address
        becomes the server URL, its fallback warning the error; an
        unreachable server replaces the error and polling does not start. */
    method Connect(discovery: DiscoveryEnvironment, check: ServerCheck) returns (localIp: string)
      modifies this`error, this`serverUrl, this`polling
      ensures localIp == LocalIpChoice(discovery).0 && localIp != ""
      ensures serverUrl == Some(ServerUrlFor(localIp))
      ensures !check.Unreachable? ==>
        error == (if LocalIpChoice(discovery).1.Some? then LocalIpChoice(discovery).1 else old(error)) && polling
      ensures !check.Unreachable? && error != old(error) ==> error == Some(IpFallbackError) && localIp == DefaultIp
      ensures check.Unreachable? ==>
        error == Some(UnreachableError(ServerUrlFor(localIp))) && polling == old(polling)
    {
      var ip, warning := DiscoverLocalIp(discovery);
      LocalIpChoiceIsAddress(discovery);
      localIp := ip;
      if warning.Some? {
        error := warning;
      }
      serverUrl := Some(ServerUrlFor(ip));
      if check.Unreachable? {
        error := Some(UnreachableError(ServerUrlFor(ip)));
        return;
      }
      polling := true;
    }

    /** First phase of an offer, up to its first `await`: the reentrancy
        guard, the release of the previous connection, the new connection. */
    method BeginOffer() returns (accepted: bool)
      requires Valid()
      modifies this
      ensures Valid()
      ensures accepted == !old(processingOffer)
      ensures !accepted ==>
        peerConnection == old(peerConnection) && candidateQueue == old(candidateQueue) &&
        processingOffer && retired == old(retired) && nextConnectionId == old(nextConnectionId)
      ensures accepted ==>
        processingOffer &&
        peerConnection == Some(NewConnection(old(nextConnectionId))) &&
        nextConnectionId == old(nextConnectionId) + 1 &&
        retired == old(retired) + (if old(peerConnection).Some? then [old(peerConnection).value.(closed := true)] else []) &&
        candidateQueue == (if old(peerConnection).Some? then [] else old(candidateQueue))
      ensures error == old(error) && serverUrl == old(serverUrl) && polling == old(polling)
      ensures outbox == old(outbox) && remoteStream == old(remoteStream) && handled == old(handled)
    {
      if processingOffer {
        return false;
      }
      processingOffer := true;
      if peerConnection.Some? {
        retired := retired + [peerConnection.value.(closed := true)];
        peerConnection := None;
        candidateQueue := [];
      }
      peerConnection := Some(NewConnection(nextConnectionId));
      nextConnectionId := nextConnectionId + 1;
      accepted := true;
    }

    /** The `while` loop over the pending queue: every queued candidate is
        shifted off in FIFO order and tried once; a failed one is dropped. */
    method FlushQueue(accepts: CandidatePayload -> bool)
      requires peerConnection.Some?
      modifies this`peerConnection, this`candidateQueue
      ensures candidateQueue == []
      ensures peerConnection == Some(old(peerConnection).value.(
        attempted := old(peerConnection).value.attempted + Tried(old(candidateQueue)),
        added := old(peerConnection).value.added + Added(old(candidateQueue), accepts)))
    {
      ghost var pending := candidateQueue;
      ghost var start := peerConnection.value;
      ghost var done := 0;
      assert pending[..0] == [];
      assert start.attempted + [] == start.attempted && start.added + [] == start.added;
      while |candidateQueue| > 0
        invariant done <= |pending| && candidateQueue == pending[done..]
        invariant peerConnection == Some(start.(
          attempted := start.attempted + Tried(pending[..done]),
          added := start.added + Added(pending[..done], accepts)))
        decreases |candidateQueue|
      {
        var candidate := candidateQueue[0];
        candidateQueue := candidateQueue[1..];
        assert pending[..done + 1] == pending[..done] + [candidate];
        var pc := peerConnection.value;
        TriedAddedSnoc(pending[..done], candidate, accepts, start.attempted, start.added);
        if candidate.Payload? {
          if accepts(candidate) {
            peerConnection := Some(pc.(attempted := pc.attempted + [candidate], added := pc.added + [candidate]));
          } else {
            peerConnection := Some(pc.(attempted := pc.attempted + [candidate]));
          }
        }
        done := done + 1;
      }
      assert pending[..done] == pending;
    }

    /** Second phase of an offer: remote description, flush of the pending
        queue, answer, reply; the guard is released on every path. */
    method FinishOffer(sdp: string, outcome: OfferOutcome, accepts: CandidatePayload -> bool)
      requires Valid() && processingOffer
      modifies this
      ensures Valid()
      ensures !processingOffer
      ensures old(peerConnection).None? || outcome.RemoteDescriptionFailed? ==>
        peerConnection == old(peerConnection) && candidateQueue == old(candidateQueue) && outbox == old(outbox)
      ensures old(peerConnection).Some? && !outcome.RemoteDescriptionFailed? ==>
        candidateQueue == [] &&
        peerConnection == Some(old(peerConnection).value.(
          remoteDescription := Some(sdp),
          localDescription := if outcome.Answered? then Some(outcome.sdp) else old(peerConnection).value.localDescription,
          attempted := old(peerConnection).value.attempted + Tried(old(candidateQueue)),
          added := old(peerConnection).value.added + Added(old(candidateQueue), accepts))) &&
        outbox == old(outbox) + (if outcome.Answered? && serverUrl.Some? then [Answer(outcome.sdp)] else [])
      ensures error == old(error) && serverUrl == old(serverUrl) && polling == old(polling)
      ensures remoteStream == old(remoteStream) && retired == old(retired) && handled == old(handled)
      ensures nextConnectionId == old(nextConnectionId)
    {
      if peerConnection.None? || outcome.RemoteDescriptionFailed? {
        processingOffer := false;
        return;
      }
      peerConnection := Some(peerConnection.value.(remoteDescription := Some(sdp)));
      FlushQueue(accepts);
      if outcome.Answered? {
        peerConnection := Some(peerConnection.value.(localDescription := Some(outcome.sdp)));
        Send(Answer(outcome.sdp));
      }
      processingOffer := false;
    }

    /** An incoming candidate: applied at once when a connection with a
        remote description exists, queued otherwise or when applying fails. */
    method HandleCandidate(candidate: CandidatePayload, accepted: bool)
      requires Valid()
      modifies this
      ensures Valid()
      ensures old(peerConnection).Some? && old(peerConnection).value.remoteDescription.Some? ==>
        peerConnection == Some(old(peerConnection).value.(
          attempted := old(peerConnection).value.attempted + [candidate],
          added := old(peerConnection).value.added + (if accepted then [candidate] else []))) &&
        candidateQueue == old(candidateQueue) + (if accepted then [] else [candidate])
      ensures !(old(peerConnection).Some? && old(peerConnection).value.remoteDescription.Some?) ==>
        peerConnection == old(peerConnection) && candidateQueue == old(candidateQueue) + [candidate]
      ensures processingOffer == old(processingOffer) && error == old(error) && serverUrl == old(serverUrl)
      ensures polling == old(polling) && outbox == old(outbox) && remoteStream == old(remoteStream)
      ensures retired == old(retired) && handled == old(handled) && nextConnectionId == old(nextConnectionId)
    {
      if peerConnection.Some? && peerConnection.value.remoteDescription.Some? {
        var pc := peerConnection.value;
        if accepted {
          peerConnection := Some(pc.(attempted := pc.attempted + [candidate], added := pc.added + [candidate]));
        } else {
          assert pc.added + [] == pc.added;
          peerConnection := Some(pc.(attempted := pc.attempted + [candidate]));
          candidateQueue := candidateQueue + [candidate];
        }
      } else {
        candidateQueue := candidateQueue + [candidate];
      }
    }

    /** `handleSignalingMessage`, run to completion. An answer has no case. */
    method HandleMessage(message: SignalingMessage, env: Environment)
      requires Valid()
      modifies this
      ensures Valid()
      ensures handled == old(handled) + [message]
      ensures serverUrl == old(serverUrl) && polling == old(polling)
      ensures message.Answer? ==> peerConnection == old(peerConnection) && candidateQueue == old(candidateQueue) && outbox == old(outbox)
      ensures message.Offer? && old(processingOffer) ==>
        peerConnection == old(peerConnection) && candidateQueue == old(candidateQueue) &&
        retired == old(retired) && outbox == old(outbox)
      ensures error == old(error)
      ensures !message.Offer? ==>
        processingOffer == old(processingOffer) && retired == old(retired) && nextConnectionId == old(nextConnectionId)
      ensures message.IceCandidate? ==>
        var c := message.candidate;
        var accepted := env.candidateAccepted(c);
        outbox == old(outbox) &&
        (old(peerConnection).Some? && old(peerConnection).value.remoteDescription.Some? ==>
          peerConnection == Some(old(peerConnection).value.(
            attempted := old(peerConnection).value.attempted + [c],
            added := old(peerConnection).value.added + (if accepted then [c] else []))) &&
          candidateQueue == old(candidateQueue) + (if accepted then [] else [c])) &&
        (!(old(peerConnection).Some? && old(peerConnection).value.remoteDescription.Some?) ==>
          peerConnection == old(peerConnection) && candidateQueue == old(candidateQueue) + [c])
      ensures message.Offer? && old(processingOffer) ==> processingOffer && nextConnectionId == old(nextConnectionId)
      ensures message.Offer? && !old(processingOffer) ==>
        var outcome := env.offerOutcome(message.sdp);
        var pending := if old(peerConnection).Some? then [] else old(candidateQueue);
        var created := NewConnection(old(nextConnectionId));
        !processingOffer && nextConnectionId == old(nextConnectionId) + 1 &&
        retired == old(retired) + (if old(peerConnection).Some? then [old(peerConnection).value.(closed := true)] else []) &&
        (outcome.RemoteDescriptionFailed? ==>
          peerConnection == Some(created) && candidateQueue == pending && outbox == old(outbox)) &&
        (!outcome.RemoteDescriptionFailed? ==>
          candidateQueue == [] &&
          peerConnection == Some(created.(
            remoteDescription := Some(message.sdp),
            localDescription := if outcome.Answered? then Some(outcome.sdp) else None,
            attempted := Tried(pending),
            added := Added(pending, env.candidateAccepted))) &&
          outbox == old(outbox) + (if outcome.Answered? && serverUrl.Some? then [Answer(outcome.sdp)] else []))
    {
      handled := handled + [message];
      match message
      case Offer(sdp) =>
        var accepted := BeginOffer();
        if accepted {
          ghost var pending := candidateQueue;
          FinishOffer(sdp, env.offerOutcome(sdp), env.candidateAccepted);
          assert [] + Tried(pending) == Tried(pending) && [] + Added(pending, env.candidateAccepted) == Added(pending, env.candidateAccepted);
        }
      case IceCandidate(c) =>
        HandleCandidate(c, env.candidateAccepted(c));
      case Answer(_) =>
    }

    /** `poll`: one drain of `/desktop/receive`; all offers first, then all
        candidates, each group in arrival order; answers are dropped. */
    method Poll(response: PollResponse, env: Environment)
      requires Valid()
      modifies this
      ensures Valid()
      ensures serverUrl == old(serverUrl) && polling == old(polling)
      ensures handled == old(handled) +
        (if old(serverUrl).Some? && response.Messages? then Offers(response.batch) + Candidates(response.batch) else [])
      ensures old(serverUrl).None? || !response.Messages? || response.batch == [] ==>
        peerConnection == old(peerConnection) && candidateQueue == old(candidateQueue) && outbox == old(outbox) &&
        processingOffer == old(processingOffer) && error == old(error)
    {
      if serverUrl.None? {
        return;
      }
      match response
      case FetchFailed =>
      case NotOk(_) =>
      case Messages(batch) =>
        if |batch| == 0 {
          return;
        }
        HandleInOrder(Offers(batch), env);
        HandleInOrder(Candidates(batch), env);
    }

    /** One pass of `poll`: each message handled to completion, in order. */
    method HandleInOrder(messages: seq<SignalingMessage>, env: Environment)
      requires Valid()
      modifies this
      ensures Valid()
      ensures serverUrl == old(serverUrl) && polling == old(polling)
      ensures handled == old(handled) + messages
    {
      for i := 0 to |messages|
        invariant Valid()
        invariant serverUrl == old(serverUrl) && polling == old(polling)
        invariant handled == old(handled) + messages[..i]
      {
        HandleMessage(messages[i], env);
        assert messages[..i + 1] == messages[..i] + [messages[i]];
      }
      assert messages[..|messages|] == messages;
    }

    /** `onconnectionstatechange` of the current connection. */
    method OnConnectionStateChange(state: ConnectionState)
      modifies this`error
      ensures error == ErrorAfter(state, old(error))
    {
      if state == Connected {
        error := None;
      } else if state == Connecting {
      } else if state == Failed || state == Disconnected {
        error := Some("WebRTC connection " + StateName(state));
      }
    }

    /** `onicecandidate`: a discovered candidate is relayed at once; the
        end-of-gathering event (no candidate) sends nothing. */
    method OnLocalCandidate(candidate: Option<CandidatePayload>)
      modifies this`outbox
      ensures outbox == old(outbox) + (if candidate.Some? && serverUrl.Some? then [IceCandidate(candidate.value)] else [])
    {
      if candidate.Some? {
        Send(IceCandidate(candidate.value));
      }
    }

    /** `ontrack`: the first stream of the event becomes the remote stream. */
    method OnTrack(streams: seq<nat>)
      modifies this`remoteStream
      ensures remoteStream == if |streams| > 0 then Some(streams[0]) else old(remoteStream)
    {
      if |streams| > 0 {
        remoteStream := Some(streams[0]);
      }
    }

    /** The effect's cleanup: stop polling, close and release the connection. */
    method Unmount()
      requires Valid()
      modifies this
      ensures Valid()
      ensures !polling && peerConnection == None
      ensures retired == old(retired) + (if old(peerConnection).Some? then [old(peerConnection).value.(closed := true)] else [])
      ensures candidateQueue == old(candidateQueue) && processingOffer == old(processingOffer)
      ensures error == old(error) && serverUrl == old(serverUrl) && outbox == old(outbox)
      ensures remoteStream == old(remoteStream) && handled == old(handled)
      ensures nextConnectionId == old(nextConnectionId)
    {
      polling := false;
      if peerConnection.Some? {
        retired := retired + [peerConnection.value.(closed := true)];
        peerConnection := None;
      }
    }
  }

  /** Candidates that arrive before the first offer survive it and are
      applied, in order, as soon as the offer's remote description is set. */
  method CandidatesBeforeFirstOfferAreFlushed(c1: string, c2: string, sdp: string, answer: string)
  {
    var r := new Receiver();
    r.HandleCandidate(Payload(c1), true);
    r.HandleCandidate(Payload(c2), true);
    assert r.candidateQueue == [Payload(c1), Payload(c2)];
    var accepted := r.BeginOffer();
    assert accepted && r.candidateQueue == [Payload(c1), Payload(c2)];
    var again := r.BeginOffer();
    assert !again;
    r.FinishOffer(sdp, Answered(answer), _ => true);
    assert Tried([Payload(c1), Payload(c2)]) == [Payload(c1), Payload(c2)] by {
      assert [Payload(c1), Payload(c2)][..1] == [Payload(c1)];
      assert [Payload(c1)][..0] == [];
    }
    assert r.peerConnection.value.attempted == [Payload(c1), Payload(c2)];
    assert r.candidateQueue == [] && !r.processingOffer;
  }
}
