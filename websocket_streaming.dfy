/** The mobile app's WebSocket frame streamer: one socket to the desktop,
    reconnected two seconds after it closes while streaming, and a frame
    gate that sends only on an open socket.

    Socket events are delivered by the environment, one at a time, each
    naming the socket it belongs to; a handler runs on the hook's current
    state. Every handler is stated as a function of the hook's state. */
module WebSocketStreaming {
  import opened Wrappers
  import opened Text
  import WebRtc

  const DefaultServerUrl: string := "ws://192.168.1.205:3000/ws"
  const ConnectionError: string := "Connection error"

  /** `WebSocket.readyState`. */
  datatype ReadyState = Connecting | Open | Closing | Closed

  datatype Socket = Socket(id: nat, url: string, readyState: ReadyState)

  /** The hook's state. `reconnectTimer` is the ref; `pendingTimers` are the
      reconnect timeouts scheduled and neither fired nor cleared. */
  datatype WsState = WsState(
    serverUrl: string,
    streaming: bool,
    connected: bool,
    error: Option<string>,
    socket: Option<Socket>,
    reconnectTimer: Option<nat>,
    pendingTimers: set<nat>)

  function InitialState(): WsState
  {
    WsState(DefaultServerUrl, false, false, None, None, None, {})
  }

  predicate IsOpen(s: WsState)
  {
    s.socket.Some? && s.socket.value.readyState == Open
  }

  /** The socket `id` moved to `state`, if it is still the held one. */
  function WithSocketState(s: WsState, id: nat, state: ReadyState): WsState
  {
    if s.socket.Some? && s.socket.value.id == id then s.(socket := Some(s.socket.value.(readyState := state))) else s
  }

  /** `connect`: nothing while the held socket is open; otherwise a new
      socket `id` (any socket held so far is dropped without being closed),
      or the constructor's error. */
  function AfterConnect(s: WsState, id: nat, thrown: Option<WebRtc.Thrown>): WsState
  {
    if IsOpen(s) then s
    else if thrown.Some? then s.(error := Some(WebRtc.MessageOr(thrown.value, "Unknown error")))
    else s.(socket := Some(Socket(id, s.serverUrl, Connecting)))
  }

  /** `onopen`: connected, error cleared, pending reconnect cancelled. */
  function AfterOpen(s: WsState, id: nat): WsState
  {
    var t := WithSocketState(s, id, Open);
    t.(connected := true, error := None, reconnectTimer := None,
       pendingTimers := if t.reconnectTimer.Some? then t.pendingTimers - {t.reconnectTimer.value} else t.pendingTimers)
  }

  /** `onerror`. */
  function AfterError(s: WsState): WsState
  {
    s.(error := Some(ConnectionError), connected := false)
  }

  /** `onclose`: disconnected, and a reconnect `timer` scheduled only while
      streaming. */
  function AfterClose(s: WsState, id: nat, timer: nat): WsState
  {
    var t := WithSocketState(s, id, Closed).(connected := false);
    if t.streaming then t.(reconnectTimer := Some(timer), pendingTimers := t.pendingTimers + {timer}) else t
  }

  /** `disconnect`: the reconnect timer cleared, the socket closed and
      forgotten, disconnected. */
  function AfterDisconnect(s: WsState): WsState
  {
    s.(reconnectTimer := None,
       pendingTimers := if s.reconnectTimer.Some? then s.pendingTimers - {s.reconnectTimer.value} else s.pendingTimers,
       socket := None,
       connected := false)
  }

  /** The gate of `sendFrame`. */
  predicate SendsFrame(s: WsState)
  {
    s.streaming && s.connected && IsOpen(s)
  }

  /** Open, error and close move the connection flag as the handlers say;
      a close schedules a reconnect exactly when streaming, after which the
      ref names the new timer; an open cancels the timer the ref names. */
  lemma EventTransitions(s: WsState, id: nat, timer: nat)
    requires timer !in s.pendingTimers
    ensures AfterOpen(s, id).connected && AfterOpen(s, id).error.None? && AfterOpen(s, id).reconnectTimer.None?
    ensures s.reconnectTimer.Some? ==> s.reconnectTimer.value !in AfterOpen(s, id).pendingTimers
    ensures AfterOpen(s, id).pendingTimers <= s.pendingTimers
    ensures !AfterError(s).connected && AfterError(s).error == Some(ConnectionError)
    ensures !AfterClose(s, id, timer).connected
    ensures AfterClose(s, id, timer).pendingTimers != s.pendingTimers <==> s.streaming
    ensures s.streaming ==> AfterClose(s, id, timer).reconnectTimer == Some(timer)
    ensures !s.streaming ==> AfterClose(s, id, timer).reconnectTimer == s.reconnectTimer
  {
    if s.streaming {
      assert timer in AfterClose(s, id, timer).pendingTimers;
    }
  }

  /** `disconnect` leaves no socket and no reconnect the ref knows of, shuts
      the frame gate, and repeating it is harmless. */
  lemma DisconnectIsIdempotent(s: WsState)
    ensures AfterDisconnect(s).socket.None? && !AfterDisconnect(s).connected
    ensures AfterDisconnect(s).reconnectTimer.None?
    ensures s.reconnectTimer.Some? ==> s.reconnectTimer.value !in AfterDisconnect(s).pendingTimers
    ensures !SendsFrame(AfterDisconnect(s))
    ensures AfterDisconnect(AfterDisconnect(s)) == AfterDisconnect(s)
  {
  }

  /** `connect` on an open socket changes nothing; otherwise it either
      holds a fresh connecting socket for the current URL or records the
      constructor's error, and never marks the hook connected. */
  lemma ConnectOpensAtMostOneSocket(s: WsState, id: nat, thrown: Option<WebRtc.Thrown>)
    ensures IsOpen(s) ==> AfterConnect(s, id, thrown) == s
    ensures !IsOpen(s) && thrown.None? ==> AfterConnect(s, id, thrown).socket == Some(Socket(id, s.serverUrl, Connecting))
    ensures !IsOpen(s) && thrown.Some? ==> AfterConnect(s, id, thrown).socket == s.socket
    ensures AfterConnect(s, id, thrown).connected == s.connected
    ensures !IsOpen(s) ==> !IsOpen(AfterConnect(s, id, thrown))
  {
  }

  /** After `stopStreaming`, the close event of the socket it closed
      schedules no reconnect. */
  lemma StopThenCloseDoesNotReconnect(s: WsState, id: nat, timer: nat)
    ensures var stopped := AfterDisconnect(s.(streaming := false));
      AfterClose(stopped, id, timer).pendingTimers == stopped.pendingTimers &&
      AfterClose(stopped, id, timer).reconnectTimer.None?
  {
  }

  class Streamer {
    var serverUrl: string
    var streaming: bool
    var connected: bool
    var error: Option<string>
    var socket: Option<Socket>          // wsRef
    var reconnectTimer: Option<nat>     // reconnectTimeoutRef
    var pendingTimers: set<nat>
    var sentFrames: seq<seq<byte>>      // frames handed to ws.send, in order
    var closeCalls: seq<nat>            // sockets ws.close() was called on, in order
    var nextSocketId: nat
    var nextTimerId: nat

    function Snapshot(): WsState
      reads this
    {
      WsState(serverUrl, streaming, connected, error, socket, reconnectTimer, pendingTimers)
    }

    ghost predicate Valid()
      reads this
    {
      (socket.Some? ==> socket.value.id < nextSocketId) && (forall t :: t in pendingTimers ==> t < nextTimerId)
    }

    constructor ()
      ensures Valid() && Snapshot() == InitialState() && sentFrames == [] && closeCalls == []
    {
      serverUrl, streaming, connected, error := DefaultServerUrl, false, false, None;
      socket, reconnectTimer, pendingTimers := None, None, {};
      sentFrames, closeCalls, nextSocketId, nextTimerId := [], [], 0, 0;
    }

    /** `setServerUrl`: used by the next `connect`. */
    method SetServerUrl(url: string)
      modifies this`serverUrl
      ensures Snapshot() == old(Snapshot()).(serverUrl := url)
    {
      serverUrl := url;
    }

    /** `connect`; `thrown` is what the `WebSocket` constructor threw, if anything. */
    method Connect(thrown: Option<WebRtc.Thrown>)
      requires Valid()
      modifies this
      ensures Valid()
      ensures Snapshot() == AfterConnect(old(Snapshot()), old(nextSocketId), thrown)
      ensures closeCalls == old(closeCalls)
      ensures sentFrames == old(sentFrames) && nextTimerId == old(nextTimerId)
    {
      if socket.Some? && socket.value.readyState == Open {
        return;
      }
      if thrown.Some? {
        error := Some(WebRtc.MessageOr(thrown.value, "Unknown error"));
        return;
      }
      socket := Some(Socket(nextSocketId, serverUrl, Connecting));
      nextSocketId := nextSocketId + 1;
    }

    /** `onopen` of socket `id`. */
    method OnOpen(id: nat)
      requires Valid()
      modifies this
      ensures Valid()
      ensures Snapshot() == AfterOpen(old(Snapshot()), id)
      ensures closeCalls == old(closeCalls)
      ensures sentFrames == old(sentFrames)
      ensures nextSocketId == old(nextSocketId) && nextTimerId == old(nextTimerId)
    {
      if socket.Some? && socket.value.id == id {
        socket := Some(socket.value.(readyState := Open));
      }
      connected := true;
      error := None;
      if reconnectTimer.Some? {
        pendingTimers := pendingTimers - {reconnectTimer.value};
        reconnectTimer := None;
      }
    }

    /** `onerror` of any socket. */
    method OnError()
      modifies this`error, this`connected
      ensures Snapshot() == AfterError(old(Snapshot()))
    {
      error := Some(ConnectionError);
      connected := false;
    }

    /** `onclose` of socket `id`. */
    method OnClose(id: nat)
      requires Valid()
      modifies this
      ensures Valid()
      ensures Snapshot() == AfterClose(old(Snapshot()), id, old(nextTimerId))
      ensures closeCalls == old(closeCalls)
      ensures sentFrames == old(sentFrames) && nextSocketId == old(nextSocketId)
    {
      if socket.Some? && socket.value.id == id {
        socket := Some(socket.value.(readyState := Closed));
      }
      connected := false;
      if streaming {
        reconnectTimer := Some(nextTimerId);
        pendingTimers := pendingTimers + {nextTimerId};
        nextTimerId := nextTimerId + 1;
      }
    }

    /** A pending reconnect timeout fires and calls `connect`. */
    method OnReconnectTimer(timer: nat, thrown: Option<WebRtc.Thrown>)
      requires Valid() && timer in pendingTimers
      modifies this
      ensures Valid()
      ensures Snapshot() ==
        AfterConnect(old(Snapshot()).(pendingTimers := old(pendingTimers) - {timer}), old(nextSocketId), thrown)
      ensures closeCalls == old(closeCalls)
      ensures sentFrames == old(sentFrames)
    {
      pendingTimers := pendingTimers - {timer};
      Connect(thrown);
    }

    /** `disconnect`. */
    method Disconnect()
      requires Valid()
      modifies this
      ensures Valid()
      ensures Snapshot() == AfterDisconnect(old(Snapshot()))
      ensures closeCalls == old(closeCalls) + (if old(socket).Some? then [old(socket).value.id] else [])
      ensures sentFrames == old(sentFrames)
      ensures nextSocketId == old(nextSocketId) && nextTimerId == old(nextTimerId)
    {
      if reconnectTimer.Some? {
        pendingTimers := pendingTimers - {reconnectTimer.value};
        reconnectTimer := None;
      }
      if socket.Some? {
        closeCalls := closeCalls + [socket.value.id];
        socket := None;
      }
      connected := false;
    }

    /** `sendFrame`: sent only when streaming, connected and the socket is
        open; `thrown` is what `send` threw, if anything. */
    method SendFrame(frame: seq<byte>, thrown: Option<WebRtc.Thrown>) returns (sent: bool)
      modifies this`sentFrames, this`error
      ensures sent <==> SendsFrame(Snapshot()) && thrown.None?
      ensures sentFrames == old(sentFrames) + (if sent then [frame] else [])
      ensures error == (if SendsFrame(Snapshot()) && thrown.Some? then Some(WebRtc.MessageOr(thrown.value, "Send error")) else old(error))
    {
      if !streaming || !connected {
        return false;
      }
      if socket.Some? && socket.value.readyState == Open {
        if thrown.Some? {
          error := Some(WebRtc.MessageOr(thrown.value, "Send error"));
          return false;
        }
        sentFrames := sentFrames + [frame];
        return true;
      }
      return false;
    }

    /** `startStreaming`: connects only when not connected. */
    method StartStreaming(thrown: Option<WebRtc.Thrown>)
      requires Valid()
      modifies this
      ensures Valid()
      ensures Snapshot() ==
        (var s := old(Snapshot()).(streaming := true);
         if old(connected) then s else AfterConnect(s, old(nextSocketId), thrown))
      ensures closeCalls == old(closeCalls)
      ensures sentFrames == old(sentFrames)
    {
      streaming := true;
      if !connected {
        Connect(thrown);
      }
    }

    /** `stopStreaming`: always disconnects. */
    method StopStreaming()
      requires Valid()
      modifies this
      ensures Valid()
      ensures Snapshot() == AfterDisconnect(old(Snapshot()).(streaming := false))
      ensures closeCalls == old(closeCalls) + (if old(socket).Some? then [old(socket).value.id] else [])
      ensures sentFrames == old(sentFrames)
    {
      streaming := false;
      Disconnect();
    }
  }
}
