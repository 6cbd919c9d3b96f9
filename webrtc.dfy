/** What both ends of the session share about the browser and React Native
    runtimes: the connection states an `RTCPeerConnection` reports, and the
    values a `catch` clause can receive. */
module WebRtc {

  /** `RTCPeerConnection.connectionState`. */
  datatype ConnectionState = New | Connecting | Connected | Disconnected | Failed | Closed

  function StateName(s: ConnectionState): string
  {
    match s
    case New => "new"
    case Connecting => "connecting"
    case Connected => "connected"
    case Disconnected => "disconnected"
    case Failed => "failed"
    case Closed => "closed"
  }

  /** What a rejected call throws: an `Error` with its message, or any other value. */
  datatype Thrown = ErrorObject(message: string) | OtherValue

  /** `err instanceof Error ? err.message : fallback`. */
  function MessageOr(t: Thrown, fallback: string): string
  {
    match t
    case ErrorObject(m) => m
    case OtherValue => fallback
  }
}
