/** The client side of the daemon's control channel
    (`DaemonConnectionManager`): one WebSocket at a time, answered pings,
    forwarded messages, and a delayed reconnect after a failure unless the
    user is disconnecting.

    Each transport callback is a method. The listener's calls, the frames
    sent, the sockets opened and closed and the reconnect threads waiting
    are recorded in the object. Every method is specified by a step function
    over a `Channel` snapshot of that state, and the protocol's promises are
    proved about the step functions. */
module DaemonConnections {
  import opened Wrappers
  import opened Text
  import opened Proto

  datatype ListenerCall = MessageReceived(envelope: Envelope) | StatusChanged(connected: bool) | ErrorReported(error: string)

  /** A WebSocket request: its URL and the pre-shared key header, sent
      exactly when a key is configured. */
  datatype Request = Request(url: string, pskHeader: Option<string>)

  /** A `close` call on socket `socket`. */
  datatype Close = Close(socket: nat, code: int, reason: string)

  /** The daemon the manager talks to. */
  datatype Endpoint = Endpoint(host: string, port: int, psk: Option<string>)

  /** The manager's state: the socket handle (sockets are numbered in the
      order they were opened), the closing flag, and what has happened. */
  datatype Channel = Channel(
    webSocket: Option<nat>,
    nextSocket: nat,
    isClosing: bool,
    requests: seq<Request>,
    sent: seq<(nat, Envelope)>,
    calls: seq<ListenerCall>,
    closes: seq<Close>,
    pendingReconnects: nat)

  const NormalClosure: int := 1000

  function SocketUrl(e: Endpoint): string {
    "ws://" + e.host + ":" + IntToString(e.port) + "/ws"
  }

  /** `connect`: nothing while a socket is held; otherwise clears the
      closing flag and opens a new socket. */
  function ConnectStep(c: Channel, e: Endpoint): Channel {
    if c.webSocket.Some? then c
    else c.(isClosing := false, webSocket := Some(c.nextSocket), nextSocket := c.nextSocket + 1,
            requests := c.requests + [Request(SocketUrl(e), e.psk)])
  }

  function OpenStep(c: Channel): Channel {
    c.(calls := c.calls + [StatusChanged(true)])
  }

  /** `sendEnvelope`: sends on the held socket, if any. */
  function SendStep(c: Channel, env: Envelope): Channel {
    match c.webSocket
    case None => c
    case Some(s) => c.(sent := c.sent + [(s, env)])
  }

  /** `handleEnvelope`: a ping is answered with a ping stamped `now`
      (milliseconds); every other envelope goes to the listener. */
  function HandleStep(c: Channel, env: Envelope, now: int): Channel {
    if env.Ping? then SendStep(c, Ping(now))
    else c.(calls := c.calls + [MessageReceived(env)])
  }

  /** `onMessage`: a frame that does not decode is dropped. */
  function MessageStep(c: Channel, frame: Option<Envelope>, now: int): Channel {
    match frame
    case None => c
    case Some(env) => HandleStep(c, env, now)
  }

  function ClosingStep(c: Channel): Channel {
    c.(calls := c.calls + [StatusChanged(false)])
  }

  /** `onFailure`: reports the error and the lost connection, forgets the
      socket and, unless closing, starts one reconnect thread. */
  function FailureStep(c: Channel, message: Option<string>): Channel {
    c.(calls := c.calls + [ErrorReported(message.GetOr("Unknown error")), StatusChanged(false)],
       webSocket := None,
       pendingReconnects := if c.isClosing then c.pendingReconnects else c.pendingReconnects + 1)
  }

  function ClosedStep(c: Channel): Channel {
    c.(calls := c.calls + [StatusChanged(false)], webSocket := None)
  }

  /** `disconnect`: sets the closing flag, closes the held socket normally
      and forgets it. */
  function DisconnectStep(c: Channel): Channel {
    var closes := if c.webSocket.Some? then c.closes + [Close(c.webSocket.value, NormalClosure, "User disconnect")]
                  else c.closes;
    c.(isClosing := true, closes := closes, webSocket := None)
  }

  /** A reconnect thread wakes up: it connects unless the manager is
      closing by then. Without a waiting thread nothing happens. */
  function ReconnectStep(c: Channel, e: Endpoint): Channel {
    if c.pendingReconnects == 0 then c
    else
      var woke := c.(pendingReconnects := c.pendingReconnects - 1);
      if woke.isClosing then woke else ConnectStep(woke, e)
  }

  /** What can happen to the manager other than an explicit `connect`. */
  datatype Event =
    | Opened
    | Received(frame: Option<Envelope>, now: int)
    | Closing
    | Failed(message: Option<string>)
    | Closed
    | Sent(envelope: Envelope)
    | Disconnected
    | ReconnectWoke

  function Step(c: Channel, ev: Event, e: Endpoint): Channel {
    match ev
    case Opened => OpenStep(c)
    case Received(frame, now) => MessageStep(c, frame, now)
    case Closing => ClosingStep(c)
    case Failed(m) => FailureStep(c, m)
    case Closed => ClosedStep(c)
    case Sent(env) => SendStep(c, env)
    case Disconnected => DisconnectStep(c)
    case ReconnectWoke => ReconnectStep(c, e)
  }

  function Run(c: Channel, events: seq<Event>, e: Endpoint): Channel
    decreases |events|
  {
    if events == [] then c else Run(Step(c, events[0], e), events[1..], e)
  }

  /** The request for an endpoint goes to its `/ws` path and carries the
      key header exactly when a key is configured. */
  lemma ConnectRequest(c: Channel, e: Endpoint)
    requires c.webSocket.None?
    ensures ConnectStep(c, e).requests == c.requests + [Request(SocketUrl(e), e.psk)]
    ensures ConnectStep(c, e).requests[|c.requests|].pskHeader.Some? <==> e.psk.Some?
    ensures !ConnectStep(c, e).isClosing && ConnectStep(c, e).webSocket.Some?
    ensures ConnectStep(ConnectStep(c, e), e) == ConnectStep(c, e)
  {
  }

  /** A ping is answered by exactly one ping stamped with the current time,
      on the held socket, and never reaches the listener. */
  lemma PingAnsweredNotForwarded(c: Channel, t: int, now: int)
    ensures MessageStep(c, Some(Ping(t)), now).calls == c.calls
    ensures c.webSocket.Some? ==>
      MessageStep(c, Some(Ping(t)), now).sent == c.sent + [(c.webSocket.value, Ping(now))]
    ensures c.webSocket.None? ==> MessageStep(c, Some(Ping(t)), now) == c
  {
  }

  /** Every other envelope reaches the listener exactly once and sends
      nothing. */
  lemma OtherEnvelopeForwarded(c: Channel, env: Envelope, now: int)
    requires !env.Ping?
    ensures MessageStep(c, Some(env), now).calls == c.calls + [MessageReceived(env)]
    ensures MessageStep(c, Some(env), now).sent == c.sent
    ensures MessageStep(c, Some(env), now).webSocket == c.webSocket
  {
  }

  /** A failure reports the error (or "Unknown error") and then the lost
      connection, forgets the socket, and starts exactly one reconnect
      thread unless closing. Closing reports and keeps the socket; closed
      reports and forgets it; neither starts a thread. */
  lemma FailureSchedulesOneReconnect(c: Channel, m: Option<string>)
    ensures FailureStep(c, m).calls == c.calls + [ErrorReported(m.GetOr("Unknown error")), StatusChanged(false)]
    ensures FailureStep(c, m).webSocket.None?
    ensures FailureStep(c, m).pendingReconnects == c.pendingReconnects + (if c.isClosing then 0 else 1)
    ensures ClosingStep(c).webSocket == c.webSocket && ClosingStep(c).pendingReconnects == c.pendingReconnects
    ensures ClosedStep(c).webSocket.None? && ClosedStep(c).pendingReconnects == c.pendingReconnects
  {
  }

  /** A failure while not closing, then the thread waking, opens exactly one
      new socket. */
  lemma FailureThenReconnect(c: Channel, m: Option<string>, e: Endpoint)
    requires !c.isClosing
    ensures var r := ReconnectStep(FailureStep(c, m), e);
            && r.requests == c.requests + [Request(SocketUrl(e), e.psk)]
            && r.webSocket == Some(c.nextSocket)
            && r.pendingReconnects == c.pendingReconnects
  {
  }

  /** Disconnecting is idempotent, and nothing is sent once it is done. */
  lemma DisconnectIdempotent(c: Channel, env: Envelope)
    ensures DisconnectStep(DisconnectStep(c)) == DisconnectStep(c)
    ensures SendStep(DisconnectStep(c), env) == DisconnectStep(c)
  {
  }

  /** Once closing, no transport event, timer or send opens a socket:
      the closing flag stays set and no request is made until the user
      connects again. */
  lemma {:induction false} ClosingSuppressesReconnects(c: Channel, events: seq<Event>, e: Endpoint)
    requires c.isClosing
    ensures Run(c, events, e).isClosing
    ensures Run(c, events, e).requests == c.requests
    decreases |events|
  {
    if events != [] {
      var next := Step(c, events[0], e);
      assert next.isClosing && next.requests == c.requests;
      ClosingSuppressesReconnects(next, events[1..], e);
    }
  }

  /** Hence after `disconnect` nothing reconnects, whatever happens next. */
  lemma NoReconnectAfterDisconnect(c: Channel, events: seq<Event>, e: Endpoint)
    ensures Run(DisconnectStep(c), events, e).requests == c.requests
    ensures Run(DisconnectStep(c), events, e).isClosing
  {
    ClosingSuppressesReconnects(DisconnectStep(c), events, e);
  }

  class DaemonConnectionManager {
    const endpoint: Endpoint
    var webSocket: Option<nat>
    var nextSocket: nat
    var isClosing: bool
    var requests: seq<Request>
    var sent: seq<(nat, Envelope)>
    var calls: seq<ListenerCall>
    var closes: seq<Close>
    /** Reconnect threads sleeping before their attempt. */
    var pendingReconnects: nat

    function State(): Channel
      reads this
    {
      Channel(webSocket, nextSocket, isClosing, requests, sent, calls, closes, pendingReconnects)
    }

    constructor (host: string, port: int, psk: Option<string>)
      ensures endpoint == Endpoint(host, port, psk)
      ensures State() == Channel(None, 0, false, [], [], [], [], 0)
    {
      endpoint := Endpoint(host, port, psk);
      webSocket := None;
      nextSocket := 0;
      isClosing := false;
      requests := [];
      sent := [];
      calls := [];
      closes := [];
      pendingReconnects := 0;
    }

    method Connect()
      modifies this
      ensures State() == ConnectStep(old(State()), endpoint)
    {
      if webSocket.Some? {
        return;
      }
      isClosing := false;
      var url := "ws://" + endpoint.host + ":" + IntToString(endpoint.port) + "/ws";
      requests := requests + [Request(url, endpoint.psk)];
      webSocket := Some(nextSocket);
      nextSocket := nextSocket + 1;
    }

    method OnOpen()
      modifies this`calls
      ensures State() == OpenStep(old(State()))
    {
      calls := calls + [StatusChanged(true)];
    }

    method SendEnvelope(envelope: Envelope)
      modifies this`sent
      ensures State() == SendStep(old(State()), envelope)
    {
      if webSocket.Some? {
        sent := sent + [(webSocket.value, envelope)];
      }
    }

    /** `frame` is the envelope the bytes decode to, or None when they do
        not decode; `now` is the wall clock in milliseconds. */
    method OnMessage(frame: Option<Envelope>, now: int)
      modifies this`sent, this`calls
      ensures State() == MessageStep(old(State()), frame, now)
    {
      if frame.None? {
        return;
      }
      HandleEnvelope(frame.value, now);
    }

    method HandleEnvelope(envelope: Envelope, now: int)
      modifies this`sent, this`calls
      ensures State() == HandleStep(old(State()), envelope, now)
    {
      if envelope.Ping? {
        SendEnvelope(Ping(now));
      } else {
        calls := calls + [MessageReceived(envelope)];
      }
    }

    method OnClosing()
      modifies this`calls
      ensures State() == ClosingStep(old(State()))
    {
      calls := calls + [StatusChanged(false)];
    }

    method OnFailure(message: Option<string>)
      modifies this`calls, this`webSocket, this`pendingReconnects
      ensures State() == FailureStep(old(State()), message)
    {
      calls := calls + [ErrorReported(message.GetOr("Unknown error"))];
      calls := calls + [StatusChanged(false)];
      webSocket := None;
      if !isClosing {
        pendingReconnects := pendingReconnects + 1;
      }
    }

    method OnClosed()
      modifies this`calls, this`webSocket
      ensures State() == ClosedStep(old(State()))
    {
      calls := calls + [StatusChanged(false)];
      webSocket := None;
    }

    method Disconnect()
      modifies this`isClosing, this`closes, this`webSocket
      ensures State() == DisconnectStep(old(State()))
    {
      isClosing := true;
      if webSocket.Some? {
        closes := closes + [Close(webSocket.value, NormalClosure, "User disconnect")];
      }
      webSocket := None;
    }

    /** One sleeping reconnect thread wakes and connects unless closing. */
    method ReconnectWakes()
      requires pendingReconnects > 0
      modifies this
      ensures State() == ReconnectStep(old(State()), endpoint)
    {
      pendingReconnects := pendingReconnects - 1;
      if !isClosing {
        Connect();
      }
    }
  }
}
