/**
 * The real-time notification client (merchant-server/websocketClient.js): a small state machine
 * over the current socket, two flags and two timer handles, driven by method calls and by the
 * socket's and the timers' events. Node runs each handler to completion, so every handler is one
 * atomic method.
 *
 * The `ws` library and the timers are abstract: every socket ever created is kept, by creation
 * number, with the ready state the library reports for it; a timer is a numbered handle that is
 * live while it sits in `intervals` (setInterval) or `timeouts` (setTimeout). Frames written are
 * recorded in `sent`, tagged with the socket they went out on.
 */
module WsClient {
  import opened JsValues

  /** `WebSocket.readyState`. */
  datatype ReadyState = Connecting | Open | Closing | Closed

  /** The JSON frames the client writes. */
  datatype Outgoing =
    | Subscribe                    // {type: 'subscribe', events: ['all']}
    | Ping                         // {type: 'ping'}
    | GetStatus(invoiceId: string) // {type: 'get_status', invoice_id}

  /** The client's fields as one value. */
  datatype ClientState = ClientState(
    ws: Option<nat>,
    sockets: seq<ReadyState>,
    isConnecting: bool,
    shouldReconnect: bool,
    pingTimer: Option<nat>,
    reconnectTimer: Option<nat>,
    intervals: set<nat>,
    timeouts: set<nat>,
    nextHandle: nat,
    sent: seq<(nat, Outgoing)>)

  /** The state the constructor leaves. */
  const Initial := ClientState(None, [], false, true, None, None, {}, {}, 0, [])

  /** `this.ws && this.ws.readyState === WebSocket.OPEN` */
  predicate IsOpen(s: ClientState)
  {
    s.ws.Some? && s.ws.value < |s.sockets| && s.sockets[s.ws.value] == Open
  }

  /**
   * What holds between handlers: the current socket exists, handles come from the counter,
   * the ping handle is a live interval, and a pending reconnect timeout is the one in
   * `reconnectTimer`, so at most one is ever outstanding.
   */
  ghost predicate Inv(s: ClientState)
  {
    && (s.ws.Some? ==> s.ws.value < |s.sockets|)
    && (forall h :: h in s.intervals ==> h < s.nextHandle)
    && (forall h :: h in s.timeouts ==> h < s.nextHandle)
    && (s.pingTimer.Some? ==> s.pingTimer.value in s.intervals)
    && (forall h :: h in s.timeouts ==> s.reconnectTimer == Some(h))
  }

  lemma AtMostOneReconnectTimer(s: ClientState)
    requires Inv(s)
    ensures |s.timeouts| <= 1
    ensures |s.timeouts| == 1 ==> s.timeouts == {s.reconnectTimer.value}
  {
    if s.timeouts != {} {
      var h :| h in s.timeouts;
      assert s.timeouts == {h};
    }
  }

  // ---------------------------------------------------------------------------
  // Transitions on the state value; the class methods below are proved against these.
  // ---------------------------------------------------------------------------

  /** `send(message)`: written on the current socket when it is open, otherwise dropped. */
  function SendStep(s: ClientState, m: Outgoing): (r: ClientState)
    ensures IsOpen(s) ==> r.sent == s.sent + [(s.ws.value, m)]
    ensures !IsOpen(s) ==> r.sent == s.sent
    ensures r.(sent := s.sent) == s
  {
    if IsOpen(s) then s.(sent := s.sent + [(s.ws.value, m)]) else s
  }

  /** `startPing()`: a new interval, without clearing one that may already run. */
  function StartPingStep(s: ClientState): (r: ClientState)
    ensures r.pingTimer == Some(s.nextHandle) && r.intervals == s.intervals + {s.nextHandle}
    ensures r.nextHandle == s.nextHandle + 1
    ensures Inv(s) ==> Inv(r)
    ensures r.(pingTimer := s.pingTimer, intervals := s.intervals, nextHandle := s.nextHandle) == s
  {
    s.(pingTimer := Some(s.nextHandle), intervals := s.intervals + {s.nextHandle}, nextHandle := s.nextHandle + 1)
  }

  /** `stopPing()`: clears the interval in `pingTimer`, if any, and always leaves `pingTimer` null. */
  function StopPingStep(s: ClientState): (r: ClientState)
    ensures r.pingTimer.None?
    ensures r.intervals == if s.pingTimer.Some? then s.intervals - {s.pingTimer.value} else s.intervals
    ensures Inv(s) ==> Inv(r)
    ensures r.(pingTimer := s.pingTimer, intervals := s.intervals) == s
  {
    if s.pingTimer.Some? then s.(intervals := s.intervals - {s.pingTimer.value}, pingTimer := None) else s
  }

  /** `scheduleReconnect()`: a no-op while `reconnectTimer` holds a handle. */
  function ScheduleReconnectStep(s: ClientState): (r: ClientState)
    ensures s.reconnectTimer.Some? ==> r == s
    ensures s.reconnectTimer.None? ==> r.reconnectTimer == Some(s.nextHandle)
                                       && r.timeouts == s.timeouts + {s.nextHandle}
    ensures Inv(s) ==> Inv(r)
    ensures r.(reconnectTimer := s.reconnectTimer, timeouts := s.timeouts, nextHandle := s.nextHandle) == s
  {
    if s.reconnectTimer.Some? then s
    else s.(timeouts := s.timeouts + {s.nextHandle}, reconnectTimer := Some(s.nextHandle),
            nextHandle := s.nextHandle + 1)
  }

  /** `connect()`: a no-op while connecting or open; otherwise a new socket in CONNECTING. */
  function ConnectStep(s: ClientState): (r: ClientState)
    ensures s.isConnecting || IsOpen(s) ==> r == s
    ensures !(s.isConnecting || IsOpen(s)) ==>
              && r.isConnecting && r.shouldReconnect
              && r.sockets == s.sockets + [Connecting] && r.ws == Some(|s.sockets|)
              && r.(ws := s.ws, sockets := s.sockets, isConnecting := s.isConnecting,
                    shouldReconnect := s.shouldReconnect) == s
    ensures Inv(s) ==> Inv(r)
  {
    if s.isConnecting || IsOpen(s) then s
    else s.(isConnecting := true, shouldReconnect := true,
            sockets := s.sockets + [Connecting], ws := Some(|s.sockets|))
  }

  /**
   * The `open` handler of socket `id`: the socket is OPEN, `isConnecting` is cleared, a ping
   * interval starts and a subscription to all events is sent on the current socket.
   */
  function OpenStep(s: ClientState, id: nat): (r: ClientState)
    requires id < |s.sockets| && s.sockets[id] == Connecting
    ensures r.sockets == s.sockets[id := Open] && !r.isConnecting
    ensures r.pingTimer == Some(s.nextHandle) && r.intervals == s.intervals + {s.nextHandle}
    ensures s.ws == Some(id) ==> r.sent == s.sent + [(id, Subscribe)]
    ensures s.ws != Some(id) ==> r.sent == if IsOpen(s) then s.sent + [(s.ws.value, Subscribe)] else s.sent
    ensures r.ws == s.ws && r.shouldReconnect == s.shouldReconnect
    ensures r.reconnectTimer == s.reconnectTimer && r.timeouts == s.timeouts
    ensures Inv(s) ==> Inv(r)
  {
    SendStep(StartPingStep(s.(sockets := s.sockets[id := Open], isConnecting := false)), Subscribe)
  }

  /**
   * The `close` handler of socket `id`: the socket is CLOSED, `isConnecting` is cleared, ping
   * stops, and a reconnect is scheduled exactly when `shouldReconnect` holds.
   */
  function CloseStep(s: ClientState, id: nat): (r: ClientState)
    requires id < |s.sockets| && s.sockets[id] != Closed
    ensures r.sockets == s.sockets[id := Closed] && !r.isConnecting && r.pingTimer.None?
    ensures r.intervals == if s.pingTimer.Some? then s.intervals - {s.pingTimer.value} else s.intervals
    ensures s.reconnectTimer.Some? ==> r.reconnectTimer == s.reconnectTimer
    ensures r.ws == s.ws && r.shouldReconnect == s.shouldReconnect && r.sent == s.sent
    ensures r.timeouts == if s.shouldReconnect && s.reconnectTimer.None? then s.timeouts + {s.nextHandle}
                          else s.timeouts
    ensures !s.shouldReconnect ==> r.reconnectTimer == s.reconnectTimer
    ensures s.shouldReconnect ==> r.reconnectTimer.Some?
    ensures Inv(s) ==> Inv(r)
  {
    var closed := StopPingStep(s.(sockets := s.sockets[id := Closed], isConnecting := false));
    if closed.shouldReconnect then ScheduleReconnectStep(closed) else closed
  }

  /**
   * `disconnect()`: no further reconnects, ping stopped, the pending reconnect timeout cancelled,
   * the socket asked to close and `ws` nulled; `reconnectTimer` keeps its (now dead) handle.
   */
  function DisconnectStep(s: ClientState): (r: ClientState)
    ensures !r.shouldReconnect && r.pingTimer.None? && r.ws.None?
    ensures r.intervals == if s.pingTimer.Some? then s.intervals - {s.pingTimer.value} else s.intervals
    ensures s.ws.Some? && s.ws.value < |s.sockets| ==>
              r.sockets == s.sockets[s.ws.value := if s.sockets[s.ws.value] == Closed then Closed else Closing]
    ensures r.reconnectTimer == s.reconnectTimer
    ensures r.timeouts == if s.reconnectTimer.Some? then s.timeouts - {s.reconnectTimer.value} else s.timeouts
    ensures Inv(s) ==> Inv(r) && r.timeouts == {}
    ensures s.ws.None? ==> r.sockets == s.sockets
    ensures r.isConnecting == s.isConnecting && r.sent == s.sent && |r.sockets| == |s.sockets|
  {
    var stopped := StopPingStep(s.(shouldReconnect := false));
    var cleared := if stopped.reconnectTimer.Some?
                   then stopped.(timeouts := stopped.timeouts - {stopped.reconnectTimer.value})
                   else stopped;
    if cleared.ws.Some? && cleared.ws.value < |cleared.sockets| then
      var id := cleared.ws.value;
      var closing := if cleared.sockets[id] == Closed then Closed else Closing;
      cleared.(sockets := cleared.sockets[id := closing], ws := None)
    else
      cleared.(ws := None)
  }

  /** The reconnect timeout fires: the field is cleared first, then `connect()` runs. */
  function ReconnectTimerStep(s: ClientState, h: nat): (r: ClientState)
    requires h in s.timeouts
    ensures r == ConnectStep(s.(timeouts := s.timeouts - {h}, reconnectTimer := None))
    ensures Inv(s) ==> Inv(r) && r.timeouts == {}
  {
    ConnectStep(s.(timeouts := s.timeouts - {h}, reconnectTimer := None))
  }

  /** The ping interval ticks: `{type: 'ping'}` is sent if the current socket is open. */
  function PingTimerStep(s: ClientState, h: nat): (r: ClientState)
    requires h in s.intervals
    ensures IsOpen(s) ==> r == s.(sent := s.sent + [(s.ws.value, Ping)])
    ensures !IsOpen(s) ==> r == s
  {
    SendStep(s, Ping)
  }

  // ---------------------------------------------------------------------------
  // Properties relating several transitions
  // ---------------------------------------------------------------------------

  /** `stopPing` is idempotent. */
  lemma StopPingIdempotent(s: ClientState)
    ensures StopPingStep(StopPingStep(s)) == StopPingStep(s)
  {
  }

  /**
   * `startPing` on a running ping loses track of the first interval: after a second start and a
   * stop, the first interval is still live and no field refers to it.
   */
  lemma StartPingTwiceLeaksInterval(s: ClientState)
    requires Inv(s)
    ensures var r := StopPingStep(StartPingStep(StartPingStep(s)));
            s.nextHandle in r.intervals && r.pingTimer.None?
  {
  }

  /**
   * Because `disconnect()` keeps the dead handle in `reconnectTimer`, a client that is
   * disconnected while a reconnect is pending, then connected again, never reconnects after
   * its next close: reconnection is wanted but no timeout is pending.
   */
  lemma ReconnectLostAfterDisconnect()
    ensures var s1 := CloseStep(ConnectStep(Initial), 0);
            var s2 := ConnectStep(DisconnectStep(s1));
            var s3 := CloseStep(s2, 1);
            && s1.timeouts == {0}
            && s3.shouldReconnect && s3.timeouts == {} && s3.reconnectTimer == Some(0)
  {
  }

  // ---------------------------------------------------------------------------
  // Inbound frames
  // ---------------------------------------------------------------------------

  /**
   * An inbound frame: text that `JSON.parse` rejects (or whose `type` cannot be read), or a
   * message with its `type`, its `data` (`None` when missing) and whether it has an `invoice`.
   */
  datatype Frame<D> = Unparseable | Message(msgType: Option<string>, data: Option<D>, hasInvoice: bool)

  /** What `handleMessage` does with a frame. Only `Forward` calls `onNotification`. */
  datatype Handling<D> =
    | ConnectionAck
    | SubscriptionAck
    | PongReceived
    | Forward(data: Option<D>)
    | InvoiceStatus
    | ServerError
    | UnknownType
    | ParseError

  /**
   * `handleMessage(data)`: classifies a frame and forwards `message.data` exactly for the
   * `notification` type; everything else, including an unparseable frame and an `invoice_status`
   * frame without `invoice` (whose TypeError is caught), is dropped without raising.
   */
  function HandleMessage<D>(frame: Frame<D>): (r: Handling<D>)
    ensures r.Forward? <==> frame.Message? && frame.msgType == Some("notification")
    ensures r.Forward? ==> r.data == frame.data
    ensures frame.Unparseable? ==> r == ParseError
    ensures r == UnknownType <==>
              frame.Message? && frame.msgType !in
                {Some("connected"), Some("subscribed"), Some("pong"), Some("notification"),
                 Some("invoice_status"), Some("error")}
  {
    match frame
    case Unparseable => ParseError
    case Message(t, data, hasInvoice) =>
      if t == Some("connected") then ConnectionAck
      else if t == Some("subscribed") then SubscriptionAck
      else if t == Some("pong") then PongReceived
      else if t == Some("notification") then Forward(data)
      else if t == Some("invoice_status") then (if hasInvoice then InvoiceStatus else ParseError)
      else if t == Some("error") then ServerError
      else UnknownType
  }

  // ---------------------------------------------------------------------------
  // The client object
  // ---------------------------------------------------------------------------

  class WebSocketClient {
    var ws: Option<nat>
    var sockets: seq<ReadyState>
    var isConnecting: bool
    var shouldReconnect: bool
    var pingTimer: Option<nat>
    var reconnectTimer: Option<nat>
    var intervals: set<nat>
    var timeouts: set<nat>
    var nextHandle: nat
    var sent: seq<(nat, Outgoing)>

    function State(): ClientState
      reads this
    {
      ClientState(ws, sockets, isConnecting, shouldReconnect, pingTimer, reconnectTimer,
                  intervals, timeouts, nextHandle, sent)
    }

    ghost predicate Valid()
      reads this
    {
      Inv(State())
    }

    constructor ()
      ensures Valid() && State() == Initial
    {
      ws, sockets := None, [];
      isConnecting, shouldReconnect := false, true;
      pingTimer, reconnectTimer := None, None;
      intervals, timeouts, nextHandle := {}, {}, 0;
      sent := [];
    }

    method Connect()
      requires Valid()
      modifies this
      ensures Valid() && State() == ConnectStep(old(State()))
    {
      if isConnecting || (ws.Some? && ws.value < |sockets| && sockets[ws.value] == Open) {
        return;
      }
      isConnecting := true;
      shouldReconnect := true;
      ws := Some(|sockets|);
      sockets := sockets + [Connecting];
    }

    method Disconnect()
      requires Valid()
      modifies this
      ensures Valid() && State() == DisconnectStep(old(State()))
    {
      shouldReconnect := false;
      StopPing();
      if reconnectTimer.Some? {
        timeouts := timeouts - {reconnectTimer.value};
      }
      if ws.Some? {
        var id := ws.value;
        if sockets[id] != Closed {
          sockets := sockets[id := Closing];
        }
        ws := None;
      }
    }

    method Send(m: Outgoing)
      requires Valid()
      modifies this
      ensures Valid() && State() == SendStep(old(State()), m)
    {
      if ws.Some? && ws.value < |sockets| && sockets[ws.value] == Open {
        sent := sent + [(ws.value, m)];
      }
    }

    method GetInvoiceStatus(invoiceId: string)
      requires Valid()
      modifies this
      ensures Valid() && State() == SendStep(old(State()), GetStatus(invoiceId))
    {
      Send(GetStatus(invoiceId));
    }

    method StartPing()
      requires Valid()
      modifies this
      ensures Valid() && State() == StartPingStep(old(State()))
    {
      pingTimer := Some(nextHandle);
      intervals := intervals + {nextHandle};
      nextHandle := nextHandle + 1;
    }

    method StopPing()
      requires Valid()
      modifies this
      ensures Valid() && State() == StopPingStep(old(State()))
    {
      if pingTimer.Some? {
        intervals := intervals - {pingTimer.value};
        pingTimer := None;
      }
    }

    method ScheduleReconnect()
      requires Valid()
      modifies this
      ensures Valid() && State() == ScheduleReconnectStep(old(State()))
    {
      if reconnectTimer.Some? {
        return;
      }
      timeouts := timeouts + {nextHandle};
      reconnectTimer := Some(nextHandle);
      nextHandle := nextHandle + 1;
    }

    method IsConnected() returns (connected: bool)
      ensures connected == IsOpen(State())
    {
      connected := ws.Some? && ws.value < |sockets| && sockets[ws.value] == Open;
    }

    /** The `open` event of socket `id`. */
    method OnOpen(id: nat)
      requires Valid() && id < |sockets| && sockets[id] == Connecting
      modifies this
      ensures Valid() && State() == OpenStep(old(State()), id)
    {
      sockets := sockets[id := Open];
      isConnecting := false;
      StartPing();
      Send(Subscribe);
    }

    /** The `close` event of socket `id`. */
    method OnClose(id: nat)
      requires Valid() && id < |sockets| && sockets[id] != Closed
      modifies this
      ensures Valid() && State() == CloseStep(old(State()), id)
    {
      sockets := sockets[id := Closed];
      isConnecting := false;
      StopPing();
      if shouldReconnect {
        ScheduleReconnect();
      }
    }

    /** The reconnect timeout `h` fires. */
    method OnReconnectTimer(h: nat)
      requires Valid() && h in timeouts
      modifies this
      ensures Valid() && State() == ReconnectTimerStep(old(State()), h)
    {
      timeouts := timeouts - {h};
      reconnectTimer := None;
      Connect();
    }

    /** The ping interval `h` ticks. */
    method OnPingTimer(h: nat)
      requires Valid() && h in intervals
      modifies this
      ensures Valid() && State() == PingTimerStep(old(State()), h)
    {
      Send(Ping);
    }
  }
}
