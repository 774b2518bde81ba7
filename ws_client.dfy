/**
 * The signalling client (client/src/utils/wsClient.js): a queue of
 * messages waiting for a connection, handler lists per message type and
 * for connect and disconnect, and a bounded reconnection counter.
 *
 * Handlers are known by identity only; calling one is recorded in the
 * client's trace, in the order the calls happen, beside the messages put
 * on the socket. What a handler itself does is not modelled. The socket is
 * its ready state; a timer the client schedules is recorded with its delay.
 */
module SignalingClient {
  import opened Base

  /** A handler function, by identity (what `indexOf` compares). */
  type HandlerId = nat

  /** A parsed signalling message; `msgType` is its `type` field. */
  datatype ClientMessage = ClientMessage(msgType: string, fields: map<string, string>)

  datatype SocketState = Connecting | Open | Closing | Closed

  /** What the client does that can be observed, in order. */
  datatype Effect =
    | Transmitted(message: ClientMessage)
    | CalledOnMessage(handler: HandlerId, message: ClientMessage)
    | CalledOnConnect(handler: HandlerId)
    | CalledOnDisconnect(handler: HandlerId)

  const MaxReconnectAttempts: nat := 5
  const ReconnectDelay: nat := 2000

  // ---------------------------------------------------------------------
  // Handler lists
  // ---------------------------------------------------------------------

  /** `indexOf`: the first position of `h`, or -1. */
  function IndexOf(hs: seq<HandlerId>, h: HandlerId): (i: int)
    ensures -1 <= i < |hs|
    ensures i == -1 <==> h !in hs
    ensures i >= 0 ==> hs[i] == h && h !in hs[..i]
  {
    if hs == [] then -1
    else if hs[0] == h then 0
    else
      var j := IndexOf(hs[1..], h);
      assert j >= 0 ==> hs[1..][..j] == hs[1..j + 1];
      if j == -1 then -1 else j + 1
  }

  /** The unsubscribe closure: `splice(indexOf(h), 1)` when present. */
  function RemoveFirst(hs: seq<HandlerId>, h: HandlerId): seq<HandlerId>
  {
    var i := IndexOf(hs, h);
    if i > -1 then hs[..i] + hs[i + 1..] else hs
  }

  /**
   * Unsubscribing removes the first occurrence of the handler and keeps
   * every other handler in its order; it is a no-op when absent.
   */
  lemma RemoveFirstSpec(hs: seq<HandlerId>, h: HandlerId)
    ensures h !in hs ==> RemoveFirst(hs, h) == hs
    ensures h in hs ==>
      exists i :: 0 <= i < |hs| && hs[i] == h && h !in hs[..i] && RemoveFirst(hs, h) == hs[..i] + hs[i + 1..]
    ensures h in hs ==> |RemoveFirst(hs, h)| == |hs| - 1
  {
    var i := IndexOf(hs, h);
    if i > -1 {
      assert 0 <= i < |hs| && hs[i] == h && h !in hs[..i] && RemoveFirst(hs, h) == hs[..i] + hs[i + 1..];
    }
  }

  /** Unsubscribing takes exactly one registration of the handler away, if it has one. */
  lemma RemoveFirstCounts(hs: seq<HandlerId>, h: HandlerId)
    ensures multiset(RemoveFirst(hs, h)) == multiset(hs) - multiset{h}
  {
    var i := IndexOf(hs, h);
    if i > -1 {
      var before, after := hs[..i], hs[i + 1..];
      assert hs == before + [h] + after;
      assert multiset(hs) == multiset(before) + multiset{h} + multiset(after);
      assert multiset(RemoveFirst(hs, h)) == multiset(before) + multiset(after);
    } else {
      assert h !in multiset(hs);
      assert multiset(hs) - multiset{h} == multiset(hs);
    }
  }

  /**
   * Subscribing and then unsubscribing the same handler restores the list
   * only if it was not registered before; otherwise the earlier
   * registration is the one removed and the new one stays at the end.
   */
  lemma SubscribeThenUnsubscribe(hs: seq<HandlerId>, h: HandlerId)
    ensures RemoveFirst(hs + [h], h) == if h in hs then RemoveFirst(hs, h) + [h] else hs
  {
    var i := IndexOf(hs + [h], h);
    if h in hs {
      var k := IndexOf(hs, h);
      IndexOfPrefix(hs, [h], h);
      assert i == k;
      assert (hs + [h])[..i] == hs[..k];
      assert (hs + [h])[i + 1..] == hs[k + 1..] + [h];
    } else {
      assert (hs + [h])[|hs|] == h;
      assert (hs + [h])[..|hs|] == hs;
      IndexOfAbsentPrefix(hs, h);
    }
  }

  lemma {:induction false} IndexOfPrefix(a: seq<HandlerId>, b: seq<HandlerId>, h: HandlerId)
    requires h in a
    ensures IndexOf(a + b, h) == IndexOf(a, h)
  {
    if a[0] != h {
      assert (a + b)[0] == a[0];
      assert (a + b)[1..] == a[1..] + b;
      IndexOfPrefix(a[1..], b, h);
    }
  }

  lemma IndexOfAbsentPrefix(a: seq<HandlerId>, h: HandlerId)
    requires h !in a
    ensures IndexOf(a + [h], h) == |a|
  {
    var s := a + [h];
    assert s[|a|] == h;
    assert forall j :: 0 <= j < |a| ==> s[j] == a[j];
  }

  // ---------------------------------------------------------------------
  // Traces of effects
  // ---------------------------------------------------------------------

  function Transmits(ms: seq<ClientMessage>): (es: seq<Effect>)
    ensures |es| == |ms|
    ensures forall i :: 0 <= i < |ms| ==> es[i] == Transmitted(ms[i])
  {
    if ms == [] then [] else [Transmitted(ms[0])] + Transmits(ms[1..])
  }

  lemma {:induction false} TransmitsAppend(a: seq<ClientMessage>, b: seq<ClientMessage>)
    ensures Transmits(a + b) == Transmits(a) + Transmits(b)
  {
    if a != [] {
      assert (a + b)[1..] == a[1..] + b;
      TransmitsAppend(a[1..], b);
    }
  }

  /** One `handler(message)` call per handler, in registration order. */
  function MessageCalls(hs: seq<HandlerId>, m: ClientMessage): (es: seq<Effect>)
    ensures |es| == |hs|
    ensures forall i :: 0 <= i < |hs| ==> es[i] == CalledOnMessage(hs[i], m)
  {
    if hs == [] then [] else [CalledOnMessage(hs[0], m)] + MessageCalls(hs[1..], m)
  }

  function ConnectCalls(hs: seq<HandlerId>): (es: seq<Effect>)
    ensures |es| == |hs|
    ensures forall i :: 0 <= i < |hs| ==> es[i] == CalledOnConnect(hs[i])
  {
    if hs == [] then [] else [CalledOnConnect(hs[0])] + ConnectCalls(hs[1..])
  }

  function DisconnectCalls(hs: seq<HandlerId>): (es: seq<Effect>)
    ensures |es| == |hs|
    ensures forall i :: 0 <= i < |hs| ==> es[i] == CalledOnDisconnect(hs[i])
  {
    if hs == [] then [] else [CalledOnDisconnect(hs[0])] + DisconnectCalls(hs[1..])
  }

  /** The handlers registered for a type, `get(type) || []`. */
  function HandlersFor(handlers: map<string, seq<HandlerId>>, msgType: string): seq<HandlerId>
  {
    if msgType in handlers then handlers[msgType] else []
  }

  // ---------------------------------------------------------------------
  // Reconnection
  // ---------------------------------------------------------------------

  /** attemptReconnect on a counter: below the maximum it counts up and schedules a timer. */
  function Reconnect(attempts: nat): (r: (nat, Option<nat>))
    ensures attempts < MaxReconnectAttempts ==> r == (attempts + 1, Some(ReconnectDelay * (attempts + 1)))
    ensures attempts >= MaxReconnectAttempts ==> r == (attempts, None)
    ensures attempts <= MaxReconnectAttempts ==> r.0 <= MaxReconnectAttempts
  {
    if attempts < MaxReconnectAttempts then (attempts + 1, Some(ReconnectDelay * (attempts + 1)))
    else (attempts, None)
  }

  /** Counter after k closes without an open in between. */
  function ReconnectTimes(attempts: nat, k: nat): nat
    decreases k
  {
    if k == 0 then attempts else ReconnectTimes(Reconnect(attempts).0, k - 1)
  }

  /** However many closes follow, the counter never passes the maximum, and reaches it after enough of them. */
  lemma {:induction false} ReconnectBounded(attempts: nat, k: nat)
    requires attempts <= MaxReconnectAttempts
    ensures ReconnectTimes(attempts, k) <= MaxReconnectAttempts
    ensures ReconnectTimes(attempts, k) == Min(attempts + k, MaxReconnectAttempts)
    decreases k
  {
    if k > 0 {
      ReconnectBounded(Reconnect(attempts).0, k - 1);
    }
  }

  /** The delays scheduled by closes in a row: 2000, 4000, ... up to the fifth attempt, then none. */
  function ReconnectDelays(attempts: nat, k: nat): seq<nat>
    decreases k
  {
    if k == 0 then []
    else
      var (next, timer) := Reconnect(attempts);
      (if timer.Some? then [timer.value] else []) + ReconnectDelays(next, k - 1)
  }

  lemma {:induction false} ReconnectDelaysSpec(attempts: nat, k: nat)
    requires attempts <= MaxReconnectAttempts
    ensures |ReconnectDelays(attempts, k)| == Min(k, MaxReconnectAttempts - attempts)
    ensures forall i :: 0 <= i < |ReconnectDelays(attempts, k)| ==>
      ReconnectDelays(attempts, k)[i] == ReconnectDelay * (attempts + i + 1)
    decreases k
  {
    if k > 0 {
      ReconnectDelaysSpec(Reconnect(attempts).0, k - 1);
    }
  }


  // ---------------------------------------------------------------------
  // The client as a state value
  // ---------------------------------------------------------------------

  /** The nine fields of a WebSocketClient, with the effects so far and the timers scheduled so far. */
  datatype ClientState = ClientState(
    ws: Option<SocketState>,
    isConnected: bool,
    reconnectAttempts: nat,
    messageQueue: seq<ClientMessage>,
    messageHandlers: map<string, seq<HandlerId>>,
    connectionHandlers: seq<HandlerId>,
    disconnectionHandlers: seq<HandlerId>,
    trace: seq<Effect>,
    timers: seq<nat>)

  /** Connected only with a socket, and the counter within its bound. */
  predicate ClientInv(s: ClientState)
  {
    (s.isConnected ==> s.ws.Some?) && s.reconnectAttempts <= MaxReconnectAttempts
  }

  /** The test of `send`: connected, and the socket is open. */
  predicate CanTransmit(s: ClientState)
  {
    s.isConnected && s.ws == Some(Open)
  }

  /** The constructor: no socket, disconnected, counter 0, nothing queued, no handlers. */
  function NewClient(): ClientState
  {
    ClientState(None, false, 0, [], map[], [], [], [], [])
  }

  /** connect(): a new socket, connecting. */
  function Dialed(s: ClientState): ClientState
  {
    s.(ws := Some(Connecting))
  }

  /** send(message): transmitted at once when connected and open, otherwise queued at the end. */
  function Sent(s: ClientState, m: ClientMessage): ClientState
  {
    if CanTransmit(s) then s.(trace := s.trace + [Transmitted(m)])
    else s.(messageQueue := s.messageQueue + [m])
  }

  /** flushMessageQueue on an open connection: every queued message goes out, in FIFO order. */
  function Flushed(s: ClientState): ClientState
    requires CanTransmit(s)
  {
    s.(messageQueue := [], trace := s.trace + Transmits(s.messageQueue))
  }

  /** onopen: connected, counter reset, the queue flushed, then the connect handlers in order. */
  function Opened(s: ClientState): ClientState
    requires s.ws.Some?
  {
    var o := Flushed(s.(ws := Some(Open), isConnected := true, reconnectAttempts := 0));
    o.(trace := o.trace + ConnectCalls(o.connectionHandlers))
  }

  /** attemptReconnect: the counter and the timer of Reconnect. */
  function Reconnected(s: ClientState): ClientState
  {
    var (next, timer) := Reconnect(s.reconnectAttempts);
    s.(reconnectAttempts := next, timers := s.timers + if timer.Some? then [timer.value] else [])
  }

  /**
   * onclose: disconnected, the disconnect handlers in order, then a
   * reconnection attempt. The handler does not look at `this.ws`: once
   * close() has let the socket go there is none, and it stays so.
   */
  function CloseEvent(s: ClientState): ClientState
  {
    Reconnected(s.(ws := if s.ws.Some? then Some(Closed) else None, isConnected := false,
                   trace := s.trace + DisconnectCalls(s.disconnectionHandlers)))
  }

  /** handleMessage: the handlers registered for the message's type, in order. */
  function MessageHandled(s: ClientState, m: ClientMessage): ClientState
  {
    s.(trace := s.trace + MessageCalls(HandlersFor(s.messageHandlers, m.msgType), m))
  }

  /** onmessage: a text that does not parse is dropped. */
  function Received(s: ClientState, parsed: Option<ClientMessage>): ClientState
  {
    if parsed.Some? then MessageHandled(s, parsed.value) else s
  }

  function Subscribed(s: ClientState, msgType: string, h: HandlerId): ClientState
  {
    s.(messageHandlers := s.messageHandlers[msgType := HandlersFor(s.messageHandlers, msgType) + [h]])
  }

  function Unsubscribed(s: ClientState, msgType: string, h: HandlerId): ClientState
    requires msgType in s.messageHandlers
  {
    s.(messageHandlers := s.messageHandlers[msgType := RemoveFirst(s.messageHandlers[msgType], h)])
  }

  function ConnectSubscribed(s: ClientState, h: HandlerId): ClientState
  {
    s.(connectionHandlers := s.connectionHandlers + [h])
  }

  function ConnectUnsubscribed(s: ClientState, h: HandlerId): ClientState
  {
    s.(connectionHandlers := RemoveFirst(s.connectionHandlers, h))
  }

  function DisconnectSubscribed(s: ClientState, h: HandlerId): ClientState
  {
    s.(disconnectionHandlers := s.disconnectionHandlers + [h])
  }

  function DisconnectUnsubscribed(s: ClientState, h: HandlerId): ClientState
  {
    s.(disconnectionHandlers := RemoveFirst(s.disconnectionHandlers, h))
  }

  /** close(): only with a socket; afterwards there is none and the client is disconnected. */
  function UserClosed(s: ClientState): ClientState
  {
    if s.ws.Some? then s.(ws := None, isConnected := false) else s
  }

  // ---------------------------------------------------------------------
  // Properties of the client's handlers
  // ---------------------------------------------------------------------

  /** Every handler keeps the client's invariant. */
  lemma HandlersKeepInv(s: ClientState, m: ClientMessage, parsed: Option<ClientMessage>, msgType: string, h: HandlerId)
    requires ClientInv(s)
    ensures ClientInv(Dialed(s)) && ClientInv(Sent(s, m)) && ClientInv(CloseEvent(s)) && ClientInv(Received(s, parsed))
    ensures s.ws.Some? ==> ClientInv(Opened(s))
    ensures CanTransmit(s) ==> ClientInv(Flushed(s))
    ensures ClientInv(Subscribed(s, msgType, h)) && ClientInv(ConnectSubscribed(s, h))
    ensures ClientInv(DisconnectSubscribed(s, h)) && ClientInv(UserClosed(s))
  {
  }

  /** send either puts the message on the socket or queues it, and the queue is left alone exactly when it is sent. */
  lemma SentSpec(s: ClientState, m: ClientMessage)
    ensures CanTransmit(s) ==> Sent(s, m).trace == s.trace + [Transmitted(m)] && Sent(s, m).messageQueue == s.messageQueue
    ensures !CanTransmit(s) ==> Sent(s, m).messageQueue == s.messageQueue + [m] && Sent(s, m).trace == s.trace
    ensures Sent(s, m).(trace := s.trace, messageQueue := s.messageQueue) == s
  {
  }

  /** The send of each message in turn. */
  function SentAll(s: ClientState, ms: seq<ClientMessage>): (r: ClientState)
    ensures r.(trace := s.trace, messageQueue := s.messageQueue) == s
    decreases |ms|
  {
    if ms == [] then s else SentAll(Sent(s, ms[0]), ms[1..])
  }

  /** While the client is not connected, sends queue their messages in order and put nothing on the socket. */
  lemma {:induction false} SentAllQueues(s: ClientState, ms: seq<ClientMessage>)
    requires !s.isConnected
    ensures SentAll(s, ms) == s.(messageQueue := s.messageQueue + ms)
    decreases |ms|
  {
    if ms != [] {
      SentAllQueues(Sent(s, ms[0]), ms[1..]);
      assert s.messageQueue + [ms[0]] + ms[1..] == s.messageQueue + ms;
    }
  }

  /**
   * connect(), sends while the socket connects, then `open`: queued and
   * newly sent messages go out in the order they were sent, before any
   * connect handler runs; the counter is back to 0 and nothing stays queued.
   */
  lemma DialSendOpen(s: ClientState, ms: seq<ClientMessage>)
    requires ClientInv(s) && !s.isConnected
    ensures var r := Opened(SentAll(Dialed(s), ms));
      && ClientInv(r) && CanTransmit(r) && r.reconnectAttempts == 0 && r.messageQueue == []
      && r.trace == s.trace + Transmits(s.messageQueue + ms) + ConnectCalls(s.connectionHandlers)
      && r.timers == s.timers && r.messageHandlers == s.messageHandlers
  {
    SentAllQueues(Dialed(s), ms);
  }

  /** Closes in a row. */
  function CloseEvents(s: ClientState, k: nat): ClientState
    decreases k
  {
    if k == 0 then s else CloseEvents(CloseEvent(s), k - 1)
  }

  /** The timer one reconnection step schedules, if any. */
  function TimerOf(attempts: nat): seq<nat>
  {
    var timer := Reconnect(attempts).1;
    if timer.Some? then [timer.value] else []
  }

  /** One close event: disconnected, one reconnection step on the counter and the timers. */
  lemma CloseEventStep(s: ClientState)
    requires ClientInv(s)
    ensures ClientInv(CloseEvent(s)) && !CloseEvent(s).isConnected
    ensures CloseEvent(s).reconnectAttempts == Reconnect(s.reconnectAttempts).0
    ensures CloseEvent(s).timers == s.timers + TimerOf(s.reconnectAttempts)
  {
  }

  lemma {:induction false} ClosesCount(s: ClientState, k: nat)
    requires ClientInv(s)
    ensures ClientInv(CloseEvents(s, k))
    ensures CloseEvents(s, k).reconnectAttempts == ReconnectTimes(s.reconnectAttempts, k)
    ensures k > 0 ==> !CloseEvents(s, k).isConnected
    decreases k
  {
    if k > 0 {
      CloseEventStep(s);
      ClosesCount(CloseEvent(s), k - 1);
    }
  }

  lemma TimersAppend(a: seq<nat>, t: seq<nat>, rest: seq<nat>, r: seq<nat>)
    requires r == (a + t) + rest
    ensures r == a + (t + rest)
  {
  }

  lemma {:induction false} ClosesTimers(s: ClientState, k: nat)
    requires ClientInv(s)
    ensures CloseEvents(s, k).timers == s.timers + ReconnectDelays(s.reconnectAttempts, k)
    decreases k
  {
    if k > 0 {
      var c := CloseEvent(s);
      CloseEventStep(s);
      ClosesTimers(c, k - 1);
      assert ReconnectDelays(s.reconnectAttempts, k) == TimerOf(s.reconnectAttempts) + ReconnectDelays(c.reconnectAttempts, k - 1);
      TimersAppend(s.timers, TimerOf(s.reconnectAttempts), ReconnectDelays(c.reconnectAttempts, k - 1), CloseEvents(s, k).timers);
    }
  }

  /**
   * However many close events follow one another without an open, the
   * counter is the smaller of the old count plus the closes and five, and
   * the timers scheduled are exactly the delays ReconnectDelays gives.
   */
  lemma ClosesInARow(s: ClientState, k: nat)
    requires ClientInv(s)
    ensures ClientInv(CloseEvents(s, k))
    ensures CloseEvents(s, k).reconnectAttempts == Min(s.reconnectAttempts + k, MaxReconnectAttempts)
    ensures CloseEvents(s, k).timers == s.timers + ReconnectDelays(s.reconnectAttempts, k)
    ensures k > 0 ==> !CloseEvents(s, k).isConnected
  {
    ClosesCount(s, k);
    ClosesTimers(s, k);
    ReconnectBounded(s.reconnectAttempts, k);
  }

  /**
   * close() lets the socket go and then the socket's `close` event still
   * arrives: below five attempts it runs the disconnect handlers and
   * schedules a reconnection, so the client dials again after it was closed.
   */
  lemma CloseThenCloseEventReconnects(s: ClientState)
    requires ClientInv(s) && s.ws.Some? && s.reconnectAttempts < MaxReconnectAttempts
    ensures var r := CloseEvent(UserClosed(s));
      && r.ws.None? && !r.isConnected
      && r.trace == s.trace + DisconnectCalls(s.disconnectionHandlers)
      && r.reconnectAttempts == s.reconnectAttempts + 1
      && r.timers == s.timers + [ReconnectDelay * (s.reconnectAttempts + 1)]
  {
  }

  /** The close event as close() means it: a socket the client has let go no longer acts on it. */
  function IntendedCloseEvent(s: ClientState): ClientState
  {
    if s.ws.None? then s else CloseEvent(s)
  }

  /** With the intended close event, a closed client stays closed, and the current socket's close acts as written. */
  lemma IntendedCloseStaysClosed(s: ClientState)
    requires ClientInv(s)
    ensures IntendedCloseEvent(UserClosed(s)) == UserClosed(s)
    ensures UserClosed(s).ws.None? && !UserClosed(s).isConnected
    ensures s.ws.Some? ==> IntendedCloseEvent(s) == CloseEvent(s)
  {
  }

  // ---------------------------------------------------------------------
  // The client object
  // ---------------------------------------------------------------------

  class WebSocketClient {
    var ws: Option<SocketState>
    var isConnected: bool
    var reconnectAttempts: nat
    var messageQueue: seq<ClientMessage>
    var messageHandlers: map<string, seq<HandlerId>>
    var connectionHandlers: seq<HandlerId>
    var disconnectionHandlers: seq<HandlerId>
    var trace: seq<Effect>
    var timers: seq<nat>

    function State(): ClientState
      reads this
    {
      ClientState(ws, isConnected, reconnectAttempts, messageQueue, messageHandlers,
                  connectionHandlers, disconnectionHandlers, trace, timers)
    }

    predicate Valid()
      reads this
    {
      ClientInv(State())
    }

    constructor ()
      ensures State() == NewClient() && Valid()
    {
      ws := None;
      isConnected := false;
      reconnectAttempts := 0;
      messageQueue := [];
      messageHandlers := map[];
      connectionHandlers := [];
      disconnectionHandlers := [];
      trace := [];
      timers := [];
    }

    method Connect()
      requires Valid()
      modifies this
      ensures State() == Dialed(old(State())) && Valid()
    {
      ws := Some(Connecting);
    }

    method Send(m: ClientMessage)
      requires Valid()
      modifies this
      ensures State() == Sent(old(State()), m) && Valid()
    {
      if isConnected && ws == Some(Open) {
        trace := trace + [Transmitted(m)];
      } else {
        messageQueue := messageQueue + [m];
      }
    }

    /**
     * flushMessageQueue, called only from the open handler, FIFO. On a
     * connection that is not open each `send` would queue its message
     * again and the loop would not end.
     */
    method FlushMessageQueue()
      requires Valid() && CanTransmit(State())
      modifies this
      ensures State() == Flushed(old(State())) && Valid()
    {
      ghost var k := 0;
      while |messageQueue| > 0
        invariant 0 <= k <= |old(messageQueue)|
        invariant State() == old(State()).(messageQueue := old(messageQueue)[k..],
                                           trace := old(trace) + Transmits(old(messageQueue)[..k]))
        decreases |messageQueue|
      {
        var m := messageQueue[0];
        messageQueue := messageQueue[1..];
        Send(m);
        TransmitsAppend(old(messageQueue)[..k], [m]);
        assert old(messageQueue)[..k + 1] == old(messageQueue)[..k] + [m];
        k := k + 1;
      }
      assert old(messageQueue)[..k] == old(messageQueue);
    }

    method OnOpen()
      requires Valid() && ws.Some?
      modifies this
      ensures State() == Opened(old(State())) && Valid()
    {
      ws := Some(Open);
      isConnected := true;
      reconnectAttempts := 0;
      FlushMessageQueue();
      trace := trace + ConnectCalls(connectionHandlers);
    }

    /** onclose, of the current socket or of one close() has let go. */
    method OnClose()
      requires Valid()
      modifies this
      ensures State() == CloseEvent(old(State())) && Valid()
    {
      if ws.Some? {
        ws := Some(Closed);
      }
      isConnected := false;
      trace := trace + DisconnectCalls(disconnectionHandlers);
      AttemptReconnect();
    }

    method AttemptReconnect()
      requires Valid()
      modifies this
      ensures State() == Reconnected(old(State())) && Valid()
    {
      if reconnectAttempts < MaxReconnectAttempts {
        reconnectAttempts := reconnectAttempts + 1;
        timers := timers + [ReconnectDelay * reconnectAttempts];
      }
    }

    method OnMessage(parsed: Option<ClientMessage>)
      requires Valid()
      modifies this
      ensures State() == Received(old(State()), parsed) && Valid()
    {
      if parsed.Some? {
        HandleMessage(parsed.value);
      }
    }

    method HandleMessage(m: ClientMessage)
      requires Valid()
      modifies this
      ensures State() == MessageHandled(old(State()), m) && Valid()
    {
      trace := trace + MessageCalls(HandlersFor(messageHandlers, m.msgType), m);
    }

    method On(msgType: string, h: HandlerId)
      requires Valid()
      modifies this
      ensures State() == Subscribed(old(State()), msgType, h) && Valid()
    {
      if msgType !in messageHandlers {
        messageHandlers := messageHandlers[msgType := []];
      }
      messageHandlers := messageHandlers[msgType := messageHandlers[msgType] + [h]];
    }

    /** The unsubscribe closure `on` returns; the type's list exists once `on` has run. */
    method Off(msgType: string, h: HandlerId)
      requires Valid() && msgType in messageHandlers
      modifies this
      ensures State() == Unsubscribed(old(State()), msgType, h) && Valid()
    {
      var handlers := messageHandlers[msgType];
      var index := IndexOf(handlers, h);
      if index > -1 {
        messageHandlers := messageHandlers[msgType := handlers[..index] + handlers[index + 1..]];
      }
    }

    method OnConnect(h: HandlerId)
      requires Valid()
      modifies this
      ensures State() == ConnectSubscribed(old(State()), h) && Valid()
    {
      connectionHandlers := connectionHandlers + [h];
    }

    method OffConnect(h: HandlerId)
      requires Valid()
      modifies this
      ensures State() == ConnectUnsubscribed(old(State()), h) && Valid()
    {
      var index := IndexOf(connectionHandlers, h);
      if index > -1 {
        connectionHandlers := connectionHandlers[..index] + connectionHandlers[index + 1..];
      }
    }

    method OnDisconnect(h: HandlerId)
      requires Valid()
      modifies this
      ensures State() == DisconnectSubscribed(old(State()), h) && Valid()
    {
      disconnectionHandlers := disconnectionHandlers + [h];
    }

    method OffDisconnect(h: HandlerId)
      requires Valid()
      modifies this
      ensures State() == DisconnectUnsubscribed(old(State()), h) && Valid()
    {
      var index := IndexOf(disconnectionHandlers, h);
      if index > -1 {
        disconnectionHandlers := disconnectionHandlers[..index] + disconnectionHandlers[index + 1..];
      }
    }

    method Close()
      requires Valid()
      modifies this
      ensures State() == UserClosed(old(State())) && Valid()
    {
      if ws.Some? {
        ws := None;
        isConnected := false;
      }
    }
  }

  /**
   * On the object: after connect(), messages sent before the socket opens
   * reach it in the order they were sent, after those already queued and
   * before any connect handler runs.
   */
  method QueuedThenOpened(c: WebSocketClient, ms: seq<ClientMessage>)
    requires c.Valid() && !c.isConnected
    modifies c
    ensures c.State() == Opened(SentAll(Dialed(old(c.State())), ms))
    ensures c.trace == old(c.trace) + Transmits(old(c.messageQueue) + ms) + ConnectCalls(old(c.connectionHandlers))
    ensures c.messageQueue == [] && c.reconnectAttempts == 0
  {
    c.Connect();
    var i := 0;
    while i < |ms|
      invariant 0 <= i <= |ms|
      invariant c.Valid() && !c.isConnected && c.ws.Some?
      invariant SentAll(Dialed(old(c.State())), ms) == SentAll(c.State(), ms[i..])
    {
      assert ms[i..][1..] == ms[i + 1..];
      c.Send(ms[i]);
      i := i + 1;
    }
    c.OnOpen();
    DialSendOpen(old(c.State()), ms);
  }
}
