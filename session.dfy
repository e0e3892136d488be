/** The state a `WebsitePortalAPI` instance keeps, as a value, and one
    transition per operation and per socket event that changes it. The
    socket.io connection is an event source: it says when the socket has
    opened, failed to open or closed, it pushes `receiveUrl`, and it
    delivers one acknowledgement per emitted call. */
module Session {
  import opened Wrappers
  import opened Promises
  import opened Wire

  /** The identity of a JavaScript function object handed to the API. */
  type FunctionRef = nat

  /** The argument of `onUrl`: a function, or any value that is not one. */
  datatype Callback = Function(ref: FunctionRef) | NotAFunction

  /** A call the API makes into code of its caller. */
  datatype Invocation =
    | UrlListenerCall(listener: FunctionRef, url: string)
    | DisconnectedCall(callback: FunctionRef)

  /** The socket made by `connect`: whether it is open now, the promise
      `connect` returned, and the `disconnectedCallback` given to it. */
  datatype Socket = Socket(connected: bool, opening: Outcome, onDisconnected: Option<FunctionRef>)

  /** One call of a remote operation: the message emitted for it (none when
      there was no socket to emit on), whether its acknowledgement has come,
      and the promise the call returned. */
  datatype PendingCall = PendingCall(
    operation: Operation,
    emitted: Option<Message>,
    acknowledged: bool,
    outcome: Outcome)

  /** An acknowledgement: the server's error (its `error.error` text) or
      success with the value it returned, if any. */
  datatype Ack = ErrorAck(error: string) | SuccessAck(result: Reply)

  /** The instance fields `_portalId`, `_portalToken`, `_loggedIn`, `_io`
      and `_urlListeners`; `calls` holds every promise an operation
      returned and `invoked` every call into the caller's functions. */
  datatype State = State(
    portalId: Option<string>,
    portalToken: Option<string>,
    loggedIn: bool,
    io: Option<Socket>,
    urlListeners: seq<FunctionRef>,
    calls: seq<PendingCall>,
    invoked: seq<Invocation>)

  /** The `connected` getter: the socket's own flag, false when there is no socket. */
  predicate Connected(s: State)
  {
    match s.io
    case None => false
    case Some(socket) => socket.connected
  }

  /** The `loggedIn` getter. */
  predicate LoggedIn(s: State)
  {
    s.loggedIn
  }

  /** The constructor. */
  function Init(): (s: State)
    ensures s.portalId == None && s.portalToken == None
    ensures !s.loggedIn && s.io == None && s.urlListeners == []
    ensures s.calls == [] && s.invoked == []
    ensures !Connected(s) && !LoggedIn(s)
  {
    State(None, None, false, None, [], [], [])
  }

  /** `connect(disconnectedCallback)`: a new socket, not open yet, and a
      pending promise for its opening. */
  function Connect(s: State, onDisconnected: Option<FunctionRef>): State
  {
    s.(io := Some(Socket(false, Pending, onDisconnected)))
  }

  /** The socket's `connect` event: the socket is open and `connect`'s
      promise resolves. */
  function OnConnect(s: State): State
    requires s.io.Some?
  {
    var socket := s.io.value;
    s.(io := Some(socket.(connected := true, opening := Settle(socket.opening, Resolved(Undefined)))))
  }

  /** The socket's `connect_error` event: `connect`'s promise rejects with
      the error, or with "Connection failed" when there is none. */
  function OnConnectError(s: State, error: Option<string>): State
    requires s.io.Some?
  {
    var socket := s.io.value;
    s.(io := Some(socket.(opening := Settle(socket.opening, Rejected(error.GetOr("Connection failed"))))))
  }

  /** The socket's `disconnect` event. The handler is a plain function, so
      the three assignments in it write to the socket object, not to the
      instance: the instance keeps its id, token and logged-in flag. What
      changes is the socket's own flag, and the callback runs if given. */
  function OnDisconnect(s: State): State
    requires s.io.Some?
  {
    var socket := s.io.value;
    var called := match socket.onDisconnected
      case Some(f) => [DisconnectedCall(f)]
      case None => [];
    s.(io := Some(socket.(connected := false)), invoked := s.invoked + called)
  }

  /** The calls `_urlListeners.forEach` makes for `url`, in list order. */
  function Fanout(listeners: seq<FunctionRef>, url: string): seq<Invocation>
  {
    if |listeners| == 0 then []
    else Fanout(listeners[..|listeners| - 1], url) + [UrlListenerCall(listeners[|listeners| - 1], url)]
  }

  /** `_receiveUrl(url)`, run by the socket's `receiveUrl` push. */
  function ReceiveUrl(s: State, url: string): State
  {
    s.(invoked := s.invoked + Fanout(s.urlListeners, url))
  }

  /** `onUrl(callback)`: the new state, and the error it throws, if any. */
  function OnUrl(s: State, callback: Callback): (r: (State, Option<string>))
    ensures callback.Function? <==> r.1 == None
    ensures callback.Function? ==> r.0 == s.(urlListeners := s.urlListeners + [callback.ref])
    ensures !callback.Function? ==> r.0 == s && r.1 == Some("Callback is not a function")
  {
    match callback
    case Function(f) => (s.(urlListeners := s.urlListeners + [f]), None)
    case NotAFunction => (s, Some("Callback is not a function"))
  }

  /** One remote operation (`register` ... `sendUrl`). When not connected
      its promise is rejected at once, but the source does not return after
      the rejection, so the message is still emitted whenever a socket
      exists. With no socket at all the emit throws inside the promise's
      executor after the rejection, which then has no further effect. */
  function Call(s: State, op: Operation, hash: string -> string): State
  {
    var outcome := if Connected(s) then Pending else Settle(Pending, Rejected("Not connected"));
    var emitted := if s.io.Some? then Some(Encode(op, hash)) else None;
    s.(calls := s.calls + [PendingCall(op, emitted, false, outcome)])
  }

  /** What `op`'s callback settles its promise with: the `error.error` text
      on an error; otherwise the returned data for register, the two pairing
      code getters and getPairedPortalsData, and `undefined` for the rest. */
  function Answer(op: Operation, ack: Ack): Outcome
  {
    match ack
    case ErrorAck(e) => Rejected(e)
    case SuccessAck(result) =>
      if op.Register? || op.GetPairingCode? || op.ResetPairingCode? || op.GetPairedPortalsData?
      then Resolved(result) else Resolved(Undefined)
  }

  /** The acknowledgement callback is still waiting for call `k`. */
  predicate Awaiting(s: State, k: nat)
  {
    k < |s.calls| && s.calls[k].emitted.Some? && !s.calls[k].acknowledged
  }

  /** An acknowledgement for call `k` runs that call's callback once. One for
      a call never emitted, or already acknowledged, finds no callback. The
      login callback also writes the instance's id and token: cleared on an
      error, the given id and the PLAINTEXT token on success. */
  function Acknowledge(s: State, k: nat, ack: Ack): State
  {
    if !Awaiting(s, k) then s
    else
      var c := s.calls[k];
      var s' := s.(calls := s.calls[k := c.(acknowledged := true, outcome := Settle(c.outcome, Answer(c.operation, ack)))]);
      match c.operation
      case Login(id, token) =>
        if ack.ErrorAck? then s'.(portalId := None, portalToken := None)
        else s'.(portalId := Some(id), portalToken := Some(token))
      case _ => s'
  }

  // ---------------------------------------------------------------------
  // Properties of single transitions

  /** The `connected` getter through the socket's life: false when made,
      true once open, false after an error or a disconnect. */
  lemma ConnectedThroughLifecycle(s: State, onDisconnected: Option<FunctionRef>, error: Option<string>)
    ensures !Connected(Connect(s, onDisconnected))
    ensures var c := Connect(s, onDisconnected);
      Connected(OnConnect(c))
      && !Connected(OnConnectError(c, error))
      && !Connected(OnDisconnect(OnConnect(c)))
      && OnConnect(c).io.value.opening == Resolved(Undefined)
      && OnConnectError(c, error).io.value.opening == Rejected(error.GetOr("Connection failed"))
  {
  }

  /** A disconnect leaves the id, the token and the logged-in flag as they
      were, closes the socket, and calls the callback exactly when one was
      given. */
  lemma DisconnectKeepsCredentials(s: State)
    requires s.io.Some?
    ensures var r := OnDisconnect(s);
      r.portalId == s.portalId && r.portalToken == s.portalToken && r.loggedIn == s.loggedIn
      && !Connected(r) && r.calls == s.calls && r.urlListeners == s.urlListeners
      && r.invoked == s.invoked + (if s.io.value.onDisconnected.Some?
                                   then [DisconnectedCall(s.io.value.onDisconnected.value)] else [])
  {
  }

  lemma {:induction false} FanoutLength(listeners: seq<FunctionRef>, url: string)
    ensures |Fanout(listeners, url)| == |listeners|
  {
    if |listeners| > 0 {
      FanoutLength(listeners[..|listeners| - 1], url);
    }
  }

  /** The i-th call of the fan-out goes to the i-th listener, with `url`. */
  lemma {:induction false} FanoutAt(listeners: seq<FunctionRef>, url: string, i: nat)
    requires i < |listeners|
    ensures |Fanout(listeners, url)| == |listeners|
    ensures Fanout(listeners, url)[i] == UrlListenerCall(listeners[i], url)
  {
    var n := |listeners|;
    FanoutLength(listeners, url);
    FanoutLength(listeners[..n - 1], url);
    if i < n - 1 {
      FanoutAt(listeners[..n - 1], url, i);
    }
  }

  /** `_receiveUrl(url)` calls every registered listener once, in
      registration order, each with `url`, and changes nothing else. */
  lemma ReceiveUrlCallsEachListener(s: State, url: string)
    ensures var r := ReceiveUrl(s, url);
      |r.invoked| == |s.invoked| + |s.urlListeners|
      && r.invoked[..|s.invoked|] == s.invoked
      && (forall i :: 0 <= i < |s.urlListeners| ==>
            r.invoked[|s.invoked| + i] == UrlListenerCall(s.urlListeners[i], url))
      && r == s.(invoked := r.invoked)
  {
    var r := ReceiveUrl(s, url);
    FanoutLength(s.urlListeners, url);
    forall i | 0 <= i < |s.urlListeners|
      ensures r.invoked[|s.invoked| + i] == UrlListenerCall(s.urlListeners[i], url)
    {
      FanoutAt(s.urlListeners, url, i);
    }
  }

  /** Every operation appends one call whose message is the operation's
      fixed name and payload, unless there is no socket to emit on. */
  lemma CallEmits(s: State, op: Operation, hash: string -> string)
    ensures var r := Call(s, op, hash);
      |r.calls| == |s.calls| + 1 && r.calls[..|s.calls|] == s.calls
      && r == s.(calls := r.calls)
      && r.calls[|s.calls|].operation == op
      && !r.calls[|s.calls|].acknowledged
      && (s.io.Some? ==> r.calls[|s.calls|].emitted == Some(Message(EventName(op), Args(op, hash))))
      && (s.io.None? ==> r.calls[|s.calls|].emitted == None)
  {
  }

  /** The connected guard: connected, the call waits for its acknowledgement;
      not connected, its promise is already rejected with "Not connected"
      and, with a socket present, the message is emitted all the same. */
  lemma CallGuard(s: State, op: Operation, hash: string -> string)
    ensures var r := Call(s, op, hash);
      (Connected(s) ==> r.calls[|s.calls|].outcome == Pending && Awaiting(r, |s.calls|))
      && (!Connected(s) ==> r.calls[|s.calls|].outcome == Rejected("Not connected"))
      && (!Connected(s) && s.io.Some? ==> Awaiting(r, |s.calls|))
  {
  }

  /** The login acknowledgement. An error clears the id and the token and
      rejects with the error text; success stores the id and the plaintext
      token and resolves. Nothing else changes: in particular `loggedIn`. */
  lemma LoginAck(s: State, k: nat, ack: Ack)
    requires Awaiting(s, k) && s.calls[k].operation.Login?
    ensures var r := Acknowledge(s, k, ack);
      var op := s.calls[k].operation;
      var was := s.calls[k].outcome;
      |r.calls| == |s.calls|
      && r.calls[k] == s.calls[k].(acknowledged := true, outcome := r.calls[k].outcome)
      && (forall j :: 0 <= j < |s.calls| && j != k ==> r.calls[j] == s.calls[j])
      && r.loggedIn == s.loggedIn && r.io == s.io
      && r.urlListeners == s.urlListeners && r.invoked == s.invoked
      && (ack.ErrorAck? ==>
            r.portalId == None && r.portalToken == None
            && r.calls[k].outcome == (if was.Pending? then Rejected(ack.error) else was))
      && (ack.SuccessAck? ==>
            r.portalId == Some(op.id) && r.portalToken == Some(op.token)
            && r.calls[k].outcome == (if was.Pending? then Resolved(Undefined) else was))
  {
  }

  /** Any other acknowledgement changes no field of the instance: it only
      settles the call's promise, rejected with the error text, or resolved
      with the returned value for the operations that return one. */
  lemma OtherAck(s: State, k: nat, ack: Ack)
    requires Awaiting(s, k) && !s.calls[k].operation.Login?
    ensures var r := Acknowledge(s, k, ack);
      var op := s.calls[k].operation;
      var was := s.calls[k].outcome;
      var returnsData := op.Register? || op.GetPairingCode? || op.ResetPairingCode? || op.GetPairedPortalsData?;
      r == s.(calls := s.calls[k := s.calls[k].(acknowledged := true, outcome := r.calls[k].outcome)])
      && (!was.Pending? ==> r.calls[k].outcome == was)
      && (was.Pending? && ack.ErrorAck? ==> r.calls[k].outcome == Rejected(ack.error))
      && (was.Pending? && ack.SuccessAck? && returnsData ==> r.calls[k].outcome == Resolved(ack.result))
      && (was.Pending? && ack.SuccessAck? && !returnsData ==> r.calls[k].outcome == Resolved(Undefined))
  {
  }

  /** A second acknowledgement of the same call changes nothing. */
  lemma AckOnce(s: State, k: nat, first: Ack, second: Ack)
    ensures var r := Acknowledge(s, k, first);
      Acknowledge(r, k, second) == r
  {
  }

  // ---------------------------------------------------------------------
  // Traces

  /** Everything that can happen to an instance: its methods being called,
      and the socket's events. */
  datatype Event =
    | ConnectCalled(onDisconnected: Option<FunctionRef>)
    | OperationCalled(op: Operation)
    | OnUrlCalled(callback: Callback)
    | SocketConnect
    | SocketConnectError(error: Option<string>)
    | SocketDisconnect
    | SocketReceiveUrl(url: string)
    | SocketAck(call: nat, ack: Ack)

  /** One event. Socket events need a socket: without one none can arrive,
      and the state stays as it is. */
  function Step(s: State, e: Event, hash: string -> string): State
  {
    match e
    case ConnectCalled(cb) => Connect(s, cb)
    case OperationCalled(op) => Call(s, op, hash)
    case OnUrlCalled(cb) => OnUrl(s, cb).0
    case SocketConnect => if s.io.Some? then OnConnect(s) else s
    case SocketConnectError(error) => if s.io.Some? then OnConnectError(s, error) else s
    case SocketDisconnect => if s.io.Some? then OnDisconnect(s) else s
    case SocketReceiveUrl(url) => if s.io.Some? then ReceiveUrl(s, url) else s
    case SocketAck(k, ack) => Acknowledge(s, k, ack)
  }

  function Run(s: State, events: seq<Event>, hash: string -> string): State
    decreases |events|
  {
    if events == [] then s else Run(Step(s, events[0], hash), events[1..], hash)
  }

  /** What no event undoes: `_loggedIn` keeps its value; the listener list,
      the calls into caller code and the list of calls only grow; a call
      keeps its operation and its message, stays acknowledged once it is,
      and a settled promise keeps its outcome. */
  ghost predicate Extends(s: State, r: State)
  {
    && r.loggedIn == s.loggedIn
    && s.urlListeners <= r.urlListeners
    && s.invoked <= r.invoked
    && |s.calls| <= |r.calls|
    && (forall k :: 0 <= k < |s.calls| ==>
          && r.calls[k].operation == s.calls[k].operation
          && r.calls[k].emitted == s.calls[k].emitted
          && (s.calls[k].acknowledged ==> r.calls[k].acknowledged)
          && (!s.calls[k].outcome.Pending? ==> r.calls[k].outcome == s.calls[k].outcome))
  }

  lemma StepExtends(s: State, e: Event, hash: string -> string)
    ensures Extends(s, Step(s, e, hash))
  {
    match e
    case SocketReceiveUrl(url) =>
      if s.io.Some? { ReceiveUrlCallsEachListener(s, url); }
    case _ =>
  }

  lemma {:induction false} RunExtends(s: State, events: seq<Event>, hash: string -> string)
    ensures Extends(s, Run(s, events, hash))
    decreases |events|
  {
    if events != [] {
      var s1 := Step(s, events[0], hash);
      StepExtends(s, events[0], hash);
      RunExtends(s1, events[1..], hash);
    }
  }

  /** `_loggedIn` is false after construction and no method or event sets
      it: the `loggedIn` getter is false in every reachable state. */
  lemma NeverLoggedIn(events: seq<Event>, hash: string -> string)
    ensures !LoggedIn(Run(Init(), events, hash))
  {
    RunExtends(Init(), events, hash);
  }

  /** A call made while not connected is rejected with "Not connected" and
      stays so whatever happens next, acknowledgements included. */
  lemma NotConnectedStaysRejected(s: State, op: Operation, hash: string -> string, later: seq<Event>)
    requires !Connected(s)
    ensures var r := Run(Call(s, op, hash), later, hash);
      |s.calls| < |r.calls| && r.calls[|s.calls|].operation == op
      && r.calls[|s.calls|].outcome == Rejected("Not connected")
  {
    var s1 := Call(s, op, hash);
    CallGuard(s, op, hash);
    RunExtends(s1, later, hash);
  }

  /** A listener, once registered, stays registered at its position. */
  lemma ListenersAppendOnly(s: State, events: seq<Event>, hash: string -> string, i: nat)
    requires i < |s.urlListeners|
    ensures var r := Run(s, events, hash);
      i < |r.urlListeners| && r.urlListeners[i] == s.urlListeners[i]
  {
    RunExtends(s, events, hash);
  }
}
