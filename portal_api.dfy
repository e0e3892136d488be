/** The `WebsitePortalAPI` class: the instance fields, updated in place by
    its methods and by the socket's event handlers. Each method is proved
    to take the instance from `old(Abs())` to the state the corresponding
    transition of `Session` gives, and to keep `Valid()`. */
module PortalApi {
  import opened Wrappers
  import opened Promises
  import opened Wire
  import Session

  class WebsitePortalApi {
    /** `bcrypt.hashSync(·, 8)`, a foreign library the model treats as an
        uninterpreted function. */
    const hash: string -> string

    var portalId: Option<string>
    var portalToken: Option<string>
    var loggedIn: bool
    var io: Option<Session.Socket>
    var urlListeners: seq<Session.FunctionRef>
    /** Every promise an operation has returned, with its emitted message. */
    var calls: seq<Session.PendingCall>
    /** Every call the instance has made into its caller's functions. */
    var invoked: seq<Session.Invocation>

    /** The instance as a value of the state model. */
    function Abs(): Session.State
      reads this
    {
      Session.State(portalId, portalToken, loggedIn, io, urlListeners, calls, invoked)
    }

    /** The object invariant: nothing ever sets `_loggedIn`. */
    ghost predicate Valid()
      reads this
    {
      !loggedIn
    }

    constructor (hash: string -> string)
      ensures Valid() && this.hash == hash
      ensures Abs() == Session.Init()
    {
      this.hash := hash;
      portalId := None;
      portalToken := None;
      loggedIn := false;
      io := None;
      urlListeners := [];
      calls := [];
      invoked := [];
    }

    /** The `connected` getter. */
    function Connected(): (r: bool)
      reads this
      ensures r == Session.Connected(Abs())
    {
      if io.Some? then io.value.connected else false
    }

    /** The `loggedIn` getter. */
    function LoggedIn(): (r: bool)
      reads this
      ensures r == Session.LoggedIn(Abs())
      ensures Valid() ==> !r
    {
      loggedIn
    }

    method Connect(onDisconnected: Option<Session.FunctionRef>)
      requires Valid()
      modifies this
      ensures Valid() && Abs() == Session.Connect(old(Abs()), onDisconnected)
    {
      io := Some(Session.Socket(false, Pending, onDisconnected));
    }

    /** The socket's `connect` handler. */
    method HandleConnect()
      requires Valid() && io.Some?
      modifies this
      ensures Valid() && Abs() == Session.OnConnect(old(Abs()))
    {
      var socket := io.value;
      io := Some(socket.(connected := true, opening := Settle(socket.opening, Resolved(Undefined))));
    }

    /** The socket's `connect_error` handler. */
    method HandleConnectError(error: Option<string>)
      requires Valid() && io.Some?
      modifies this
      ensures Valid() && Abs() == Session.OnConnectError(old(Abs()), error)
    {
      var socket := io.value;
      var reason := if error.Some? then error.value else "Connection failed";
      io := Some(socket.(opening := Settle(socket.opening, Rejected(reason))));
    }

    /** The socket's `disconnect` handler: its `this` is the socket, so the
        instance's id, token and logged-in flag are left alone. */
    method HandleDisconnect()
      requires Valid() && io.Some?
      modifies this
      ensures Valid() && Abs() == Session.OnDisconnect(old(Abs()))
      ensures portalId == old(portalId) && portalToken == old(portalToken)
    {
      var socket := io.value;
      io := Some(socket.(connected := false));
      if socket.onDisconnected.Some? {
        invoked := invoked + [Session.DisconnectedCall(socket.onDisconnected.value)];
      }
    }

    /** The socket's `receiveUrl` handler. */
    method HandleReceiveUrl(url: string)
      requires Valid() && io.Some?
      modifies this
      ensures Valid() && Abs() == Session.ReceiveUrl(old(Abs()), url)
    {
      ReceiveUrl(url);
    }

    /** `_receiveUrl(url)`: `forEach` over the listeners present when it starts. */
    method ReceiveUrl(url: string)
      requires Valid()
      modifies this
      ensures Valid() && Abs() == Session.ReceiveUrl(old(Abs()), url)
    {
      var listeners := urlListeners;
      var i := 0;
      while i < |listeners|
        invariant 0 <= i <= |listeners|
        invariant Abs() == old(Abs()).(invoked := old(invoked) + Session.Fanout(listeners[..i], url))
      {
        invoked := invoked + [Session.UrlListenerCall(listeners[i], url)];
        assert listeners[..i + 1][..i] == listeners[..i];
        i := i + 1;
      }
      assert listeners[..i] == listeners;
    }

    /** `onUrl(callback)`; `thrown` is the error it throws, if any. */
    method OnUrl(callback: Session.Callback) returns (thrown: Option<string>)
      requires Valid()
      modifies this
      ensures Valid() && (Abs(), thrown) == Session.OnUrl(old(Abs()), callback)
    {
      if !callback.Function? {
        thrown := Some("Callback is not a function");
        return;
      }
      urlListeners := urlListeners + [callback.ref];
      thrown := None;
    }

    /** The pattern every remote operation follows: a promise, the connected
        guard (which rejects but does not return), then the emit. `k` is the
        index of the new call in `calls`. */
    method Invoke(op: Operation) returns (k: nat)
      requires Valid()
      modifies this
      ensures Valid() && k == |old(calls)|
      ensures Abs() == Session.Call(old(Abs()), op, hash)
    {
      var outcome := Pending;
      if !Connected() {
        outcome := Settle(outcome, Rejected("Not connected"));
      }
      var emitted := None;
      if io.Some? {
        emitted := Some(Encode(op, hash));
      }
      k := |calls|;
      calls := calls + [Session.PendingCall(op, emitted, false, outcome)];
    }

    method Register(platform: string, name: string) returns (k: nat)
      requires Valid()
      modifies this
      ensures Valid() && k == |old(calls)|
      ensures Abs() == Session.Call(old(Abs()), Wire.Register(platform, name), hash)
    {
      k := Invoke(Wire.Register(platform, name));
    }

    method Login(id: string, token: string) returns (k: nat)
      requires Valid()
      modifies this
      ensures Valid() && k == |old(calls)|
      ensures Abs() == Session.Call(old(Abs()), Wire.Login(id, token), hash)
    {
      k := Invoke(Wire.Login(id, token));
    }

    method GetPairingCode() returns (k: nat)
      requires Valid()
      modifies this
      ensures Valid() && k == |old(calls)|
      ensures Abs() == Session.Call(old(Abs()), Wire.GetPairingCode, hash)
    {
      k := Invoke(Wire.GetPairingCode);
    }

    method ResetPairingCode() returns (k: nat)
      requires Valid()
      modifies this
      ensures Valid() && k == |old(calls)|
      ensures Abs() == Session.Call(old(Abs()), Wire.ResetPairingCode, hash)
    {
      k := Invoke(Wire.ResetPairingCode);
    }

    method RemovePairingCode() returns (k: nat)
      requires Valid()
      modifies this
      ensures Valid() && k == |old(calls)|
      ensures Abs() == Session.Call(old(Abs()), Wire.RemovePairingCode, hash)
    {
      k := Invoke(Wire.RemovePairingCode);
    }

    method GetPairedPortalsData() returns (k: nat)
      requires Valid()
      modifies this
      ensures Valid() && k == |old(calls)|
      ensures Abs() == Session.Call(old(Abs()), Wire.GetPairedPortalsData, hash)
    {
      k := Invoke(Wire.GetPairedPortalsData);
    }

    method Rename(name: string) returns (k: nat)
      requires Valid()
      modifies this
      ensures Valid() && k == |old(calls)|
      ensures Abs() == Session.Call(old(Abs()), Wire.Rename(name), hash)
    {
      k := Invoke(Wire.Rename(name));
    }

    method Pair(code: string) returns (k: nat)
      requires Valid()
      modifies this
      ensures Valid() && k == |old(calls)|
      ensures Abs() == Session.Call(old(Abs()), Wire.Pair(code), hash)
    {
      k := Invoke(Wire.Pair(code));
    }

    method SendUrl(id: string, url: string) returns (k: nat)
      requires Valid()
      modifies this
      ensures Valid() && k == |old(calls)|
      ensures Abs() == Session.Call(old(Abs()), Wire.SendUrl(id, url), hash)
    {
      k := Invoke(Wire.SendUrl(id, url));
    }

    /** The socket delivers the acknowledgement for call `k`, which runs that
        call's callback if it is still waiting for one. */
    method HandleAck(k: nat, ack: Session.Ack)
      requires Valid()
      modifies this
      ensures Valid() && Abs() == Session.Acknowledge(old(Abs()), k, ack)
    {
      if !(k < |calls| && calls[k].emitted.Some? && !calls[k].acknowledged) {
        return;
      }
      var c := calls[k];
      var outcome := c.outcome;
      if ack.ErrorAck? {
        if c.operation.Login? {
          portalId := None;
          portalToken := None;
        }
        outcome := Settle(outcome, Rejected(ack.error));
      } else {
        if c.operation.Login? {
          portalId := Some(c.operation.id);
          portalToken := Some(c.operation.token);
        }
        outcome := Settle(outcome, Session.Answer(c.operation, ack));
      }
      calls := calls[k := c.(acknowledged := true, outcome := outcome)];
    }
  }

  /** The scenario of two listeners: both run once, in registration order. */
  method TwoListeners(hash: string -> string)
  {
    var api := new WebsitePortalApi(hash);
    var thrown := api.OnUrl(Session.Function(1));
    thrown := api.OnUrl(Session.Function(2));
    api.Connect(None);
    api.HandleConnect();
    ghost var before := api.Abs();
    assert before.urlListeners == [1, 2] && before.invoked == [];
    api.HandleReceiveUrl("http://a");
    Session.ReceiveUrlCallsEachListener(before, "http://a");
    assert api.invoked == Session.ReceiveUrl(before, "http://a").invoked;
    assert before.urlListeners[0] == 1 && before.urlListeners[1] == 2;
    assert api.invoked[0] == Session.UrlListenerCall(1, "http://a");
    assert api.invoked[1] == Session.UrlListenerCall(2, "http://a");
    assert api.invoked == [Session.UrlListenerCall(1, "http://a"), Session.UrlListenerCall(2, "http://a")];
  }

  /** Connect, log in, then send a URL the server refuses. The login
      stores the plaintext token and leaves `loggedIn` false; the refused
      send rejects with the server's text. */
  method LoginThenRefusedSend(hash: string -> string)
  {
    var api := new WebsitePortalApi(hash);
    api.Connect(None);
    api.HandleConnect();
    var login := api.Login("p1", "secret");
    assert api.calls[login].emitted == Some(Encode(Wire.Login("p1", "secret"), hash));
    api.HandleAck(login, Session.SuccessAck(Undefined));
    assert api.calls[login].outcome == Resolved(Undefined);
    assert api.portalId == Some("p1") && api.portalToken == Some("secret");
    assert !api.LoggedIn();
    var send := api.SendUrl("p2", "http://example.com");
    api.HandleAck(send, Session.ErrorAck("not paired"));
    assert api.calls[send].outcome == Rejected("not paired");
  }

  /** A call on a socket that has not opened yet: rejected at once, emitted
      all the same, and a later success acknowledgement cannot resolve it. */
  method CallBeforeOpen(hash: string -> string)
  {
    var api := new WebsitePortalApi(hash);
    api.Connect(None);
    var k := api.Pair("1234");
    assert api.calls[k].outcome == Rejected("Not connected");
    assert api.calls[k].emitted == Some(Message("pair", [Text("1234")]));
    api.HandleAck(k, Session.SuccessAck(Undefined));
    assert api.calls[k].outcome == Rejected("Not connected");
  }
}
