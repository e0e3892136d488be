/** The remote operations of the portal API and the socket.io messages that
    carry them: an event name followed by its positional arguments (the
    acknowledgement callback, always last, is not part of the message). */
module Wire {
  import opened Wrappers

  /** A remote operation as the caller of the API asks for it. `Login`
      carries the caller's plaintext token; only its hash goes on the wire. */
  datatype Operation =
    | Register(platform: string, name: string)
    | Login(id: string, token: string)
    | GetPairingCode
    | ResetPairingCode
    | RemovePairingCode
    | GetPairedPortalsData
    | Rename(name: string)
    | Pair(code: string)
    | SendUrl(id: string, url: string)

  datatype Field = Field(key: string, value: string)

  /** One positional argument: a plain value or an object literal. */
  datatype Arg = Text(text: string) | Record(fields: seq<Field>)

  datatype Message = Message(event: string, args: seq<Arg>)

  /** The fixed socket.io event name of each operation. */
  function EventName(op: Operation): string
  {
    match op
    case Register(_, _) => "register"
    case Login(_, _) => "login"
    case GetPairingCode => "getPairingCode"
    case ResetPairingCode => "resetPairingCode"
    case RemovePairingCode => "removePairingCode"
    case GetPairedPortalsData => "getPairedPortalsData"
    case Rename(_) => "rename"
    case Pair(_) => "pair"
    case SendUrl(_, _) => "sendUrl"
  }

  /** The payload: `{platform, name}` for register, `{id, token: hash(token)}`
      for login, the name, the code, or the id and the url positionally for
      rename, pair and sendUrl, and nothing for the other four. */
  function Args(op: Operation, hash: string -> string): seq<Arg>
  {
    match op
    case Register(platform, name) => [Record([Field("platform", platform), Field("name", name)])]
    case Login(id, token) => [Record([Field("id", id), Field("token", hash(token))])]
    case GetPairingCode => []
    case ResetPairingCode => []
    case RemovePairingCode => []
    case GetPairedPortalsData => []
    case Rename(name) => [Text(name)]
    case Pair(code) => [Text(code)]
    case SendUrl(id, url) => [Text(id), Text(url)]
  }

  /** The message `emit` puts on the socket for `op`. */
  function Encode(op: Operation, hash: string -> string): Message
  {
    Message(EventName(op), Args(op, hash))
  }

  /** The operation as the server sees it: a login's token replaced by its hash. */
  function OnTheWire(op: Operation, hash: string -> string): Operation
  {
    match op
    case Login(id, token) => Login(id, hash(token))
    case _ => op
  }

  /** The two values of an object literal with exactly the keys `k1`, `k2`. */
  function Pair2(args: seq<Arg>, k1: string, k2: string): Option<(string, string)>
  {
    if |args| == 1 && args[0].Record? && |args[0].fields| == 2
       && args[0].fields[0].key == k1 && args[0].fields[1].key == k2
    then Some((args[0].fields[0].value, args[0].fields[1].value))
    else None
  }

  /** How a receiver reads a message back into the operation it carries. */
  function Decode(m: Message): Option<Operation>
  {
    var a := m.args;
    if m.event == "register" then
      match Pair2(a, "platform", "name")
      case Some(p) => Some(Register(p.0, p.1))
      case None => None
    else if m.event == "login" then
      match Pair2(a, "id", "token")
      case Some(p) => Some(Login(p.0, p.1))
      case None => None
    else if m.event == "getPairingCode" && a == [] then Some(GetPairingCode)
    else if m.event == "resetPairingCode" && a == [] then Some(ResetPairingCode)
    else if m.event == "removePairingCode" && a == [] then Some(RemovePairingCode)
    else if m.event == "getPairedPortalsData" && a == [] then Some(GetPairedPortalsData)
    else if m.event == "rename" && |a| == 1 && a[0].Text? then Some(Rename(a[0].text))
    else if m.event == "pair" && |a| == 1 && a[0].Text? then Some(Pair(a[0].text))
    else if m.event == "sendUrl" && |a| == 2 && a[0].Text? && a[1].Text? then Some(SendUrl(a[0].text, a[1].text))
    else None
  }

  /** Every emitted message carries its operation completely, with the login
      token hashed: the receiver recovers exactly what the caller asked for. */
  lemma DecodeEncode(op: Operation, hash: string -> string)
    ensures Decode(Encode(op, hash)) == Some(OnTheWire(op, hash))
  {
    match op
    case Register(platform, name) =>
    case Login(id, token) =>
    case GetPairingCode =>
    case ResetPairingCode =>
    case RemovePairingCode =>
    case GetPairedPortalsData =>
    case Rename(name) =>
    case Pair(code) =>
    case SendUrl(id, url) =>
  }

  /** Different operations (up to the hash of a login token) give different
      messages, and the event name alone tells the kind of operation. */
  lemma EncodeInjective(op1: Operation, op2: Operation, hash: string -> string)
    requires Encode(op1, hash) == Encode(op2, hash)
    ensures OnTheWire(op1, hash) == OnTheWire(op2, hash)
  {
    DecodeEncode(op1, hash);
    DecodeEncode(op2, hash);
  }

  /** The login message carries the id and the hash of the token, never the
      plaintext token unless the hash happens to equal it. */
  lemma LoginSendsHash(id: string, token: string, hash: string -> string)
    ensures Encode(Login(id, token), hash).event == "login"
    ensures Decode(Encode(Login(id, token), hash)) == Some(Login(id, hash(token)))
    ensures hash(token) != token ==> Decode(Encode(Login(id, token), hash)) != Some(Login(id, token))
  {
    DecodeEncode(Login(id, token), hash);
  }
}
