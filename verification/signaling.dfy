/**
 * The signalling relay's routing rules as functions on values: the sockets the
 * server tracks, the lookup of a socket by id, the rewrite of a routed envelope,
 * and one handler step. The imperative handler in module Server is proved to
 * compute exactly `Step`.
 */
module Signaling {
  import opened Json

  /** The four states of a WebSocket; only `Open` sockets are sent to. */
  datatype ReadyState = Connecting | Open | Closing | Closed

  /**
   * One connected socket: the id the relay stored on it (undefined until it
   * sends `start`), its ready state, and every envelope sent to it so far.
   */
  datatype Socket = Socket(id: Option<string>, readyState: ReadyState, outbox: seq<Value>)

  /** What handling one parsed message did. */
  datatype Outcome =
    | Started                 // `start`: id stored on the sender, reply emitted
    | NoDestination           // `data.remoteId` undefined or falsy: dropped
    | UnknownDestination      // no tracked socket has that id: dropped
    | Forwarded(dest: nat)    // envelope handed to the send of socket `dest`
    | Failed                  // a TypeError, caught by the message listener

  const StartAction := Str("start")
  const OfferAction := Str("offer")

  /** The server's acknowledgement of `start`: `{action: 'start', id}`. */
  function Reply(id: string): Value
  {
    Object(map["action" := StartAction, "id" := Str(id)])
  }

  /** `client.id === key`: an id is either undefined or a string, never equal to a non-string. */
  predicate HasId(s: Socket, key: Value)
  {
    s.id.Some? && key == Str(s.id.value)
  }

  /** A socket that has been sent `envelope`: appended to its outbox only when it is open. */
  function Emit(s: Socket, envelope: Value): Socket
  {
    if s.readyState == Open then s.(outbox := s.outbox + [envelope]) else s
  }

  /** The first tracked socket whose id strictly equals `key`, if any. */
  function GetSocketById(clients: seq<Socket>, key: Value): (r: Option<nat>)
    ensures r.Some? ==> r.value < |clients| && HasId(clients[r.value], key)
    ensures r.Some? ==> forall j :: 0 <= j < r.value ==> !HasId(clients[j], key)
    ensures r.None? ==> forall j :: 0 <= j < |clients| ==> !HasId(clients[j], key)
  {
    if clients == [] then None
    else if HasId(clients[0], key) then Some(0)
    else match GetSocketById(clients[1..], key)
      case None => None
      case Some(i) => Some(i + 1)
  }

  /** A message whose `data` is an object, the only shape that can carry a truthy `remoteId`. */
  predicate HasObjectData(msg: Value)
  {
    msg.Object? && "data" in msg.fields && msg.fields["data"].Object?
  }

  /** `action === 'offer'`. */
  predicate IsOffer(msg: Value)
  {
    Get(msg, "action") == Some(OfferAction)
  }

  /**
   * The envelope forwarded for a routed message: for an offer, `data.remoteId`
   * becomes the sender's id; for every other action it is deleted. An offer from
   * a sender without an id sets `remoteId` to undefined, which serialisation drops.
   */
  function Rewrite(msg: Value, sender: Option<string>): (r: Value)
    requires HasObjectData(msg)
    ensures HasObjectData(r)
    ensures r.fields.Keys == msg.fields.Keys
    ensures forall k :: k in msg.fields && k != "data" ==> r.fields[k] == msg.fields[k]
    ensures forall k :: k != "remoteId" ==>
              (k in r.fields["data"].fields <==> k in msg.fields["data"].fields)
    ensures forall k :: k != "remoteId" && k in msg.fields["data"].fields ==>
              r.fields["data"].fields[k] == msg.fields["data"].fields[k]
    ensures IsOffer(msg) && sender.Some? ==>
              Get(r.fields["data"], "remoteId") == Some(Str(sender.value))
    ensures !(IsOffer(msg) && sender.Some?) ==> Get(r.fields["data"], "remoteId") == None
  {
    var data := msg.fields["data"].fields;
    var data' := if IsOffer(msg) && sender.Some? then data["remoteId" := Str(sender.value)]
                 else data - {"remoteId"};
    Object(msg.fields["data" := Object(data')])
  }

  /**
   * Handling one parsed message from socket `src`; `token` stands for the fresh
   * id the id generator would return. Returns the new sockets and the outcome.
   */
  function Step(clients: seq<Socket>, src: nat, msg: Value, token: string): (r: (seq<Socket>, Outcome))
    requires src < |clients|
    ensures |r.0| == |clients|
    ensures forall i :: 0 <= i < |clients| ==> r.0[i].readyState == clients[i].readyState
    ensures forall i :: 0 <= i < |clients| && i != src ==> r.0[i].id == clients[i].id
    ensures r.0[src].id == clients[src].id || (r.1 == Started && r.0[src].id == Some(token))
    ensures forall i :: 0 <= i < |clients| ==>
              r.0[i].outbox == clients[i].outbox ||
              (clients[i].readyState == Open && |r.0[i].outbox| == |clients[i].outbox| + 1 &&
               r.0[i].outbox[..|clients[i].outbox|] == clients[i].outbox)
    ensures forall i, j ::
              (0 <= i < |clients| && 0 <= j < |clients| && i != j &&
               r.0[i].outbox != clients[i].outbox) ==> r.0[j].outbox == clients[j].outbox
  {
    match Member(Some(msg), "action")
    case Throws => (clients, Failed)
    case Yields(action) =>
      if action == Some(StartAction) then Start(clients, src, token)
      else
        match Member(Get(msg, "data"), "remoteId")
        case Throws => (clients, Failed)
        case Yields(remoteId) =>
          if !Truthy(remoteId) then (clients, NoDestination)
          else Forward(clients, src, msg, remoteId.value)
  }

  /** The `start` branch: store the token on the sender and send it the reply. */
  function Start(clients: seq<Socket>, src: nat, token: string): (seq<Socket>, Outcome)
    requires src < |clients|
  {
    var me := clients[src].(id := Some(token));
    (clients[src := Emit(me, Reply(token))], Started)
  }

  /** The routing branch once `remoteId` is known to be truthy: look up, rewrite, send. */
  function Forward(clients: seq<Socket>, src: nat, msg: Value, key: Value): (seq<Socket>, Outcome)
    requires src < |clients| && HasObjectData(msg)
  {
    match GetSocketById(clients, key)
    case None => (clients, UnknownDestination)
    case Some(d) => (clients[d := Emit(clients[d], Rewrite(msg, clients[src].id))], Forwarded(d))
  }

  /** Events in the life of the server: a connection, a close, or an inbound message. */
  datatype Event =
    | Connect
    | Disconnect(index: nat)
    | Message(source: nat, parsed: Option<Value>, token: string)

  /** A freshly accepted socket: open, without an id, nothing sent. */
  const Accepted := Socket(None, Open, [])

  /** The tracked sockets with the one at index `i` taken out. */
  function Remove(clients: seq<Socket>, i: nat): (r: seq<Socket>)
    requires i < |clients|
    ensures |r| == |clients| - 1
    ensures forall j :: 0 <= j < i ==> r[j] == clients[j]
    ensures forall j :: i <= j < |r| ==> r[j] == clients[j + 1]
  {
    clients[..i] + clients[i + 1..]
  }

  /**
   * One event: an accepted socket joins the end of the set, a closed one leaves
   * it (deleting an untracked socket is a no-op), a message that did not parse
   * changes nothing, and a parsed one is handled by `Step`. A socket that is no
   * longer tracked emits no messages, so an out-of-range source changes nothing.
   */
  function Apply(clients: seq<Socket>, e: Event): seq<Socket>
  {
    match e
    case Connect => clients + [Accepted]
    case Disconnect(i) => if i < |clients| then Remove(clients, i) else clients
    case Message(src, parsed, token) =>
      if src < |clients| && parsed.Some? then Step(clients, src, parsed.value, token).0 else clients
  }

  function Run(clients: seq<Socket>, events: seq<Event>): seq<Socket>
    decreases |events|
  {
    if events == [] then clients else Run(Apply(clients, events[0]), events[1..])
  }

  /** The ids currently stored on tracked sockets. */
  function IdsOf(clients: seq<Socket>): set<string>
  {
    set i | 0 <= i < |clients| && clients[i].id.Some? :: clients[i].id.value
  }

  /** No two tracked sockets carry the same id. */
  predicate UniqueIds(clients: seq<Socket>)
  {
    forall i, j :: 0 <= i < |clients| && 0 <= j < |clients| && i != j && clients[i].id.Some? ==>
      clients[i].id != clients[j].id
  }

  /** A parsed `start` message: the only event that can store a new id on a socket. */
  predicate Binds(e: Event)
  {
    e.Message? && e.parsed.Some? && Get(e.parsed.value, "action") == Some(StartAction)
  }

  /** The tokens handed out by the `start` messages of a run. */
  function Tokens(events: seq<Event>): set<string>
    decreases |events|
  {
    if events == [] then {}
    else (if Binds(events[0]) then {events[0].token} else {}) + Tokens(events[1..])
  }

  /**
   * Every `start` in the run comes with a token that no socket tracked at that
   * moment holds; a token may be reused once its holder has closed or restarted.
   */
  predicate FreshTokens(clients: seq<Socket>, events: seq<Event>)
    decreases |events|
  {
    events == [] ||
    ((Binds(events[0]) ==> events[0].token !in IdsOf(clients)) &&
     FreshTokens(Apply(clients, events[0]), events[1..]))
  }
}
