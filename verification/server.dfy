/**
 * The relay's mutable state and its message handler, written as the server
 * runs it: the id is stored on the sending socket, the envelope is edited in
 * place and then sent. `clients` stands for the WebSocket server's set of
 * tracked sockets, in insertion order.
 */
module Server {
  import opened Json
  import opened Signaling

  class Relay {
    var clients: seq<Socket>

    /** A server that has accepted no connection yet. */
    constructor ()
      ensures clients == []
    {
      clients := [];
    }

    /** A new connection: the socket joins the tracked set, open and without an id. */
    method Accept()
      modifies this
      ensures clients == old(clients) + [Accepted]
    {
      clients := clients + [Accepted];
    }

    /** A connection closes: the socket leaves the tracked set; the others keep their order. */
    method Disconnect(i: nat)
      requires i < |clients|
      modifies this
      ensures clients == Remove(old(clients), i)
    {
      clients := clients[..i] + clients[i + 1..];
    }

    /** `emitMessage`: send only when the socket is open; otherwise do nothing. */
    method EmitMessage(i: nat, envelope: Value)
      requires i < |clients|
      modifies this
      ensures clients == old(clients)[i := Emit(old(clients)[i], envelope)]
    {
      if clients[i].readyState == Open {
        clients := clients[i := clients[i].(outbox := clients[i].outbox + [envelope])];
      }
    }

    /**
     * `handleJsonMessage` for a message from socket `src`; `token` stands for
     * the id the generator returns. A thrown TypeError is reported as `Failed`,
     * before anything has changed.
     */
    method HandleJsonMessage(src: nat, msg: Value, token: string) returns (outcome: Outcome)
      requires src < |clients|
      modifies this
      ensures (clients, outcome) == Step(old(clients), src, msg, token)
    {
      if msg.Null? {
        return Failed;  // reading `action` of null
      }
      var action := Get(msg, "action");
      if action == Some(StartAction) {
        var me := clients[src].(id := Some(token));
        clients := clients[src := me];
        EmitMessage(src, Reply(token));
        assert clients == old(clients)[src := Emit(me, Reply(token))];
        return Started;
      }
      var data := Get(msg, "data");
      if data.None? || data.value.Null? {
        return Failed;  // reading `remoteId` of undefined or null
      }
      var remoteId := Get(data.value, "remoteId");
      if !Truthy(remoteId) {
        return NoDestination;
      }
      var dest := GetSocketById(clients, remoteId.value);
      if dest.None? {
        return UnknownDestination;
      }
      var fields := data.value.fields;
      if action != Some(OfferAction) {
        fields := fields - {"remoteId"};
      } else if clients[src].id.Some? {
        fields := fields["remoteId" := Str(clients[src].id.value)];
      } else {
        fields := fields - {"remoteId"};  // set to undefined, which serialisation omits
      }
      var envelope := Object(msg.fields["data" := Object(fields)]);
      EmitMessage(dest.value, envelope);
      return Forwarded(dest.value);
    }

    /**
     * The socket's `message` listener: a message that does not parse (`None`)
     * and a message whose handling throws are both dropped, changing nothing.
     */
    method OnMessage(src: nat, parsed: Option<Value>, token: string)
      requires src < |clients|
      modifies this
      ensures clients == Apply(old(clients), Message(src, parsed, token))
      ensures parsed.None? ==> clients == old(clients)
    {
      if parsed.Some? {
        var _ := HandleJsonMessage(src, parsed.value, token);
      }
    }
  }
}
