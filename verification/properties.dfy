/**
 * What one handled message does, outcome by outcome, and what the relay keeps
 * true over a whole run of connections, closes and messages.
 */
module SignalingProperties {
  import opened Json
  import opened Signaling

  /** `action === 'start'`; a null message has no action. */
  predicate IsStart(msg: Value)
  {
    Get(msg, "action") == Some(StartAction)
  }

  /** The value of `data.remoteId`, undefined when `data` is missing or is not an object. */
  function RemoteId(msg: Value): Option<Value>
  {
    match Get(msg, "data")
    case None => None
    case Some(data) => Get(data, "remoteId")
  }

  /** Handling throws: reading `action` of null, or `remoteId` of an undefined or null `data`. */
  predicate HandlingThrows(msg: Value)
  {
    msg.Null? || (!IsStart(msg) && Get(msg, "data") in {None, Some(Null)})
  }

  /**
   * Handling fails exactly when it throws, and a message whose handling throws
   * is dropped: nothing changes.
   */
  lemma FailureChangesNothing(clients: seq<Socket>, src: nat, msg: Value, token: string)
    requires src < |clients|
    ensures Step(clients, src, msg, token).1 == Failed <==> HandlingThrows(msg)
    ensures HandlingThrows(msg) ==> Step(clients, src, msg, token).0 == clients
  {
  }

  /**
   * `start` stores the token on the sender, overwriting any earlier id, and
   * sends it `{action: 'start', id: token}` if it is open; no other socket changes.
   */
  lemma StartBindsToken(clients: seq<Socket>, src: nat, msg: Value, token: string)
    requires src < |clients| && IsStart(msg)
    ensures var r := Step(clients, src, msg, token);
      && r.1 == Started
      && r.0[src].id == Some(token)
      && r.0[src].outbox == (if clients[src].readyState == Open
                             then clients[src].outbox + [Reply(token)]
                             else clients[src].outbox)
      && forall i :: 0 <= i < |clients| && i != src ==> r.0[i] == clients[i]
  {
  }

  /** A routed message whose `data.remoteId` is undefined or falsy is dropped: nothing changes. */
  lemma FalsyRemoteIdChangesNothing(clients: seq<Socket>, src: nat, msg: Value, token: string)
    requires src < |clients| && !HandlingThrows(msg) && !IsStart(msg) && !Truthy(RemoteId(msg))
    ensures Step(clients, src, msg, token) == (clients, NoDestination)
  {
    assert Member(Get(msg, "data"), "remoteId") == Yields(RemoteId(msg));
  }

  /** A routed message whose `remoteId` no tracked socket holds is dropped: nothing changes. */
  lemma UnknownRemoteIdChangesNothing(clients: seq<Socket>, src: nat, msg: Value, token: string)
    requires src < |clients| && !IsStart(msg) && Truthy(RemoteId(msg))
    requires GetSocketById(clients, RemoteId(msg).value) == None
    ensures Step(clients, src, msg, token) == (clients, UnknownDestination)
  {
    assert Member(Get(msg, "data"), "remoteId") == Yields(RemoteId(msg));
  }

  /** Helper: a routed message whose `remoteId` resolves to socket `d` takes the `Forward` branch. */
  lemma ForwardedStep(clients: seq<Socket>, src: nat, msg: Value, token: string, d: nat)
    requires src < |clients| && !IsStart(msg) && Truthy(RemoteId(msg))
    requires GetSocketById(clients, RemoteId(msg).value) == Some(d)
    ensures HasObjectData(msg)
    ensures Step(clients, src, msg, token) ==
              (clients[d := Emit(clients[d], Rewrite(msg, clients[src].id))], Forwarded(d))
  {
    assert msg.Object? && Get(msg, "data").Some? && Get(msg, "data").value.Object?;
    assert Member(Some(msg), "action") == Yields(Get(msg, "action"));
    assert Member(Get(msg, "data"), "remoteId") == Yields(RemoteId(msg));
    assert Step(clients, src, msg, token) == Forward(clients, src, msg, RemoteId(msg).value);
  }

  /**
   * A forwarded message goes to the first socket holding the named id, as the
   * rewritten envelope, and only if that socket is open; nothing else changes.
   */
  lemma ForwardReachesOnlyDestination(clients: seq<Socket>, src: nat, msg: Value, token: string, d: nat)
    requires src < |clients| && !IsStart(msg) && Truthy(RemoteId(msg))
    requires GetSocketById(clients, RemoteId(msg).value) == Some(d)
    ensures HasObjectData(msg) && d < |clients| && clients[d].id.Some?
    ensures var r := Step(clients, src, msg, token);
      && r.1 == Forwarded(d)
      && r.0[d].id == clients[d].id
      && r.0[d].outbox == (if clients[d].readyState == Open
                           then clients[d].outbox + [Rewrite(msg, clients[src].id)]
                           else clients[d].outbox)
      && forall i :: 0 <= i < |clients| && i != d ==> r.0[i] == clients[i]
  {
    ForwardedStep(clients, src, msg, token, d);
    var c := clients[d := Emit(clients[d], Rewrite(msg, clients[src].id))];
    forall i | 0 <= i < |clients| && i != d ensures c[i] == clients[i] {}
  }

  /** With unique ids, the socket holding an id is the one lookup returns. */
  lemma LookupFindsHolder(clients: seq<Socket>, i: nat)
    requires i < |clients| && UniqueIds(clients) && clients[i].id.Some?
    ensures GetSocketById(clients, Str(clients[i].id.value)) == Some(i)
  {
  }

  /** One handled message keeps ids unique, given that a `start` brings a token no socket holds. */
  lemma StepKeepsIdsUnique(clients: seq<Socket>, src: nat, msg: Value, token: string)
    requires src < |clients| && UniqueIds(clients) && (IsStart(msg) ==> token !in IdsOf(clients))
    ensures UniqueIds(Step(clients, src, msg, token).0)
    ensures IdsOf(Step(clients, src, msg, token).0) <= IdsOf(clients) + {token}
  {
  }

  /** The id handed out by `start` immediately resolves, by lookup, to the sender. */
  lemma StartedIdIsReachable(clients: seq<Socket>, src: nat, msg: Value, token: string)
    requires src < |clients| && IsStart(msg)
    requires UniqueIds(clients) && token !in IdsOf(clients)
    ensures GetSocketById(Step(clients, src, msg, token).0, Str(token)) == Some(src)
  {
    StepKeepsIdsUnique(clients, src, msg, token);
    LookupFindsHolder(Step(clients, src, msg, token).0, src);
  }

  /**
   * The id handed out by `start` is immediately usable by every tracked socket
   * as a routing destination: a routed message naming it is forwarded to the
   * sender of `start`, and lands in its outbox if it is open. An empty token
   * would be falsy and dropped; the id generator never returns one.
   */
  lemma StartedIdIsRoutable(clients: seq<Socket>, src: nat, msg: Value, token: string,
                            j: nat, m: Value, t: string)
    requires src < |clients| && IsStart(msg) && token != ""
    requires UniqueIds(clients) && token !in IdsOf(clients)
    requires j < |clients| && !IsStart(m) && RemoteId(m) == Some(Str(token))
    ensures var c := Step(clients, src, msg, token).0;
      var r := Step(c, j, m, t);
      && r.1 == Forwarded(src)
      && r.0[src].outbox == (if clients[src].readyState == Open
                             then c[src].outbox + [Rewrite(m, c[j].id)]
                             else c[src].outbox)
  {
    var c := Step(clients, src, msg, token).0;
    StartedIdIsReachable(clients, src, msg, token);
    ForwardReachesOnlyDestination(c, j, m, t, src);
  }

  /**
   * A second `start` replaces the sender's id, so the id it held before no
   * longer resolves: no stale binding survives re-registration.
   */
  lemma RestartReleasesOldId(clients: seq<Socket>, src: nat, msg: Value, token: string)
    requires src < |clients| && IsStart(msg) && UniqueIds(clients)
    requires clients[src].id.Some? && clients[src].id.value != token
    ensures GetSocketById(Step(clients, src, msg, token).0, Str(clients[src].id.value)) == None
  {
  }

  /** Closing a socket makes its id unknown: later messages to it reach no one. */
  lemma ClosedIdIsUnknown(clients: seq<Socket>, i: nat, src: nat, msg: Value, token: string)
    requires i < |clients| && UniqueIds(clients) && clients[i].id.Some?
    requires src < |clients| - 1 && !IsStart(msg) && RemoteId(msg) == Some(Str(clients[i].id.value))
    ensures Step(Remove(clients, i), src, msg, token).0 == Remove(clients, i)
    ensures !Step(Remove(clients, i), src, msg, token).1.Forwarded?
  {
  }

  /**
   * Connecting, closing and handling a message all keep ids unique, given that
   * a `start` brings a token no tracked socket holds; only a `start` adds an id.
   */
  lemma ApplyKeepsIdsUnique(clients: seq<Socket>, e: Event)
    requires UniqueIds(clients)
    requires Binds(e) ==> e.token !in IdsOf(clients)
    ensures UniqueIds(Apply(clients, e))
    ensures IdsOf(Apply(clients, e)) <= IdsOf(clients) + if Binds(e) then {e.token} else {}
  {
  }

  /**
   * Over any run whose `start` tokens are fresh when they arrive, no two tracked
   * sockets ever share an id, and every id in use was either held at the start
   * or handed out by a `start` of the run.
   */
  lemma {:induction false} RunKeepsIdsUnique(clients: seq<Socket>, events: seq<Event>)
    requires UniqueIds(clients) && FreshTokens(clients, events)
    ensures UniqueIds(Run(clients, events))
    ensures IdsOf(Run(clients, events)) <= IdsOf(clients) + Tokens(events)
    decreases |events|
  {
    if events != [] {
      ApplyKeepsIdsUnique(clients, events[0]);
      RunKeepsIdsUnique(Apply(clients, events[0]), events[1..]);
    }
  }
}
