/** The signed intake endpoint: the order in which a request is verified, validated, recorded and accepted. */
module Server {
  import opened Domain
  import opened Intake
  import opened Store
  import Database
  import W = Windows

  datatype Response =
    | AuthenticationFailed
    | InvalidEvent
    | RouteForbidden
    | RouteUnavailable
    | RateLimited
    | Stored(result: Database.AcceptResult)

  /** What the endpoint consults besides the store. `valid` is the outcome of the field validation. */
  datatype Call = Call(
    headers: W.Headers,
    body: string,
    event: Event,
    valid: bool,
    targets: seq<string>,
    silenced: bool,
    verifiedAt: int,
    now: int)

  datatype Settings = Settings(clients: map<string, W.Client>, tolerance: int, nonceRetention: int, window: int)

  /** The check that turns a request away before anything is recorded. */
  function EarlyAnswer(s: Settings, c: Call): Option<Response> {
    var verdict := W.Verify(s.clients, s.tolerance, c.verifiedAt, c.headers, c.body);
    if !verdict.Trusted? then Some(AuthenticationFailed)
    else if !c.valid then Some(InvalidEvent)
    else if c.event.route !in verdict.client.routes then Some(RouteForbidden)
    else if c.targets == [] then Some(RouteUnavailable)
    else None
  }

  function Recording(s: Settings, g: W.Gate, c: Call): (W.Gate, W.Reply)
    requires EarlyAnswer(s, c).None?
  {
    var client := W.Verify(s.clients, s.tolerance, c.verifiedAt, c.headers, c.body).client;
    W.RecordRequest(g, client.id, c.headers.nonce, c.now + s.nonceRetention, c.now, client.ratePerMinute)
  }

  /** The request was signed by an enabled client with its own secret, is well formed, and is timely. */
  predicate Authentic(s: Settings, c: Call) {
    var h := c.headers;
    && h.client in s.clients && s.clients[h.client].enabled
    && h.signature == Some(W.Signature(s.clients[h.client].secret, h.timestamp, h.nonce, c.body))
    && W.NonceWellFormed(h.nonce)
    && var timestamp := W.ParseInt64(h.timestamp);
       timestamp.Some? && 0 < timestamp.value && W.WithinTolerance(timestamp.value, c.verifiedAt, s.tolerance)
  }

  /** The client may send events to this route. */
  predicate Allowed(s: Settings, c: Call) {
    c.headers.client in s.clients && c.event.route in s.clients[c.headers.client].routes
  }

  predicate Admissible(s: Settings, c: Call) {
    Authentic(s, c) && c.valid && Allowed(s, c) && c.targets != []
  }

  predicate SeenBefore(s: Settings, g: W.Gate, c: Call)
    requires c.headers.client in s.clients
  {
    var row := W.NonceKey(s.clients[c.headers.client].id, c.headers.nonce);
    row in g.nonces && c.now <= g.nonces[row]
  }

  /** The client's own count for this minute has reached its limit. */
  predicate OverLimit(s: Settings, g: W.Gate, c: Call)
    requires c.headers.client in s.clients
  {
    var client, bucket := s.clients[c.headers.client], W.Bucket(c.now);
    var row := W.RateKey("hmac:" + client.id, bucket);
    client.ratePerMinute <= if row in g.rates then g.rates[row] else 0
  }

  /** Each refusal stands for the first condition that fails. */
  lemma EarlyAnswerExactly(s: Settings, c: Call)
    ensures EarlyAnswer(s, c) ==
            if !Authentic(s, c) then Some(AuthenticationFailed)
            else if !c.valid then Some(InvalidEvent)
            else if !Allowed(s, c) then Some(RouteForbidden)
            else if c.targets == [] then Some(RouteUnavailable)
            else None
    ensures Authentic(s, c) ==>
              W.Verify(s.clients, s.tolerance, c.verifiedAt, c.headers, c.body) == W.Trusted(s.clients[c.headers.client])
  {
  }

  lemma RecordingExactly(s: Settings, g: W.Gate, c: Call)
    requires EarlyAnswer(s, c).None? && Authentic(s, c)
    ensures var reply := Recording(s, g, c).1;
            && (reply.Replayed? <==> SeenBefore(s, g, c))
            && (reply.RateLimited? <==> !SeenBefore(s, g, c) && OverLimit(s, g, c))
  {
    EarlyAnswerExactly(s, c);
  }

  class Server {
    const settings: Settings
    const store: Store

    constructor (settings: Settings, store: Store)
      ensures this.settings == settings && this.store == store
    {
      this.settings := settings;
      this.store := store;
    }

    /** Nothing is written for a request that is not trusted, valid, allowed and routable; a replay is turned away without
        a trace; a rate-limited request leaves its nonce; only an admitted one reaches the event tables. */
    method Receive(c: Call) returns (response: Response)
      modifies store`nonces, store`rates, store`events, store`incidents, store`queue, store`generations, store`supply
      ensures EarlyAnswer(settings, c).Some? ==>
                response == EarlyAnswer(settings, c).value
                && store.Guards() == old(store.Guards()) && store.Contents() == old(store.Contents())
      ensures !Authentic(settings, c) ==> response.AuthenticationFailed?
      ensures Authentic(settings, c) && !c.valid ==> response.InvalidEvent?
      ensures Authentic(settings, c) && c.valid && !Allowed(settings, c) ==> response.RouteForbidden?
      ensures Authentic(settings, c) && c.valid && Allowed(settings, c) && c.targets == [] ==> response.RouteUnavailable?
      ensures !Admissible(settings, c) ==> store.Guards() == old(store.Guards()) && store.Contents() == old(store.Contents())
      ensures Admissible(settings, c) ==>
                && (response.AuthenticationFailed? <==> SeenBefore(settings, old(store.Guards()), c))
                && (response.RateLimited? <==>
                      !SeenBefore(settings, old(store.Guards()), c) && OverLimit(settings, old(store.Guards()), c))
                && (response.Stored? <==>
                      !SeenBefore(settings, old(store.Guards()), c) && !OverLimit(settings, old(store.Guards()), c))
      ensures EarlyAnswer(settings, c).None? ==>
                store.Guards() == Recording(settings, old(store.Guards()), c).0
      ensures EarlyAnswer(settings, c).None? && !Recording(settings, old(store.Guards()), c).1.Admitted? ==>
                && store.Contents() == old(store.Contents())
                && response == if Recording(settings, old(store.Guards()), c).1.Replayed? then AuthenticationFailed else RateLimited
      ensures EarlyAnswer(settings, c).None? && Recording(settings, old(store.Guards()), c).1.Admitted? ==>
                && c.headers.client in settings.clients
                && var p := Params(settings.clients[c.headers.client].id, c.event, c.targets, c.now, settings.window,
                                   if c.silenced then "silence" else "");
                && store.Contents() == Database.AcceptEvent(old(store.Contents()), p).0
                && response == Stored(Database.AcceptEvent(old(store.Contents()), p).1)
    {
      EarlyAnswerExactly(settings, c);
      if Admissible(settings, c) {
        RecordingExactly(settings, store.Guards(), c);
      }
      var verdict := W.Verify(settings.clients, settings.tolerance, c.verifiedAt, c.headers, c.body);
      if !verdict.Trusted? {
        return AuthenticationFailed;
      }
      var client := verdict.client;
      if !c.valid {
        return InvalidEvent;
      }
      if c.event.route !in client.routes {
        return RouteForbidden;
      }
      if c.targets == [] {
        return RouteUnavailable;
      }
      var reply := store.RecordRequest(client.id, c.headers.nonce, c.now + settings.nonceRetention, c.now, client.ratePerMinute);
      match reply
      case Replayed => return AuthenticationFailed;
      case RateLimited => return RateLimited;
      case Admitted =>
        var result := PersistEvent(client.id, c);
        return Stored(result);
    }

    method PersistEvent(client: string, c: Call) returns (result: Database.AcceptResult)
      modifies store`events, store`incidents, store`queue, store`generations, store`supply
      ensures var p := Params(client, c.event, c.targets, c.now, settings.window, if c.silenced then "silence" else "");
              && store.Contents() == Database.AcceptEvent(old(store.Contents()), p).0
              && result == Database.AcceptEvent(old(store.Contents()), p).1
    {
      var reason := "";
      if c.silenced {
        reason := "silence";
      }
      result := store.AcceptEvent(Params(client, c.event, c.targets, c.now, settings.window, reason));
    }
  }
}
