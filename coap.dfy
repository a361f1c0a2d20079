/**
 * The CoAP adapter: the request handler `createServer` is given, with
 * `_handleGET`, `_handlePUT` and the auth-failure helpers. A request runs as
 * one sequential pass through its callback chain.
 *
 * `Route` is the reference definition of what a request leads to; `Handle`
 * is the handler itself, over the shared store, broker and event stream,
 * and its contract ties every effect it has to `Route`. Each handler method
 * also returns, as a ghost trace, the collaborator calls it made in order.
 */
module Coap {
  import opened Wrappers
  import opened Backend
  import opened Auth
  import opened Routes

  /** The code node-coap gives a response nobody set one on. */
  const DefaultCode := "2.05"

  /** What the handler and `authenticate` read of an incoming CoAP request:
      its URL, its method (`req.method`, here `verb`), and the value of its Observe option. */
  datatype RequestHead = RequestHead(url: string, verb: string, observe: Option<int>)

  /** An incoming request: its head, the chunks its body arrives in, and the
      unsubscribe listener an observation registers on its `error` event. */
  class Request {
    const head: RequestHead
    const chunks: seq<Payload>
    var onError: Option<Sub>

    constructor (head: RequestHead, chunks: seq<Payload>)
      ensures this.head == head && this.chunks == chunks && onError == None
    {
      this.head := head;
      this.chunks := chunks;
      onError := None;
    }
  }

  /** What one request leads to. */
  datatype Action =
    | Unrouted                              // the path is not `/r/<topic>`
    | Refused(at: Gate, code: string)       // a hook failed or said no
    | Unanswered                            // authenticated, but neither GET nor PUT
    | Missing                               // GET of a topic with no retained record
    | Content(payload: Payload)             // GET: the retained payload, then end
    | Observed(topic: Topic, payload: Payload)  // GET with Observe 0: subscribe, write
    | Changed(topic: Topic, payload: Payload)   // PUT: store, publish, 2.04, emit

  /** A collaborator call, a hook consultation, or a reply, as the handler makes them. */
  datatype Step =
    | Authenticate | ReadBody | AuthorizeGet | AuthorizePut | LookupRetained
    | StoreRetained(packet: Packet) | Publish(message: Message) | Subscribe(topic: Topic)
    | SetLocation(path: string) | Respond(code: string) | Write(payload: Payload)
    | EndWith(payload: Payload) | EmitUpdated(message: Message)

  /** The state a response is left in. */
  datatype Reply = Reply(code: string, headers: map<string, string>, chunks: seq<Payload>, ended: bool)

  /** What `_handleGET` does once the lookup has answered. */
  function ReadAction(topic: Topic, observe: Option<int>, retained: map<Topic, Packet>): Action
  {
    if topic !in retained then Missing
    else if observe == Some(0) then Observed(topic, retained[topic].payload)
    else Content(retained[topic].payload)
  }

  /** The reference definition of the request handler. */
  function Route(h: Hooks<RequestHead>, head: RequestHead, chunks: seq<Payload>,
                 retained: map<Topic, Packet>): Action
  {
    match MatchResource(CoapRoot, head.url)
    case None => Unrouted
    case Some(topic) =>
      match h.authenticate(head)
      case IdentityFault => Refused(AtAuthenticate, "5.00")
      case Unauthenticated => Refused(AtAuthenticate, "4.01")
      case Authenticated(subject) => Dispatch(h, subject, topic, head, chunks, retained)
  }

  /** What an authenticated request leads to, by its method. */
  function Dispatch(h: Hooks<RequestHead>, subject: Subject, topic: Topic, head: RequestHead,
                    chunks: seq<Payload>, retained: map<Topic, Packet>): Action
  {
    if head.verb == "GET" then
      match h.authorizeGet(subject, topic)
      case VerdictFault => Refused(AtAuthorizeGet, "5.00")
      case Denied => Refused(AtAuthorizeGet, "4.03")
      case Granted => ReadAction(topic, head.observe, retained)
    else if head.verb == "PUT" then
      var payload := Concat(chunks);
      match h.authorizePut(subject, topic, payload)
      case VerdictFault => Refused(AtAuthorizePut, "5.00")
      case Denied => Refused(AtAuthorizePut, "4.03")
      case Granted => Changed(topic, payload)
    else Unanswered
  }

  /** The response each action leaves. */
  function ReplyOf(a: Action): Reply
  {
    match a
    case Unrouted => Reply("4.04", map[], [], true)
    case Refused(_, code) => Reply(code, map[], [], true)
    case Unanswered => Reply(DefaultCode, map[], [], false)
    case Missing => Reply("4.04", map[], [], true)
    case Content(p) => Reply(DefaultCode, map[], [p], true)
    case Observed(_, p) => Reply(DefaultCode, map[], [p], false)
    case Changed(t, _) => Reply("2.04", map["Location-Path" := CoapRoot + t], [], true)
  }

  /** The calls each action is made of, in order. */
  function StepsOf(a: Action): seq<Step>
  {
    match a
    case Unrouted => [Respond("4.04")]
    case Refused(AtAuthenticate, code) => [Authenticate, Respond(code)]
    case Refused(AtAuthorizeGet, code) => [Authenticate, AuthorizeGet, Respond(code)]
    case Refused(AtAuthorizePut, code) => [Authenticate, ReadBody, AuthorizePut, Respond(code)]
    case Unanswered => [Authenticate]
    case Missing => [Authenticate, AuthorizeGet, LookupRetained, Respond("4.04")]
    case Content(p) => [Authenticate, AuthorizeGet, LookupRetained, EndWith(p)]
    case Observed(t, p) => [Authenticate, AuthorizeGet, LookupRetained, Subscribe(t), Write(p)]
    case Changed(t, p) =>
      [Authenticate, ReadBody, AuthorizePut] + PutSteps(t, p)
  }

  /** What `_handlePUT` does: store, publish, reply, then emit. */
  function PutSteps(t: Topic, p: Payload): seq<Step>
  {
    [StoreRetained(Packet(t, p, true)), Publish(Message(t, p)),
     SetLocation(CoapRoot + t), Respond("2.04"), EmitUpdated(Message(t, p))]
  }

  predicate Shows(res: Response<string>, r: Reply)
    reads res
  {
    res.code == r.code && res.headers == r.headers && res.chunks == r.chunks && res.ended == r.ended
  }

  /** `_handleAuthError`. */
  method HandleAuthError(res: Response<string>)
    modifies res`code, res`ended
    ensures res.code == "5.00" && res.ended
  {
    res.SetCode("5.00");
    res.End();
  }

  /** `_handleNotAuthenticated`. */
  method HandleNotAuthenticated(res: Response<string>)
    modifies res`code, res`ended
    ensures res.code == "4.01" && res.ended
  {
    res.SetCode("4.01");
    res.End();
  }

  /** `_handleNotAuthorized`. */
  method HandleNotAuthorized(res: Response<string>)
    modifies res`code, res`ended
    ensures res.code == "4.03" && res.ended
  {
    res.SetCode("4.03");
    res.End();
  }

  /** `_handleGET`: looks the topic up; with `Observe: 0` subscribes a callback
      writing to `res`, registers its removal on the request's `error` and the
      response's `finish`, and writes the retained payload without ending. */
  method HandleGet(topic: Topic, req: Request, res: Response<string>,
                   store: Persistence, broker: Broker) returns (ghost steps: seq<Step>)
    requires broker.Valid() && res !in broker.Targets()
    requires res.Pristine(DefaultCode) && req.onError == None
    modifies req`onError, res, broker`subscriptions
    ensures broker.Valid()
    ensures var a := ReadAction(topic, req.head.observe, store.retained);
      && Shows(res, ReplyOf(a))
      && broker.subscriptions == (if a.Observed? then old(broker.subscriptions) + [Sub(topic, res)]
                                  else old(broker.subscriptions))
      && req.onError == (if a.Observed? then Some(Sub(topic, res)) else None)
      && res.onFinish == (if a.Observed? then Some(Sub(topic, res)) else None)
      && steps == StepsOf(a)[2..]
  {
    var deliver := "end";
    var packets := store.LookupRetained(topic);
    steps := [LookupRetained];
    if |packets| == 0 {
      res.SetCode("4.04");
      res.End();
      steps := steps + [Respond("4.04")];
      return;
    }
    if req.head.observe == Some(0) {
      deliver := "write";
      broker.Subscribe(topic, res);
      req.onError := Some(Sub(topic, res));
      res.onFinish := Some(Sub(topic, res));
      steps := steps + [Subscribe(topic)];
    }
    if deliver == "write" {
      res.Write(packets[0].payload);
      steps := steps + [Write(packets[0].payload)];
    } else {
      res.EndWith(packets[0].payload);
      steps := steps + [EndWith(packets[0].payload)];
    }
  }

  /** `_handlePUT`: stores `{topic, payload, retain: true}`, publishes, replies
      2.04 with `Location-Path`, then emits `updated`. */
  method HandlePut(topic: Topic, payload: Payload, res: Response<string>,
                   store: Persistence, broker: Broker, ponte: Events) returns (ghost steps: seq<Step>)
    requires broker.Valid() && res !in broker.Targets()
    modifies res`code, res`headers, res`ended, store, broker`published, broker.Observers(topic), ponte
    ensures broker.Valid()
    ensures store.retained == old(store.retained)[topic := Packet(topic, payload, true)]
    ensures broker.published == old(broker.published) + [Message(topic, payload)]
    ensures ponte.updated == old(ponte.updated) + [Message(topic, payload)]
    ensures res.code == "2.04" && res.ended
    ensures res.headers == old(res.headers)["Location-Path" := CoapRoot + topic]
    ensures forall r :: r in old(broker.Observers(topic)) ==>
              && r.chunks == (if old(r.ended) then old(r.chunks) else old(r.chunks) + [payload])
              && r.ended == old(r.ended) && r.code == old(r.code)
              && r.headers == old(r.headers) && r.onFinish == old(r.onFinish)
    ensures steps == PutSteps(topic, payload)
  {
    var packet := Packet(topic, payload, true);
    store.StoreRetained(packet);
    broker.Publish(topic, payload);
    res.SetHeader("Location-Path", CoapRoot + topic);
    res.SetCode("2.04");
    res.End();
    ponte.EmitUpdated(topic, payload);
    steps := PutSteps(topic, payload);
  }

  /** The request handler given to `coap.createServer`. */
  method Handle(h: Hooks<RequestHead>, req: Request, res: Response<string>,
                store: Persistence, broker: Broker, ponte: Events) returns (ghost steps: seq<Step>)
    requires broker.Valid() && res !in broker.Targets()
    requires res.Pristine(DefaultCode) && req.onError == None
    modifies req, res, store, broker, ponte, broker.Targets()
    ensures broker.Valid()
    ensures var a := Route(h, req.head, req.chunks, old(store.retained));
      && Shows(res, ReplyOf(a))
      && steps == StepsOf(a)
      && store.retained == (if a.Changed? then old(store.retained)[a.topic := Packet(a.topic, a.payload, true)]
                            else old(store.retained))
      && broker.published == (if a.Changed? then old(broker.published) + [Message(a.topic, a.payload)]
                              else old(broker.published))
      && ponte.updated == (if a.Changed? then old(ponte.updated) + [Message(a.topic, a.payload)]
                           else old(ponte.updated))
      && broker.subscriptions == (if a.Observed? then old(broker.subscriptions) + [Sub(a.topic, res)]
                                  else old(broker.subscriptions))
      && broker.unsubscribed == old(broker.unsubscribed)
      && req.onError == (if a.Observed? then Some(Sub(a.topic, res)) else None)
      && res.onFinish == (if a.Observed? then Some(Sub(a.topic, res)) else None)
    ensures var a := Route(h, req.head, req.chunks, old(store.retained));
      forall r :: r in old(broker.Targets()) ==>
        && r.chunks == (if a.Changed? && r in old(broker.Observers(a.topic)) && !old(r.ended)
                        then old(r.chunks) + [a.payload] else old(r.chunks))
        && r.ended == old(r.ended) && r.code == old(r.code)
        && r.headers == old(r.headers) && r.onFinish == old(r.onFinish)
  {
    var matched := MatchResource(CoapRoot, req.head.url);
    if matched.None? {
      res.SetCode("4.04");
      res.End();
      steps := [Respond("4.04")];
      return;
    }
    var topic := matched.value;
    var identity := h.authenticate(req.head);
    steps := [Authenticate];
    if identity.IdentityFault? {
      HandleAuthError(res);
      steps := steps + [Respond("5.00")];
      return;
    }
    if identity.Unauthenticated? {
      HandleNotAuthenticated(res);
      steps := steps + [Respond("4.01")];
      return;
    }
    var subject := identity.subject;
    var more := HandleAuthenticated(h, subject, topic, req, res, store, broker, ponte);
    steps := steps + more;
  }

  /** The authenticated part of the handler: the method's hook, then
      `_handleGET` or `_handlePUT`. */
  method HandleAuthenticated(h: Hooks<RequestHead>, subject: Subject, topic: Topic, req: Request,
                             res: Response<string>, store: Persistence, broker: Broker, ponte: Events)
    returns (ghost steps: seq<Step>)
    requires broker.Valid() && res !in broker.Targets()
    requires res.Pristine(DefaultCode) && req.onError == None
    modifies req, res, store, broker, ponte, broker.Targets()
    ensures broker.Valid()
    ensures var a := Dispatch(h, subject, topic, req.head, req.chunks, old(store.retained));
      && Shows(res, ReplyOf(a))
      && [Authenticate] + steps == StepsOf(a)
      && store.retained == (if a.Changed? then old(store.retained)[a.topic := Packet(a.topic, a.payload, true)]
                            else old(store.retained))
      && broker.published == (if a.Changed? then old(broker.published) + [Message(a.topic, a.payload)]
                              else old(broker.published))
      && ponte.updated == (if a.Changed? then old(ponte.updated) + [Message(a.topic, a.payload)]
                           else old(ponte.updated))
      && broker.subscriptions == (if a.Observed? then old(broker.subscriptions) + [Sub(a.topic, res)]
                                  else old(broker.subscriptions))
      && broker.unsubscribed == old(broker.unsubscribed)
      && req.onError == (if a.Observed? then Some(Sub(a.topic, res)) else None)
      && res.onFinish == (if a.Observed? then Some(Sub(a.topic, res)) else None)
    ensures var a := Dispatch(h, subject, topic, req.head, req.chunks, old(store.retained));
      forall r :: r in old(broker.Targets()) ==>
        && r.chunks == (if a.Changed? && r in old(broker.Observers(a.topic)) && !old(r.ended)
                        then old(r.chunks) + [a.payload] else old(r.chunks))
        && r.ended == old(r.ended) && r.code == old(r.code)
        && r.headers == old(r.headers) && r.onFinish == old(r.onFinish)
  {
    steps := [];
    if req.head.verb == "GET" {
      var verdict := h.authorizeGet(subject, topic);
      steps := steps + [AuthorizeGet];
      if verdict.VerdictFault? {
        HandleAuthError(res);
        steps := steps + [Respond("5.00")];
        return;
      }
      if verdict.Denied? {
        HandleNotAuthorized(res);
        steps := steps + [Respond("4.03")];
        return;
      }
      var more := HandleGet(topic, req, res, store, broker);
      steps := steps + more;
    } else if req.head.verb == "PUT" {
      var payload := Concat(req.chunks);
      steps := steps + [ReadBody];
      var verdict := h.authorizePut(subject, topic, payload);
      steps := steps + [AuthorizePut];
      if verdict.VerdictFault? {
        HandleAuthError(res);
        steps := steps + [Respond("5.00")];
        return;
      }
      if verdict.Denied? {
        HandleNotAuthorized(res);
        steps := steps + [Respond("4.03")];
        return;
      }
      var more := HandlePut(topic, payload, res, store, broker, ponte);
      steps := steps + more;
    }
  }


  /** The request's `error` event: runs the unsubscribe listener an
      observation registered on it, if any. */
  method RequestError(req: Request, broker: Broker)
    requires broker.Valid()
    modifies broker`subscriptions, broker`unsubscribed
    ensures broker.Valid()
    ensures match req.onError
      case Some(sub) =>
        && broker.subscriptions == Without(old(broker.subscriptions), sub)
        && broker.unsubscribed == old(broker.unsubscribed) + [sub]
      case None =>
        broker.subscriptions == old(broker.subscriptions) && broker.unsubscribed == old(broker.unsubscribed)
  {
    if req.onError.Some? {
      broker.Unsubscribe(req.onError.value.topic, req.onError.value.res);
    }
  }

  /** The response stream finishing (node-coap ends an observe stream when its
      client cancels it): runs the unsubscribe listener registered on `finish`. */
  method Finish(res: Response<string>, broker: Broker)
    requires broker.Valid()
    modifies res`ended, broker`subscriptions, broker`unsubscribed
    ensures broker.Valid() && res.ended
    ensures match res.onFinish
      case Some(sub) =>
        && broker.subscriptions == Without(old(broker.subscriptions), sub)
        && broker.unsubscribed == old(broker.unsubscribed) + [sub]
      case None =>
        broker.subscriptions == old(broker.subscriptions) && broker.unsubscribed == old(broker.unsubscribed)
  {
    res.End();
    if res.onFinish.Some? {
      broker.Unsubscribe(res.onFinish.value.topic, res.onFinish.value.res);
    }
  }

  // Properties of the reference definition.

  /** A path that is not `/r/<topic>` gets 4.04 whatever the hooks are, and
      `authenticate` is never consulted. */
  lemma UnroutedBypassesGate(h1: Hooks<RequestHead>, h2: Hooks<RequestHead>, head: RequestHead,
                             chunks: seq<Payload>, m: map<Topic, Packet>)
    requires MatchResource(CoapRoot, head.url).None?
    ensures Route(h1, head, chunks, m) == Route(h2, head, chunks, m) == Unrouted
    ensures ReplyOf(Unrouted).code == "4.04" && Authenticate !in StepsOf(Unrouted)
  {
  }

  /** The topic of a write is the non-empty remainder of the URL after `/r/`,
      and the `Location-Path` the write replies with matches back to it. */
  lemma ChangedTopicRematches(h: Hooks<RequestHead>, head: RequestHead, chunks: seq<Payload>,
                              m: map<Topic, Packet>)
    requires Route(h, head, chunks, m).Changed?
    ensures var a := Route(h, head, chunks, m);
      && head.url == CoapRoot + a.topic && a.topic != ""
      && MatchResource(CoapRoot, ReplyOf(a).headers["Location-Path"]) == Some(a.topic)
  {
    var t := MatchResource(CoapRoot, head.url).value;
    MatchIff(CoapRoot, head.url, t);
    LocationRematches(CoapRoot, head.url);
  }

  /** A handler (lookup or store) runs exactly when authentication and the
      authorization for the request's method both pass. */
  lemma HandlerRunsIffBothGatesPass(h: Hooks<RequestHead>, head: RequestHead, chunks: seq<Payload>,
                                    m: map<Topic, Packet>, topic: Topic)
    requires MatchResource(CoapRoot, head.url) == Some(topic)
    ensures var a := Route(h, head, chunks, m);
      (a.Missing? || a.Content? || a.Observed? || a.Changed?) <==>
      (&& h.authenticate(head).Authenticated?
       && var s := h.authenticate(head).subject;
          || (head.verb == "GET" && h.authorizeGet(s, topic) == Granted)
          || (head.verb == "PUT" && h.authorizePut(s, topic, Concat(chunks)) == Granted))
  {
  }

  /** Refusal codes: a hook error is 5.00 whichever gate it came from; a
      failed authentication is 4.01; a refused authorization is 4.03; and an
      authorize hook is only consulted after authentication passed. */
  lemma RefusalCodes(h: Hooks<RequestHead>, head: RequestHead, chunks: seq<Payload>, m: map<Topic, Packet>)
    requires Route(h, head, chunks, m).Refused?
    ensures var a := Route(h, head, chunks, m);
      && (a.at == AtAuthenticate <==> !h.authenticate(head).Authenticated?)
      && (a.at == AtAuthenticate ==> (a.code == "5.00" <==> h.authenticate(head).IdentityFault?))
      && (a.at == AtAuthenticate ==> (a.code == "4.01" <==> h.authenticate(head).Unauthenticated?))
      && (a.at != AtAuthenticate ==>
            var s := h.authenticate(head).subject;
            var t := MatchResource(CoapRoot, head.url).value;
            var v := if a.at == AtAuthorizeGet then h.authorizeGet(s, t) else h.authorizePut(s, t, Concat(chunks));
            (a.code == "5.00" <==> v == VerdictFault) && (a.code == "4.03" <==> v == Denied))
  {
  }

  /** When `authorizePut` refuses or errors, nothing is stored, published or
      emitted. */
  lemma RefusedPutHasNoEffect(h: Hooks<RequestHead>, head: RequestHead, chunks: seq<Payload>,
                              m: map<Topic, Packet>, topic: Topic)
    requires MatchResource(CoapRoot, head.url) == Some(topic) && head.verb == "PUT"
    requires h.authenticate(head).Authenticated?
    requires h.authorizePut(h.authenticate(head).subject, topic, Concat(chunks)) != Granted
    ensures var a := Route(h, head, chunks, m);
      && !a.Changed? && ReplyOf(a).code != "2.04"
      && forall i :: 0 <= i < |StepsOf(a)| ==>
           !StepsOf(a)[i].StoreRetained? && !StepsOf(a)[i].Publish? && !StepsOf(a)[i].EmitUpdated?
  {
  }

  /** Only the store decides a GET's outcome, and a PUT does not look at it. */
  lemma PutIgnoresStore(h: Hooks<RequestHead>, head: RequestHead, chunks: seq<Payload>,
                        m1: map<Topic, Packet>, m2: map<Topic, Packet>)
    requires head.verb == "PUT"
    ensures Route(h, head, chunks, m1) == Route(h, head, chunks, m2)
  {
  }

  /** A GET that passes the gate. */
  predicate ReadGranted(h: Hooks<RequestHead>, head: RequestHead)
  {
    && head.verb == "GET"
    && MatchResource(CoapRoot, head.url).Some?
    && h.authenticate(head).Authenticated?
    && h.authorizeGet(h.authenticate(head).subject, MatchResource(CoapRoot, head.url).value) == Granted
  }

  /** After a PUT, a GET of the same topic answers 2.05 with the concatenated
      body the PUT carried; a second PUT replaces the value again. */
  lemma PutThenGet(h: Hooks<RequestHead>, put: RequestHead, body: seq<Payload>, m: map<Topic, Packet>,
                   get: RequestHead, getBody: seq<Payload>)
    requires Route(h, put, body, m).Changed?
    requires ReadGranted(h, get) && get.observe != Some(0)
    requires MatchResource(CoapRoot, get.url) == MatchResource(CoapRoot, put.url)
    ensures var w := Route(h, put, body, m);
      var after := m[w.topic := Packet(w.topic, w.payload, true)];
      && Route(h, get, getBody, after) == Content(Concat(body))
      && ReplyOf(Route(h, get, getBody, after)) == Reply("2.05", map[], [Concat(body)], true)
  {
  }

  /** A GET of a topic with no retained record answers 4.04, ends the
      response and subscribes nothing, with or without Observe. */
  lemma MissingTopicNotFound(h: Hooks<RequestHead>, get: RequestHead, chunks: seq<Payload>,
                             m: map<Topic, Packet>)
    requires ReadGranted(h, get) && MatchResource(CoapRoot, get.url).value !in m
    ensures Route(h, get, chunks, m) == Missing
    ensures ReplyOf(Missing) == Reply("4.04", map[], [], true)
    ensures forall i :: 0 <= i < |StepsOf(Missing)| ==> !StepsOf(Missing)[i].Subscribe?
  {
  }

  /** A GET with `Observe: 0` of a retained topic subscribes once and writes
      the retained payload without ending; without it the payload is sent
      with `end`. */
  lemma ObserveKeepsStreamOpen(h: Hooks<RequestHead>, get: RequestHead, chunks: seq<Payload>,
                               m: map<Topic, Packet>)
    requires ReadGranted(h, get)
    requires MatchResource(CoapRoot, get.url).value in m
    ensures var t := MatchResource(CoapRoot, get.url).value;
      var a := Route(h, get, chunks, m);
      if get.observe == Some(0) then
        && a == Observed(t, m[t].payload)
        && !ReplyOf(a).ended && ReplyOf(a).chunks == [m[t].payload]
        && StepsOf(a)[3..] == [Subscribe(t), Write(m[t].payload)]
      else
        a == Content(m[t].payload) && ReplyOf(a).ended && ReplyOf(a).chunks == [m[t].payload]
  {
  }

  /** With the default hooks no request is ever refused. */
  lemma DefaultHooksNeverRefuse(head: RequestHead, chunks: seq<Payload>, m: map<Topic, Packet>)
    ensures !Route(DefaultHooks(), head, chunks, m).Refused?
  {
  }
}
