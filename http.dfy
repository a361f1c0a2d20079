/**
 * The HTTP adapter: the `httpServer` dispatcher `buildServer` returns, with
 * `handleGetResource`, `handlePutResource`, `handleNotFound` and the
 * auth-failure helpers. As for CoAP, `Route` is the reference definition
 * and `Serve` is the dispatcher, whose contract ties its effects to `Route`.
 */
module Http {
  import opened Wrappers
  import opened Backend
  import opened Auth
  import opened Routes

  /** The status Node gives a response nobody set one on. */
  const DefaultStatus := 200

  /** What `authenticate` and the dispatcher read of a request. */
  datatype RequestHead = RequestHead(url: string, verb: string)

  /** What the static-file fallback (`st` over the ponte and mosca public
      directories) answers for a URL; its file lookup is not modelled. */
  datatype StaticReply = StaticReply(status: int, body: Payload)

  /** What one request leads to. */
  datatype Action =
    | Preflight                             // OPTIONS: `corsify` ends the response itself
    | Static(reply: StaticReply)            // not a resource, libraries served
    | Unrouted                              // not a resource, no libraries: 404
    | Refused(at: Gate, status: int)        // a hook failed or said no
    | Unsupported                           // authenticated, but not GET, PUT or POST
    | Missing                               // GET of a topic with no retained record
    | Content(payload: Payload)             // GET: 200 with the retained payload
    | Written(topic: Topic, payload: Payload)  // PUT or POST: store, publish, 204, emit

  datatype Step =
    | ServeStatic(url: string) | Authenticate | ReadBody | AuthorizeGet | AuthorizePut
    | LookupRetained | StoreRetained(packet: Packet) | Publish(message: Message)
    | SetHeader(name: string, value: string) | SetStatus(status: int)
    | End | EndWith(payload: Payload) | EmitUpdated(message: Message)

  datatype Reply = Reply(status: int, headers: map<string, string>, chunks: seq<Payload>, ended: bool)

  /** `handleNotFound`'s body, "Not Found". */
  const NotFoundBody: Payload := [78, 111, 116, 32, 70, 111, 117, 110, 100]

  /** The body of a GET of a topic with no retained record, "Not found". */
  const MissingBody: Payload := [78, 111, 116, 32, 102, 111, 117, 110, 100]

  /** The two bodies are the bytes of their texts; they differ in one letter. */
  lemma NotFoundBodies()
    ensures NotFoundBody == Ascii("Not Found")
    ensures MissingBody == Ascii("Not found")
    ensures NotFoundBody != MissingBody
  {
    AsciiOf("Not Found", NotFoundBody);
    AsciiOf("Not found", MissingBody);
    assert NotFoundBody[4] != MissingBody[4];
  }

  /** A payload holding the codes of an ASCII text's characters is its bytes. */
  lemma AsciiOf(s: string, p: Payload)
    requires |p| == |s| && forall i :: 0 <= i < |s| ==> p[i] as int == s[i] as int % 256
    ensures p == Ascii(s)
  {
  }

  /** The write payload: the first chunk of the body only, and the empty
      payload when there is none. */
  function FirstChunk(chunks: seq<Payload>): Payload
  {
    if chunks == [] then [] else chunks[0]
  }

  /** The reference definition of the server: `corsify({endOptions: true}, httpServer)`.
      With `endOptions` set, `corsify` ends every OPTIONS request itself, so
      `httpServer` only sees the other methods. */
  function Route(h: Hooks<RequestHead>, serveLibraries: bool, st: string -> StaticReply,
                 head: RequestHead, chunks: seq<Payload>, retained: map<Topic, Packet>): Action
  {
    if head.verb == "OPTIONS" then Preflight else
    match MatchResource(HttpRoot, head.url)
    case None => if serveLibraries then Static(st(head.url)) else Unrouted
    case Some(topic) =>
      match h.authenticate(head)
      case IdentityFault => Refused(AtAuthenticate, 500)
      case Unauthenticated => Refused(AtAuthenticate, 401)
      case Authenticated(subject) =>
        if head.verb == "GET" then
          match h.authorizeGet(subject, topic)
          case VerdictFault => Refused(AtAuthorizeGet, 500)
          case Denied => Refused(AtAuthorizeGet, 403)
          case Granted =>
            if topic in retained then Content(retained[topic].payload) else Missing
        else if head.verb == "PUT" || head.verb == "POST" then
          var payload := FirstChunk(chunks);
          match h.authorizePut(subject, topic, payload)
          case VerdictFault => Refused(AtAuthorizePut, 500)
          case Denied => Refused(AtAuthorizePut, 403)
          case Granted => Written(topic, payload)
        else Unsupported
  }

  function ReplyOf(a: Action): Reply
  {
    match a
    case Preflight => Reply(DefaultStatus, map[], [], true)
    case Static(r) => Reply(r.status, map[], [r.body], true)
    case Unrouted => Reply(404, map[], [NotFoundBody], true)
    case Refused(_, status) => Reply(status, map[], [], true)
    case Unsupported => Reply(404, map[], [NotFoundBody], true)
    case Missing => Reply(404, map[], [MissingBody], true)
    case Content(p) => Reply(DefaultStatus, map[], [p], true)
    case Written(t, _) => Reply(204, map["Location" := HttpRoot + t], [], true)
  }

  function StepsOf(a: Action, url: string): seq<Step>
  {
    match a
    case Preflight => [End]
    case Static(_) => [ServeStatic(url)]
    case Unrouted => [SetStatus(404), EndWith(NotFoundBody)]
    case Refused(AtAuthenticate, status) => [Authenticate, SetStatus(status), End]
    case Refused(AtAuthorizeGet, status) => [Authenticate, AuthorizeGet, SetStatus(status), End]
    case Refused(AtAuthorizePut, status) => [Authenticate, ReadBody, AuthorizePut, SetStatus(status), End]
    case Unsupported => [Authenticate, SetStatus(404), EndWith(NotFoundBody)]
    case Missing => [Authenticate, AuthorizeGet, LookupRetained, SetStatus(404), EndWith(MissingBody)]
    case Content(p) => [Authenticate, AuthorizeGet, LookupRetained, EndWith(p)]
    case Written(t, p) => [Authenticate, ReadBody, AuthorizePut] + WriteSteps(t, p)
  }

  /** A granted write: store, publish, reply 204 with `Location`, then emit. */
  function WriteSteps(t: Topic, p: Payload): seq<Step>
  {
    [StoreRetained(Packet(t, p, true)), Publish(Message(t, p)),
     SetHeader("Location", HttpRoot + t), SetStatus(204), End, EmitUpdated(Message(t, p))]
  }

  predicate Shows(res: Response<int>, r: Reply)
    reads res
  {
    res.code == r.status && res.headers == r.headers && res.chunks == r.chunks && res.ended == r.ended
  }

  /** `handleAuthError`, `handleNotAuthenticated` and `handleNotAuthorized`:
      set the status (500, 401 or 403) and end. */
  method Refuse(res: Response<int>, status: int)
    modifies res`code, res`ended
    ensures res.code == status && res.ended
  {
    res.SetCode(status);
    res.End();
  }

  /** `handleNotFound`. */
  method HandleNotFound(res: Response<int>)
    requires res.Pristine(DefaultStatus)
    modifies res
    ensures Shows(res, Reply(404, map[], [NotFoundBody], true))
  {
    res.SetCode(404);
    res.EndWith(NotFoundBody);
  }

  /** `handleGetResource`: declines anything but GET; otherwise authorizes,
      looks the topic up and answers. */
  method HandleGetResource(h: Hooks<RequestHead>, subject: Subject, topic: Topic, head: RequestHead,
                           res: Response<int>, store: Persistence) returns (handled: bool, ghost steps: seq<Step>)
    requires res.Pristine(DefaultStatus)
    modifies res
    ensures handled <==> head.verb == "GET"
    ensures !handled ==> res.Pristine(DefaultStatus) && steps == []
    ensures handled ==>
      var a := match h.authorizeGet(subject, topic)
               case VerdictFault => Refused(AtAuthorizeGet, 500)
               case Denied => Refused(AtAuthorizeGet, 403)
               case Granted => if topic in store.retained then Content(store.retained[topic].payload) else Missing;
      Shows(res, ReplyOf(a)) && steps == StepsOf(a, head.url)[1..]
  {
    if head.verb != "GET" {
      return false, [];
    }
    var verdict := h.authorizeGet(subject, topic);
    steps := [AuthorizeGet];
    if verdict.VerdictFault? {
      Refuse(res, 500);
      steps := steps + [SetStatus(500), End];
    } else if verdict.Denied? {
      Refuse(res, 403);
      steps := steps + [SetStatus(403), End];
    } else {
      var packets := store.LookupRetained(topic);
      steps := steps + [LookupRetained];
      if |packets| == 0 {
        res.SetCode(404);
        res.EndWith(MissingBody);
        steps := steps + [SetStatus(404), EndWith(MissingBody)];
      } else {
        res.EndWith(packets[0].payload);
        steps := steps + [EndWith(packets[0].payload)];
      }
    }
    return true, steps;
  }

  /** `handlePutResource`: declines anything but PUT and POST; otherwise
      takes the first body chunk (or the empty payload), authorizes, stores,
      publishes, replies 204 with `Location`, then emits `updated`. */
  method HandlePutResource(h: Hooks<RequestHead>, subject: Subject, topic: Topic, head: RequestHead,
                           chunks: seq<Payload>, res: Response<int>, store: Persistence, broker: Broker,
                           ponte: Events) returns (handled: bool, ghost steps: seq<Step>)
    requires res.Pristine(DefaultStatus) && broker.Valid()
    modifies res, store, broker`published, broker.Observers(topic), ponte
    ensures broker.Valid()
    ensures handled <==> head.verb == "PUT" || head.verb == "POST"
    ensures var payload := FirstChunk(chunks);
      var granted := handled && h.authorizePut(subject, topic, payload) == Granted;
      && (!handled ==> res.Pristine(DefaultStatus) && steps == [])
      && (handled ==>
           var a := match h.authorizePut(subject, topic, payload)
                    case VerdictFault => Refused(AtAuthorizePut, 500)
                    case Denied => Refused(AtAuthorizePut, 403)
                    case Granted => Written(topic, payload);
           Shows(res, ReplyOf(a)) && steps == StepsOf(a, head.url)[1..])
      && store.retained == (if granted then old(store.retained)[topic := Packet(topic, payload, true)]
                            else old(store.retained))
      && broker.published == (if granted then old(broker.published) + [Message(topic, payload)]
                              else old(broker.published))
      && ponte.updated == (if granted then old(ponte.updated) + [Message(topic, payload)]
                           else old(ponte.updated))
      && forall r :: r in old(broker.Observers(topic)) ==>
           && r.chunks == (if granted && !old(r.ended) then old(r.chunks) + [payload] else old(r.chunks))
           && r.ended == old(r.ended) && r.code == old(r.code)
           && r.headers == old(r.headers) && r.onFinish == old(r.onFinish)
  {
    if head.verb != "PUT" && head.verb != "POST" {
      return false, [];
    }
    var payload := if chunks == [] then [] else chunks[0];
    steps := [ReadBody];
    var verdict := h.authorizePut(subject, topic, payload);
    steps := steps + [AuthorizePut];
    if verdict.VerdictFault? {
      Refuse(res, 500);
      steps := steps + [SetStatus(500), End];
    } else if verdict.Denied? {
      Refuse(res, 403);
      steps := steps + [SetStatus(403), End];
    } else {
      var packet := Packet(topic, payload, true);
      store.StoreRetained(packet);
      broker.Publish(topic, payload);
      res.SetHeader("Location", HttpRoot + topic);
      res.SetCode(204);
      res.End();
      ponte.EmitUpdated(topic, payload);
      steps := steps + WriteSteps(topic, payload);
    }
    return true, steps;
  }

  /** The server: `corsify` ends a pre-flight request, and the `httpServer`
      dispatcher handles the rest; only resource URLs are authenticated. */
  method Serve(h: Hooks<RequestHead>, serveLibraries: bool, st: string -> StaticReply,
               head: RequestHead, chunks: seq<Payload>, res: Response<int>,
               store: Persistence, broker: Broker, ponte: Events) returns (ghost steps: seq<Step>)
    requires res.Pristine(DefaultStatus) && broker.Valid()
    modifies res, store, broker`published, broker.Targets(), ponte
    ensures broker.Valid()
    ensures var a := Route(h, serveLibraries, st, head, chunks, old(store.retained));
      && Shows(res, ReplyOf(a))
      && steps == StepsOf(a, head.url)
      && store.retained == (if a.Written? then old(store.retained)[a.topic := Packet(a.topic, a.payload, true)]
                            else old(store.retained))
      && broker.published == (if a.Written? then old(broker.published) + [Message(a.topic, a.payload)]
                              else old(broker.published))
      && ponte.updated == (if a.Written? then old(ponte.updated) + [Message(a.topic, a.payload)]
                           else old(ponte.updated))
    ensures var a := Route(h, serveLibraries, st, head, chunks, old(store.retained));
      forall r :: r in old(broker.Targets()) ==>
        && r.chunks == (if a.Written? && r in old(broker.Observers(a.topic)) && !old(r.ended)
                        then old(r.chunks) + [a.payload] else old(r.chunks))
        && r.ended == old(r.ended) && r.code == old(r.code)
        && r.headers == old(r.headers) && r.onFinish == old(r.onFinish)
  {
    if head.verb == "OPTIONS" {
      res.End();
      steps := [End];
      return;
    }
    var matched := MatchResource(HttpRoot, head.url);
    if matched.None? {
      if serveLibraries {
        var reply := st(head.url);
        res.SetCode(reply.status);
        res.EndWith(reply.body);
        steps := [ServeStatic(head.url)];
      } else {
        HandleNotFound(res);
        steps := [SetStatus(404), EndWith(NotFoundBody)];
      }
      return;
    }
    var topic := matched.value;
    var identity := h.authenticate(head);
    steps := [Authenticate];
    if identity.IdentityFault? {
      Refuse(res, 500);
      steps := steps + [SetStatus(500), End];
      return;
    }
    if identity.Unauthenticated? {
      Refuse(res, 401);
      steps := steps + [SetStatus(401), End];
      return;
    }
    var subject := identity.subject;
    var handled, more := HandleGetResource(h, subject, topic, head, res, store);
    if !handled {
      handled, more := HandlePutResource(h, subject, topic, head, chunks, res, store, broker, ponte);
    }
    steps := steps + more;
    if !handled {
      HandleNotFound(res);
      steps := steps + [SetStatus(404), EndWith(NotFoundBody)];
    }
  }

  // Properties of the reference definition.

  /** A pre-flight request ends with the default status before the
      dispatcher runs: whatever the hooks and the URL, nothing is
      authenticated, looked up or written. */
  lemma PreflightShortCircuits(h1: Hooks<RequestHead>, h2: Hooks<RequestHead>, serveLibraries: bool,
                               st: string -> StaticReply, head: RequestHead, chunks: seq<Payload>,
                               m: map<Topic, Packet>)
    requires head.verb == "OPTIONS"
    ensures var a := Route(h1, serveLibraries, st, head, chunks, m);
      && a == Route(h2, serveLibraries, st, head, chunks, m) == Preflight
      && ReplyOf(a) == Reply(200, map[], [], true)
      && forall i :: 0 <= i < |StepsOf(a, head.url)| ==>
           !StepsOf(a, head.url)[i].Authenticate? && !StepsOf(a, head.url)[i].LookupRetained?
           && !StepsOf(a, head.url)[i].StoreRetained? && !StepsOf(a, head.url)[i].ServeStatic?
  {
  }

  /** A URL that is not `/resources/<topic>` is never authenticated: whatever
      the hooks, a request that is not pre-flight is served from the
      libraries if they are enabled and answered 404 "Not Found" otherwise. */
  lemma NonResourceNeverAuthenticated(h1: Hooks<RequestHead>, h2: Hooks<RequestHead>, serveLibraries: bool,
                                      st: string -> StaticReply, head: RequestHead, chunks: seq<Payload>,
                                      m: map<Topic, Packet>)
    requires MatchResource(HttpRoot, head.url).None?
    ensures var a := Route(h1, serveLibraries, st, head, chunks, m);
      && a == Route(h2, serveLibraries, st, head, chunks, m)
      && Authenticate !in StepsOf(a, head.url)
      && (head.verb == "OPTIONS" ==> a == Preflight)
      && (head.verb != "OPTIONS" && !serveLibraries ==> ReplyOf(a) == Reply(404, map[], [NotFoundBody], true))
      && (head.verb != "OPTIONS" && serveLibraries ==> a == Static(st(head.url)))
  {
  }

  /** After authentication passes, GET is read, PUT and POST are both write,
      and every other method but the pre-flight OPTIONS is answered 404
      "Not Found" without consulting an authorize hook. */
  lemma MethodDispatch(h: Hooks<RequestHead>, serveLibraries: bool, st: string -> StaticReply,
                       head: RequestHead, chunks: seq<Payload>, m: map<Topic, Packet>)
    requires MatchResource(HttpRoot, head.url).Some? && h.authenticate(head).Authenticated?
    ensures var a := Route(h, serveLibraries, st, head, chunks, m);
      && (head.verb == "GET" <==> (a.Content? || a.Missing? || (a.Refused? && a.at == AtAuthorizeGet)))
      && ((head.verb == "PUT" || head.verb == "POST") <==> (a.Written? || (a.Refused? && a.at == AtAuthorizePut)))
      && (a.Preflight? <==> head.verb == "OPTIONS")
      && (a.Unsupported? <==> head.verb !in {"GET", "PUT", "POST", "OPTIONS"})
      && (a.Unsupported? ==> ReplyOf(a) == Reply(404, map[], [NotFoundBody], true))
  {
  }

  /** POST is the same write as PUT, when `authenticate` treats them alike. */
  lemma PostIsPut(h: Hooks<RequestHead>, serveLibraries: bool, st: string -> StaticReply, url: string,
                  chunks: seq<Payload>, m: map<Topic, Packet>)
    requires h.authenticate(RequestHead(url, "POST")) == h.authenticate(RequestHead(url, "PUT"))
    ensures Route(h, serveLibraries, st, RequestHead(url, "POST"), chunks, m)
         == Route(h, serveLibraries, st, RequestHead(url, "PUT"), chunks, m)
  {
  }

  /** Status codes of the gate: a hook error is 500 whichever gate it came
      from, a failed authentication 401, a refused authorization 403. */
  lemma RefusalStatuses(h: Hooks<RequestHead>, serveLibraries: bool, st: string -> StaticReply,
                        head: RequestHead, chunks: seq<Payload>, m: map<Topic, Packet>)
    requires Route(h, serveLibraries, st, head, chunks, m).Refused?
    ensures var a := Route(h, serveLibraries, st, head, chunks, m);
      && MatchResource(HttpRoot, head.url).Some?
      && (a.at == AtAuthenticate <==> !h.authenticate(head).Authenticated?)
      && (a.at == AtAuthenticate ==> (a.status == 500 <==> h.authenticate(head).IdentityFault?))
      && (a.at == AtAuthenticate ==> (a.status == 401 <==> h.authenticate(head).Unauthenticated?))
      && (a.at != AtAuthenticate ==>
            var s := h.authenticate(head).subject;
            var t := MatchResource(HttpRoot, head.url).value;
            var v := if a.at == AtAuthorizeGet then h.authorizeGet(s, t) else h.authorizePut(s, t, FirstChunk(chunks));
            (a.status == 500 <==> v == VerdictFault) && (a.status == 403 <==> v == Denied))
  {
  }

  /** A write carries the first body chunk only, and an absent body is an
      explicit empty write, never a skipped one. */
  lemma WritePayloadIsFirstChunk(h: Hooks<RequestHead>, serveLibraries: bool, st: string -> StaticReply,
                                 head: RequestHead, chunks: seq<Payload>, m: map<Topic, Packet>)
    requires Route(h, serveLibraries, st, head, chunks, m).Written?
    ensures var a := Route(h, serveLibraries, st, head, chunks, m);
      && (chunks == [] ==> a.payload == [])
      && (chunks != [] ==> a.payload == chunks[0])
      && ReplyOf(a) == Reply(204, map["Location" := HttpRoot + a.topic], [], true)
      && MatchResource(HttpRoot, ReplyOf(a).headers["Location"]) == Some(a.topic)
  {
    LocationRematches(HttpRoot, head.url);
  }

  /** When `authorizePut` refuses or errors, nothing is stored, published or
      emitted. */
  lemma RefusedWriteHasNoEffect(h: Hooks<RequestHead>, serveLibraries: bool, st: string -> StaticReply,
                                head: RequestHead, chunks: seq<Payload>, m: map<Topic, Packet>)
    requires Route(h, serveLibraries, st, head, chunks, m) == Refused(AtAuthorizePut, 403)
          || Route(h, serveLibraries, st, head, chunks, m) == Refused(AtAuthorizePut, 500)
    ensures var steps := StepsOf(Route(h, serveLibraries, st, head, chunks, m), head.url);
      forall i :: 0 <= i < |steps| ==> !steps[i].StoreRetained? && !steps[i].Publish? && !steps[i].EmitUpdated?
  {
  }

  /** A GET that passes the gate. */
  predicate ReadGranted(h: Hooks<RequestHead>, head: RequestHead)
  {
    && head.verb == "GET"
    && MatchResource(HttpRoot, head.url).Some?
    && h.authenticate(head).Authenticated?
    && h.authorizeGet(h.authenticate(head).subject, MatchResource(HttpRoot, head.url).value) == Granted
  }

  /** A GET answers 404 "Not found" before any write, and 200 with the
      payload of the last write after one. */
  lemma GetAfterWrite(h: Hooks<RequestHead>, serveLibraries: bool, st: string -> StaticReply,
                      put: RequestHead, body: seq<Payload>, m: map<Topic, Packet>, get: RequestHead)
    requires Route(h, serveLibraries, st, put, body, m).Written?
    requires ReadGranted(h, get) && MatchResource(HttpRoot, get.url) == MatchResource(HttpRoot, put.url)
    ensures var w := Route(h, serveLibraries, st, put, body, m);
      && (w.topic !in m ==> ReplyOf(Route(h, serveLibraries, st, get, [], m)) == Reply(404, map[], [MissingBody], true))
      && ReplyOf(Route(h, serveLibraries, st, get, [], m[w.topic := Packet(w.topic, w.payload, true)]))
         == Reply(200, map[], [FirstChunk(body)], true)
  {
  }

  /** With the default hooks no request is ever refused. */
  lemma DefaultHooksNeverRefuse(serveLibraries: bool, st: string -> StaticReply, head: RequestHead,
                                chunks: seq<Payload>, m: map<Topic, Packet>)
    ensures !Route(DefaultHooks(), serveLibraries, st, head, chunks, m).Refused?
  {
  }
}
