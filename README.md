# Ponte gateway core, modelled in Dafny

Ponte is a gateway that puts one store of retained values (the last packet
per topic) and one publish/subscribe broker behind CoAP, HTTP and MQTT. This
project models:

- the CoAP request handler: path matching on `/r/<topic>`, the
  authenticate/authorize gate, `_handleGET` with and without `Observe: 0`,
  `_handlePUT`, and the unsubscribe listeners;
- the HTTP dispatcher built by `buildServer`: `/resources/<topic>` routing,
  the same gate with HTTP statuses, `handleGetResource`,
  `handlePutResource`, `handleNotFound`, and the static-library fallback;
- the `Ponte` façade: the sequential start over the service table with the
  option merge, and `close` in reverse order;
- the service table: names, order, defaults, each factory's edits to its
  options, and the MQTT `published` → `updated` bridge;
- the command line's mapping from parsed flags to the options object.

Modules, one per file:

- `Wrappers` (`wrappers.dfy`): `Option`.
- `Backend` (`backend.dfy`): the collaborators the adapters call.
  - The retained store `Persistence` and the `Broker` are classes whose
    fields the calls update.
  - The gateway's `updated` event log is the class `Events`.
  - A response stream is the class `Response`.
- `Routes` (`routes.dfy`): the JavaScript regular expression `^<root>(.+)$`
  as a function.
- `Auth` (`auth.dfy`): the three hooks and their defaults.
- `Coap` (`coap.dfy`) and `Http` (`http.dfy`):
  - `Route` is a pure reference definition of what a request leads to: an
    `Action`.
  - `ReplyOf` and `StepsOf` give the response state and the ordered calls
    of each action.
  - `Handle` and `Serve` are the imperative handlers. They follow the
    callback chain step by step on the mutable collaborators and return a
    ghost trace of the calls they made.
  - Their contracts tie every effect to `Route`. The lemmas state the
    adapters' promises about `Route`.
- `Servers` (`servers.dfy`): the service table and the factories' option
  edits.
- `Facade` (`ponte.dfy`): the class `Ponte`.
  - Its constructor runs the start series as a loop. The loop is proved
    against the reference definition `Replay`.
  - `Close` runs the close series as a loop, proved against `ClosePlan`.
- `Cli` (`cli.dfy`): `BuildOptions`, the flags-to-options mapping, and `Run`.

Callbacks in the source are modelled as the calls happening in order within
one method: every collaborator here calls back synchronously, exactly once.
The hooks, the factories, the services' `close` functions, the static file
server and the configuration file loader are external. Each is a function
parameter giving the outcome of the call.

## Model

| member | source | states |
|---|---|---|
| Routes.MatchResource | lib/coap.js:18 | `url.match(/^<root>(.+)$/)`: a captured topic is what follows the root in the URL, non-empty and free of line terminators |
| Routes.MatchIff | lib/coap.js:52-66 | a URL matches with topic `t` exactly when it is the root followed by `t`, `t` is non-empty and `t` holds no JavaScript line terminator |
| Routes.OtherPrefixNeverMatches | lib/http.js:195-196 | a URL that does not start with the root never matches |
| Routes.LocationRematches | lib/coap.js:173 | the root followed by a matched topic (the `Location-Path` or `Location` a write replies with) matches again to the same topic |
| Routes.DoubleSlashKeepsDelimiter | lib/http.js:18 | `/resources//hello` gives topic `/hello`, and `/resources/hello` gives `hello` |
| Routes.RootAloneOrLineBreakNeverMatches | lib/coap.js:18 | `/r/` alone and a topic holding `\n` do not match |
| Auth.UnconfiguredAllowsEveryone | lib/coap.js:37-47 | each hook whose option is absent keeps its default, whatever the other options are: every request is authenticated, every read and every write is authorized |
| Auth.ConfiguredHookIsUsed | lib/coap.js:37-47 | a hook given as a function option replaces the default, for each of the three hooks |
| Backend.ConcatAppend | lib/coap.js:93-94 | concatenating the body chunks distributes over splitting the chunk list: `Concat(a + b) == Concat(a) + Concat(b)` |
| Backend.Ascii | lib/http.js:182 | the bytes of a string reply have the string's length, one per character, each the low byte of the character's code |
| Backend.Persistence.LookupRetained | lib/coap.js:138-139 | `lookupRetained` yields no packet for an unknown topic and exactly the stored packet for a known one |
| Backend.Persistence.StoreRetained | lib/coap.js:169-171 | `storeRetained` replaces the record of the packet's topic and leaves the others |
| Backend.Broker.Subscribe | lib/coap.js:149 | `subscribe` appends one subscription for a response not yet subscribed, keeping responses distinct |
| Backend.Broker.Unsubscribe | lib/coap.js:151-157 | `unsubscribe` removes the subscription if it is there, keeps responses distinct and logs the call either way |
| Backend.Broker.Publish | lib/coap.js:133-136 | a publish is logged, and each response subscribed to the topic that has not ended gets the payload as one more chunk; nothing else about the responses changes |
| Backend.Events.EmitUpdated | lib/coap.js:177 | `emit('updated', topic, payload)` appends exactly one event |
| Backend.Without | lib/coap.js:152 | what `unsubscribe` leaves: every remaining subscription was there before and is not the removed one, and every other one stays |
| Backend.WithoutIdempotent | lib/coap.js:151-157 | removing the same subscription twice leaves what removing it once left |
| Backend.UnsubscribeUndoesSubscribe | lib/coap.js:149-157 | unsubscribing a callback removes exactly the subscription subscribing it added, and a second unsubscribe (request error and response finish both firing) removes nothing more |
| Backend.WithoutKeepsDistinct | lib/coap.js:152 | unsubscribing never makes a response appear twice |
| Coap.Handle | lib/coap.js:51-117 | the handler leaves the response as `ReplyOf(Route(...))`, makes exactly the calls `StepsOf(Route(...))` in order, stores, publishes and emits only for a granted PUT, subscribes and registers both listeners only for an observed GET, and writes later publishes only to the subscribed responses |
| Coap.HandleAuthenticated | lib/coap.js:78-111 | after authentication: the method's authorize hook, then `_handleGET` or `_handlePUT`, with every effect tied to `Dispatch` |
| Coap.HandleGet | lib/coap.js:129-164 | 4.04 without subscribing when nothing is retained; with `Observe: 0`, one subscription, both listeners, and a `write` that leaves the stream open; otherwise `end` with the payload |
| Coap.HandlePut | lib/coap.js:166-180 | stores `{topic, payload, retain: true}`, publishes, sets `Location-Path` `/r/<topic>` and 2.04 and ends, then emits `updated` once, in that order |
| Coap.HandleAuthError | lib/coap.js:220-224 | code 5.00, and the response ends |
| Coap.HandleNotAuthenticated | lib/coap.js:226-230 | code 4.01, and the response ends |
| Coap.HandleNotAuthorized | lib/coap.js:232-236 | code 4.03, and the response ends |
| Coap.RequestError | lib/coap.js:151-153 | the request's `error` event removes the observation's subscription if one was registered |
| Coap.Finish | lib/coap.js:155-157 | the response's `finish` event ends it and removes the observation's subscription if one was registered |
| Coap.UnroutedBypassesGate | lib/coap.js:113-116 | a path that is not `/r/<topic>` gets 4.04 whatever the hooks, and `authenticate` is never called |
| Coap.ChangedTopicRematches | lib/coap.js:66 | a write's topic is the non-empty rest of the URL after `/r/`, and its `Location-Path` matches back to it |
| Coap.HandlerRunsIffBothGatesPass | lib/coap.js:67-108 | a lookup or a store happens exactly when authentication and the authorization for the request's method both pass |
| Coap.RefusalCodes | lib/coap.js:67-105 | an authenticate error gives 5.00 and a failed authentication 4.01; an authorize error gives 5.00 and a denial 4.03; both directions of each |
| Coap.RefusedPutHasNoEffect | lib/coap.js:96-107 | a PUT whose `authorizePut` denies or errors stores, publishes and emits nothing and does not answer 2.04 |
| Coap.PutIgnoresStore | lib/coap.js:92-110 | what a PUT does does not depend on what is retained |
| Coap.PutThenGet | lib/coap.js:138-171 | after a granted PUT, a GET of the same topic answers 2.05 with the concatenated body; a later PUT replaces it in the same way |
| Coap.MissingTopicNotFound | lib/coap.js:138-143 | a GET of a topic with no record answers 4.04, ends the response and subscribes nothing |
| Coap.ObserveKeepsStreamOpen | lib/coap.js:145-162 | with `Observe: 0` the retained payload is written once after one subscription and the stream stays open; without it the payload is sent with `end` |
| Coap.DefaultHooksNeverRefuse | lib/coap.js:191-218 | with the default hooks no request is refused |
| Http.NotFoundBodies | lib/http.js:129-182 | the two 404 bodies are the bytes of "Not Found" and "Not found", and they differ |
| Http.Serve | lib/http.js:185-228 | the server (`corsify` around the dispatcher) leaves the response as `ReplyOf(Route(...))`, makes exactly the calls `StepsOf(Route(...))` in order, ends a pre-flight request before the dispatcher, and stores, publishes and emits only for a granted write |
| Http.PreflightShortCircuits | lib/http.js:185-187 | an OPTIONS request is ended by `corsify` with the default status 200, whatever the hooks and the URL, and is never authenticated, looked up, stored or served statically |
| Http.HandleGetResource | lib/http.js:111-139 | declines every method but GET and leaves the response untouched; otherwise 500/403 from the hook, 404 "Not found" when nothing is retained, else the payload with the default status |
| Http.HandlePutResource | lib/http.js:141-178 | declines every method but PUT and POST; otherwise takes the first chunk or the empty payload, and when granted stores, publishes, replies 204 with `Location` and emits once; a refused write changes nothing |
| Http.HandleNotFound | lib/http.js:180-183 | status 404 and body "Not Found" |
| Http.Refuse | lib/http.js:81-97 | the failure helpers set their status and end the response |
| Http.NonResourceNeverAuthenticated | lib/http.js:194-227 | a URL that is not `/resources/<topic>` is never authenticated: a pre-flight request is ended by `corsify`, any other goes to the static server when libraries are served and gets 404 "Not Found" otherwise, whatever the hooks |
| Http.MethodDispatch | lib/http.js:210-216 | after authentication, GET goes to the read handler, PUT and POST to the write handler, OPTIONS never reaches the dispatcher, and every other method gets 404 "Not Found"; both directions |
| Http.PostIsPut | lib/http.js:142 | POST is the same write as PUT |
| Http.RefusalStatuses | lib/http.js:199-208 | an authenticate error gives 500 and a failed authentication 401; an authorize error gives 500 and a denial 403; both directions of each |
| Http.WritePayloadIsFirstChunk | lib/http.js:146-151 | a write carries the first body chunk, an absent body is an empty write, and the reply is 204 with a `Location` that matches back to the topic |
| Http.RefusedWriteHasNoEffect | lib/http.js:153-162 | a write whose `authorizePut` denies or errors stores, publishes and emits nothing |
| Http.GetAfterWrite | lib/http.js:127-134 | before any write a GET answers 404 "Not found"; after a write it answers 200 with the written payload |
| Http.DefaultHooksNeverRefuse | lib/http.js:239-266 | with the default hooks no request is refused |
| Servers.NameOf | lib/servers.js:10-61 | a key names at most one service of the table, the one whose key it is |
| Servers.NameOfKey | lib/servers.js:10-61 | every service is named back by its key |
| Servers.TableOrder | lib/servers.js:10-61 | the start order is logger, broker, persistence, mqtt, http, coap |
| Servers.TableDistinct | lib/servers.js:10-61 | no service appears twice in the table |
| Servers.Xtend | lib/ponte.js:38 | `xtend(defaults, user)` has both key sets, the user's value wins where both have one, and the default fills the rest |
| Servers.StartOptionsMerge | lib/ponte.js:38-39 | on every key its own factory leaves alone, a service's options keep the user's value and take the default for a missing key (all keys for HTTP, CoAP and persistence); every service but the logger carries the `ponte` back-reference |
| Servers.FactoryEditsAt | lib/servers.js:12-48 | the logger factory drops `ponte`, the broker factory sets `json = false`, and MQTT gets `ponte.broker` as `ascoltatore` and a child logger tagged `MQTT` |
| Servers.DefaultsWithoutUserOptions | lib/servers.js:16-60 | without user options: logger `{name: "ponte", level: 40}`, persistence type `memory`, HTTP port 3000, CoAP port 5683 |
| Servers.OnPublished | lib/servers.js:44-46 | every MQTT `published` packet is emitted once as `updated(packet.topic, packet.payload)` |
| Facade.Ponte.constructor | lib/ponte.js:23-49 | the services start in table order; each gets `StartOptions` and its instance is recorded before the next starts; the first factory error stops the series and goes to `done`, which is only called when given; a function as first argument means empty options |
| Facade.Ponte.StartSeries | lib/ponte.js:37-48 | the `eachSeries` loop leaves exactly the record `Replay` defines after `StartCount` steps, and `done` gets `StartError` |
| Facade.ReplayStarted | lib/ponte.js:37-44 | after `k` steps: the first `k` services have started, in order; each has its own section and its factory's instance; every service without an instance keeps the user's section |
| Facade.ReplayUntouched | lib/ponte.js:38 | a service not yet reached has no instance, and its section is still the user's |
| Facade.SectionsAt | lib/ponte.js:38-39 | the section of the `j`-th service is `StartOptions` of that service |
| Facade.OutcomesAt | lib/ponte.js:40 | the `j`-th outcome is what the `j`-th factory calls back with when handed its section |
| Facade.FirstFailureIsFirst | lib/ponte.js:40-43 | the series stops at a factory that failed, and every factory before it succeeded |
| Facade.SeriesEnd | lib/ponte.js:44-48 | a series stopped by an error or by the end of the table has started `StartCount` services and reports `StartError` |
| Facade.Ponte.Close | lib/ponte.js:53-63 | `close` calls exactly the closes `ClosePlan` lists for the reversed table, in order, and ends with its outcome |
| Facade.CloseAllInReverse | lib/ponte.js:55-62 | when every service runs and every close succeeds, the closes called are those of the services that have one, in exact reverse start order |
| Facade.ClosableReverse | lib/ponte.js:57-61 | skipping the services without `close` commutes with reversing |
| Facade.ReverseAt | lib/ponte.js:55 | the reversed copy holds at position `i` the element at `n - 1 - i` |
| Facade.CloseAfterFailedStartCrashes | lib/ponte.js:57 | closing a gateway whose start stopped before CoAP reads `close` of a service that never started, and throws before any close is called |
| Cli.BuildOptions | lib/cli.js:45-96 | a truthy `--config` replaces everything; otherwise five sections; logger level 30 for `--verbose`, else 20 for `--very-verbose`; each port only when truthy; each protocol's own host over `--host`; `--db` sets the path and type `level` |
| Cli.ServerSectionUnique | lib/cli.js:59-87 | the flags fix each server section completely, whatever order the flags came in |
| Cli.PortFlagReachesServer | lib/cli.js:59-75 | a truthy port flag becomes the HTTP or CoAP server's port, its absence leaves the default 3000 or 5683, and the host flags reach the server too |
| Cli.Run | lib/cli.js:94-98 | the command line starts the gateway with the options it built |

## Left out

- Networking is not modelled: `listen`, `close` of the sockets, the node-coap and Node `http` servers, the ports and hosts actually bound. Each service's `close` outcome is the parameter `closer`.
- The MQTT server (mosca), `attachHttpServer` and `persistence.wire` are left out; of the MQTT factory only its option edits and the `published` bridge are modelled.
- lib/persistence.js is not part of this model: it only selects a mosca persistence constructor by `opts.type`. The retained store is a map from topic to its last packet. Any policy of the mosca backend itself, such as deleting a record when an empty retained payload arrives, is not modelled.
- Broker internals (ascoltatori, wildcards, QoS) are not modelled: a publish reaches the responses subscribed to exactly its topic.
- Commander's parsing and `parseInt` are not modelled: `Flags` holds the parsed values, and a port is `Parsed(n)` or `NaN`.
- `require(path.resolve(c))` is the parameter `load`; a configuration file that is not an object of sections is not modelled.
- The static file server `st` and its chaining from the ponte to the mosca public directory are one parameter `st` giving the reply for a URL.
- The access-control headers `corsify` adds to every response are left out. Its ending of pre-flight OPTIONS requests is modelled as the `Preflight` action; the headers a pre-flight reply carries are not.
- Logging (bunyan) is left out, and so are its child loggers apart from the MQTT logger options.
- Errors from `callback-stream`, `lookupRetained` and `storeRetained` callbacks, which the source ignores, are not modelled.
- A hook that never calls back, and concurrent requests interleaving their callbacks, are not modelled: each request runs to completion.
- The library defaults for statuses are the constants `DefaultCode` ("2.05", node-coap) and `DefaultStatus` (200, Node).
- HTTP's `emit('updated', topic, new Buffer(payload))` is modelled as emitting the payload bytes; the string-versus-Buffer distinction is not modelled, and a payload is always bytes.
- `Ponte()` with no options object and no callback throws in the source; the model requires one of the two forms.
- Backend.Ascii: models only the low byte of each character code; this equals the UTF-8 bytes Node sends for the ASCII literals the gateway uses, but not for other characters.
- Servers.Table: written as `seq(6, Entry)` rather than as a literal; `TableOrder` proves it is the six services in order.
- The reversed copy in `close` is a value, and the table is a constant, so the claim that the shared list is unchanged holds by construction and is not stated as a lemma.
- `that[obj.service]` is recorded as an `Option<Instance>` per service. A present instance is modelled only by whether it has a `close` function.
