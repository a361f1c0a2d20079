/**
 * The authorization hooks shared by both adapters:
 * `authenticate(req, cb(err, authenticated, subject))`,
 * `authorizeGet(subject, topic, cb(err, authorized))` and
 * `authorizePut(subject, topic, payload, cb(err, authorized))`.
 * Each callback outcome is one of: an error, a refusal, or a pass.
 */
module Auth {
  import opened Wrappers
  import opened Backend

  /** The principal `authenticate` hands on to the authorize hooks. The
      default hook returns a fresh empty object, here `Subject(0)`. */
  datatype Subject = Subject(id: nat)

  /** What `authenticate` calls back with. */
  datatype Identity = IdentityFault | Unauthenticated | Authenticated(subject: Subject)

  /** What `authorizeGet` and `authorizePut` call back with. */
  datatype Verdict = VerdictFault | Denied | Granted

  /** The gate at which a request was refused. */
  datatype Gate = AtAuthenticate | AtAuthorizeGet | AtAuthorizePut

  /** The three hooks of one adapter; `R` is what `authenticate` sees of the request. */
  datatype Hooks<!R> = Hooks(
    authenticate: R -> Identity,
    authorizeGet: (Subject, Topic) -> Verdict,
    authorizePut: (Subject, Topic, Payload) -> Verdict)

  /** The hook options given to an adapter; `None` stands for an option that
      is absent or is not a function. */
  datatype HookOptions<!R> = HookOptions(
    authenticate: Option<R -> Identity>,
    authorizeGet: Option<(Subject, Topic) -> Verdict>,
    authorizePut: Option<(Subject, Topic, Payload) -> Verdict>)

  /** The prototype's hooks: everybody is authenticated and authorized. */
  function DefaultHooks<R>(): Hooks<R>
  {
    Hooks(_ => Authenticated(Subject(0)), (_, _) => Granted, (_, _, _) => Granted)
  }

  /** A hook option replaces the default only when it is a function. */
  function Configure<R>(opts: HookOptions<R>): Hooks<R>
  {
    var d := DefaultHooks<R>();
    Hooks(opts.authenticate.GetOr(d.authenticate),
          opts.authorizeGet.GetOr(d.authorizeGet),
          opts.authorizePut.GetOr(d.authorizePut))
  }

  /** Each hook left unconfigured keeps its default, whatever the other
      options are: it authenticates every request, or authorizes every
      subject to read or to write every topic. */
  lemma UnconfiguredAllowsEveryone<R>(opts: HookOptions<R>, req: R, s: Subject, t: Topic, p: Payload)
    ensures opts.authenticate.None? ==> Configure(opts).authenticate(req) == Authenticated(Subject(0))
    ensures opts.authorizeGet.None? ==> Configure(opts).authorizeGet(s, t) == Granted
    ensures opts.authorizePut.None? ==> Configure(opts).authorizePut(s, t, p) == Granted
  {
  }

  /** A configured hook is the one that is used. */
  lemma ConfiguredHookIsUsed<R>(opts: HookOptions<R>, req: R, s: Subject, t: Topic, p: Payload)
    ensures opts.authenticate.Some? ==> Configure(opts).authenticate(req) == opts.authenticate.value(req)
    ensures opts.authorizeGet.Some? ==> Configure(opts).authorizeGet(s, t) == opts.authorizeGet.value(s, t)
    ensures opts.authorizePut.Some? ==> Configure(opts).authorizePut(s, t, p) == opts.authorizePut.value(s, t, p)
  {
  }
}
