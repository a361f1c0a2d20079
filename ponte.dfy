/**
 * The gateway façade: the `Ponte` constructor starts the services of the
 * table one after another (`async.eachSeries`), and `close` stops them in
 * reverse order. The factories and the services' own `close` are external:
 * they are parameters giving the outcome of each call.
 */
module Facade {
  import opened Wrappers
  import opened Servers

  datatype Error = Error(message: string)

  /** A started service, and whether it has a `close` function. */
  datatype Instance = Instance(service: ServiceName, hasClose: bool)

  /** What a factory calls back with: `cb(err, instance)`. */
  datatype FactoryResult = FactoryResult(err: Option<Error>, instance: Option<Instance>)

  /** `Ponte(opts, done)`, or `Ponte(done)` with a function as first argument. */
  datatype PonteArgs = WithOptions(opts: Options, hasDone: bool) | OnlyCallback

  function UserOptions(args: PonteArgs): Options
  {
    if args.OnlyCallback? then map[] else args.opts
  }

  function HasDone(args: PonteArgs): bool
  {
    args.OnlyCallback? || args.hasDone
  }

  /** The options each of `services` is built with from the user's. */
  function Sections(services: seq<ServiceName>, user: Options): (r: seq<Section>)
    ensures |r| == |services|
  {
    if services == [] then [] else [StartOptions(services[0], user)] + Sections(services[1..], user)
  }

  lemma {:induction false} SectionsAt(services: seq<ServiceName>, user: Options, j: nat)
    requires j < |services|
    ensures Sections(services, user)[j] == StartOptions(services[j], user)
  {
    if j > 0 {
      SectionsAt(services[1..], user, j - 1);
    }
  }

  /** What the factory of each of `services` calls back with when handed
      its section. */
  function Outcomes(services: seq<ServiceName>, factory: (ServiceName, Section) -> FactoryResult, sections: seq<Section>)
    : (r: seq<FactoryResult>)
    requires |sections| == |services|
    ensures |r| == |services|
  {
    if services == [] then []
    else [factory(services[0], sections[0])] + Outcomes(services[1..], factory, sections[1..])
  }

  lemma {:induction false} OutcomesAt(services: seq<ServiceName>, factory: (ServiceName, Section) -> FactoryResult,
                                      sections: seq<Section>, j: nat)
    requires |sections| == |services|
    requires j < |services|
    ensures Outcomes(services, factory, sections)[j] == factory(services[j], sections[j])
  {
    if j > 0 {
      OutcomesAt(services[1..], factory, sections[1..], j - 1);
    }
  }

  /** The index of the first outcome, from `i` on, that is an error. */
  function FirstFailure(results: seq<FactoryResult>, i: nat): (r: Option<nat>)
    requires i <= |results|
    ensures r.Some? ==> i <= r.value < |results|
    decreases |results| - i
  {
    if i == |results| then None
    else if results[i].err.Some? then Some(i)
    else FirstFailure(results, i + 1)
  }

  /** The series stops at the first factory error and at no other. */
  lemma {:induction false} FirstFailureIsFirst(results: seq<FactoryResult>, i: nat)
    requires i <= |results|
    ensures var r := FirstFailure(results, i);
      && (r.Some? ==> results[r.value].err.Some?)
      && (forall j :: i <= j < (if r.Some? then r.value else |results|) ==> results[j].err.None?)
    decreases |results| - i
  {
    if i < |results| && results[i].err.None? {
      FirstFailureIsFirst(results, i + 1);
    }
  }

  /** How many services start: all of them, or up to and including the
      first whose factory fails. */
  function StartCount(results: seq<FactoryResult>): (k: nat)
    ensures k <= |results|
  {
    match FirstFailure(results, 0)
    case Some(j) => j + 1
    case None => |results|
  }

  /** What `done` is called with: the first factory error, if any. */
  function StartError(results: seq<FactoryResult>): Option<Error>
  {
    match FirstFailure(results, 0)
    case Some(j) => results[j].err
    case None => None
  }

  /** Where a series stands after `i` services: either no factory has
      failed so far, or the one just started was the first to fail. */
  ghost predicate Progress(results: seq<FactoryResult>, i: nat, err: Option<Error>)
    requires i <= |results|
  {
    if err.None? then FirstFailure(results, 0) == FirstFailure(results, i)
    else i > 0 && FirstFailure(results, 0) == Some(i - 1) && err == results[i - 1].err
  }

  lemma ProgressStep(results: seq<FactoryResult>, i: nat)
    requires i < |results|
    requires Progress(results, i, None)
    ensures Progress(results, i + 1, results[i].err)
  {
  }

  /** A series stopped at `i`, by an error or the end of the table, has
      started `StartCount` services and reports `StartError`. */
  lemma SeriesEnd(results: seq<FactoryResult>, i: nat, err: Option<Error>)
    requires i <= |results|
    requires Progress(results, i, err)
    requires i == |results| || err.Some?
    ensures StartCount(results) == i
    ensures StartError(results) == err
  {
  }

  /** The outcome of closing the series. */
  datatype CloseResult = Closed | CloseFailed(err: Error) | Crashed(service: ServiceName)

  /** The reference definition of `close` over the services in `names`:
      the services whose `close` is called, in order, and the outcome.
      Reading `close` of a service that never started throws. */
  function ClosePlan(names: seq<ServiceName>, instances: map<ServiceName, Option<Instance>>,
                     closer: ServiceName -> Option<Error>): (seq<ServiceName>, CloseResult)
  {
    if names == [] then ([], Closed)
    else
      var n := names[0];
      if n !in instances || instances[n].None? then ([], Crashed(n))
      else if !instances[n].value.hasClose then ClosePlan(names[1..], instances, closer)
      else if closer(n).Some? then ([n], CloseFailed(closer(n).value))
      else
        var rest := ClosePlan(names[1..], instances, closer);
        ([n] + rest.0, rest.1)
  }

  /** The services of `names` that have a `close`, in order. */
  function Closable(names: seq<ServiceName>, instances: map<ServiceName, Option<Instance>>): seq<ServiceName>
  {
    if names == [] then []
    else
      var n := names[0];
      (if n in instances && instances[n].Some? && instances[n].value.hasClose then [n] else [])
      + Closable(names[1..], instances)
  }

  /** `[].concat(servers).reverse()`: a reversed copy. */
  function Reverse<T>(s: seq<T>): (r: seq<T>)
    ensures |r| == |s|
  {
    if s == [] then [] else [s[|s| - 1]] + Reverse(s[..|s| - 1])
  }

  lemma {:induction false} ReverseAt<T>(s: seq<T>, i: nat)
    requires i < |s|
    ensures Reverse(s)[i] == s[|s| - 1 - i]
  {
    if i > 0 {
      ReverseAt(s[..|s| - 1], i - 1);
    }
  }

  lemma {:induction false} ClosableAppend(a: seq<ServiceName>, b: seq<ServiceName>, instances: map<ServiceName, Option<Instance>>)
    ensures Closable(a + b, instances) == Closable(a, instances) + Closable(b, instances)
  {
    if a == [] {
      assert a + b == b;
    } else {
      assert (a + b)[1..] == a[1..] + b;
      ClosableAppend(a[1..], b, instances);
    }
  }

  /** Skipping the services without `close` commutes with reversing. */
  lemma {:induction false} ClosableReverse(s: seq<ServiceName>, instances: map<ServiceName, Option<Instance>>)
    ensures Closable(Reverse(s), instances) == Reverse(Closable(s, instances))
    decreases |s|
  {
    if s != [] {
      var init, last := s[..|s| - 1], s[|s| - 1];
      assert s == init + [last];
      ClosableReverse(init, instances);
      ClosableAppend(init, [last], instances);
      assert Reverse(s) == [last] + Reverse(init);
      assert ([last] + Reverse(init))[1..] == Reverse(init);
      var c := Closable([last], instances);
      assert Closable([last], instances) == c + [] by {
        assert [last][1..] == [];
      }
      ReverseAppendSingle(Closable(init, instances), c);
    }
  }

  /** Reversing `a + c`, where `c` has at most one element. */
  lemma ReverseAppendSingle<T>(a: seq<T>, c: seq<T>)
    requires |c| <= 1
    ensures Reverse(a + c) == c + Reverse(a)
  {
    if |c| == 1 {
      assert (a + c)[..|a + c| - 1] == a;
    } else {
      assert a + c == a && c + Reverse(a) == Reverse(a);
    }
  }

  /** When every service is running and every `close` succeeds, the closes
      called are exactly those of the services that have one, in exact
      reverse start order. */
  lemma {:induction false} CloseAllInReverse(names: seq<ServiceName>, instances: map<ServiceName, Option<Instance>>,
                                             closer: ServiceName -> Option<Error>)
    requires forall n :: n in names ==> n in instances && instances[n].Some? && closer(n).None?
    ensures ClosePlan(Reverse(names), instances, closer) == (Reverse(Closable(names, instances)), Closed)
  {
    forall n | n in Reverse(names) ensures n in names {
      var i :| 0 <= i < |Reverse(names)| && Reverse(names)[i] == n;
      ReverseAt(names, i);
    }
    ClosePlanAllRunning(Reverse(names), instances, closer);
    ClosableReverse(names, instances);
  }

  lemma {:induction false} ClosePlanAllRunning(names: seq<ServiceName>, instances: map<ServiceName, Option<Instance>>,
                                               closer: ServiceName -> Option<Error>)
    requires forall n :: n in names ==> n in instances && instances[n].Some? && closer(n).None?
    ensures ClosePlan(names, instances, closer) == (Closable(names, instances), Closed)
  {
    if names != [] {
      var n := names[0];
      assert n in names;
      assert forall m :: m in names[1..] ==> m in names;
      ClosePlanAllRunning(names[1..], instances, closer);
      var rest := ClosePlan(names[1..], instances, closer);
      if instances[n].value.hasClose {
        assert ClosePlan(names, instances, closer) == ([n] + rest.0, rest.1);
        assert Closable(names, instances) == [n] + Closable(names[1..], instances);
      } else {
        assert ClosePlan(names, instances, closer) == rest;
        assert Closable(names, instances) == [] + Closable(names[1..], instances) == Closable(names[1..], instances);
      }
    }
  }

  /** Closing a gateway whose start stopped early reads `close` of the last
      service, which never started, and throws before any `close` is called. */
  lemma CloseAfterFailedStartCrashes(instances: map<ServiceName, Option<Instance>>, closer: ServiceName -> Option<Error>)
    requires Coap !in instances
    ensures ClosePlan(Reverse(Table), instances, closer) == ([], Crashed(Coap))
  {
    ReverseAt(Table, 0);
  }

  class Ponte {
    /** `this.options`: the same object the series edits step by step. */
    var options: Options
    /** `that[service]` for each service whose factory has called back. */
    var instances: map<ServiceName, Option<Instance>>
    /** The factories called, in order. */
    ghost var started: seq<ServiceName>
    /** The services whose `close` was called, in order. */
    ghost var closed: seq<ServiceName>
    /** `None` when there is no `done`; otherwise what it was called with. */
    var doneWith: Option<Option<Error>>

    /** The services of the table start strictly one after another; each is
        built with `StartOptions`, and `that[service]` is set before the next
        one starts. The first factory error stops the series and is handed
        to `done`; later services are never started. */
    constructor (args: PonteArgs, factory: (ServiceName, Section) -> FactoryResult)
      ensures var user := UserOptions(args);
        var sections := Sections(Table, user);
        var results := Outcomes(Table, factory, sections);
        && State() == Replay(Table, sections, results, user, StartCount(results))
        && doneWith == (if HasDone(args) then Some(StartError(results)) else None)
      ensures closed == []
    {
      var user := UserOptions(args);
      options := user;
      instances := map[];
      started := [];
      closed := [];
      doneWith := None;
      new;
      TableDistinct();
      StartSeries(Table, factory, user, HasDone(args));
    }

    /** What the start series has recorded so far. */
    ghost function State(): StartState
      reads this`started, this`instances, this`options
    {
      StartState(started, instances, options)
    }

    /** `async.eachSeries` over `services`: per service, merge its defaults
        under the user's section, add the back-reference, call its factory
        and record the instance; the first error ends the series and goes
        to `done`. `sections` and `results` name what each step computes. */
    method StartSeries(services: seq<ServiceName>, factory: (ServiceName, Section) -> FactoryResult, user: Options, hasDone: bool)
      requires Distinct(services)
      requires State() == StartState([], map[], user)
      modifies this`options, this`instances, this`started, this`doneWith
      ensures var sections := Sections(services, user);
        var results := Outcomes(services, factory, sections);
        && State() == Replay(services, sections, results, user, StartCount(results))
        && doneWith == (if hasDone then Some(StartError(results)) else None)
    {
      ghost var sections := Sections(services, user);
      ghost var results := Outcomes(services, factory, sections);
      var i := 0;
      var err: Option<Error> := None;
      while i < |services| && err.None?
        invariant 0 <= i <= |services|
        invariant Progress(results, i, err)
        invariant State() == Replay(services, sections, results, user, i)
      {
        var svc := services[i];
        NextStep(services, factory, user, i, options);
        var section := Xtend(Defaults(svc), SectionOf(options, Key(svc)));
        section := section["ponte" := Ref("ponte")];
        section := FactoryEdits(svc, section);
        assert section == sections[i];
        options := options[Key(svc) := section];
        var result := factory(svc, section);
        instances := instances[svc := result.instance];
        started := started + [svc];
        ProgressStep(results, i);
        err := result.err;
        i := i + 1;
      }
      SeriesEnd(results, i, err);
      doneWith := if hasDone then Some(err) else None;
    }

    /** `close`: visits a reversed copy of the table one service at a time,
        calls `close` of those that have one and skips the others; the first
        error stops the series. */
    method Close(closer: ServiceName -> Option<Error>) returns (result: CloseResult)
      modifies this`closed
      ensures (closed, result) == (old(closed) + ClosePlan(Reverse(Table), instances, closer).0,
                                   ClosePlan(Reverse(Table), instances, closer).1)
    {
      var reversed := Reverse(Table);
      ghost var called: seq<ServiceName> := [];
      var i := 0;
      result := Closed;
      assert reversed[0..] == reversed;
      while i < |reversed|
        invariant 0 <= i <= |reversed|
        invariant closed == old(closed) + called
        invariant ClosePlan(reversed, instances, closer).0 == called + ClosePlan(reversed[i..], instances, closer).0
        invariant ClosePlan(reversed, instances, closer).1 == ClosePlan(reversed[i..], instances, closer).1
        decreases |reversed| - i
      {
        var n := reversed[i];
        assert reversed[i..][1..] == reversed[i + 1..];
        if n !in instances || instances[n].None? {
          assert called + [] == called;
          return Crashed(n);
        }
        if instances[n].value.hasClose {
          ghost var before := called;
          closed := closed + [n];
          called := called + [n];
          assert closed == old(closed) + called;
          var e := closer(n);
          if e.Some? {
            assert ClosePlan(reversed[i..], instances, closer) == ([n], CloseFailed(e.value));
            assert ClosePlan(reversed, instances, closer).0 == before + [n] == called;
            return CloseFailed(e.value);
          }
          assert called + ClosePlan(reversed[i + 1..], instances, closer).0
              == called[..|called| - 1] + ([n] + ClosePlan(reversed[i + 1..], instances, closer).0);
        }
        i := i + 1;
      }
      assert called + [] == called;
    }
  }

  /** What a start series records: the services whose factory was called,
      in order, `that[service]` for each, and the options object. */
  datatype StartState = StartState(started: seq<ServiceName>, instances: map<ServiceName, Option<Instance>>, options: Options)

  /** The reference definition of the series: the record after the first
      `k` services have started, each with `sections[j]` and outcome
      `results[j]`. */
  function Replay(services: seq<ServiceName>, sections: seq<Section>, results: seq<FactoryResult>, user: Options, k: nat)
    : StartState
    requires k <= |services| == |sections| == |results|
  {
    if k == 0 then StartState([], map[], user)
    else
      var s := Replay(services, sections, results, user, k - 1);
      var n := services[k - 1];
      StartState(s.started + [n], s.instances[n := results[k - 1].instance], s.options[Key(n) := sections[k - 1]])
  }

  /** A service not among the first `k` is not recorded, and its section is
      still the user's. */
  lemma {:induction false} ReplayUntouched(services: seq<ServiceName>, sections: seq<Section>, results: seq<FactoryResult>,
                                           user: Options, k: nat, n: ServiceName)
    requires k <= |services| == |sections| == |results|
    requires n !in services[..k]
    ensures n !in Replay(services, sections, results, user, k).instances
    ensures SectionOf(Replay(services, sections, results, user, k).options, Key(n)) == SectionOf(user, Key(n))
  {
    if k > 0 {
      NameOfKey(n);
      NameOfKey(services[k - 1]);
      assert services[..k - 1] == services[..k][..k - 1];
      assert services[k - 1] == services[..k][k - 1];
      ReplayUntouched(services, sections, results, user, k - 1, n);
    }
  }

  /** Whether `key` is the key of a service recorded in `instances`. */
  predicate Taken(key: string, instances: map<ServiceName, Option<Instance>>)
  {
    NameOf(key).Some? && NameOf(key).value in instances
  }

  /** After the first `k` services have started: they, in order, are the
      ones started; each has its instance recorded and its section replaced
      by `sections`; every other section is still the user's. */
  ghost predicate StartedState(s: StartState, services: seq<ServiceName>, sections: seq<Section>, results: seq<FactoryResult>,
                               user: Options, k: nat)
    requires k <= |services| == |sections| == |results|
  {
    && s.started == services[..k]
    && (forall n :: n in s.instances ==> n in s.started)
    && (forall key :: key in s.options <==> key in user || Taken(key, s.instances))
    && (forall j :: 0 <= j < k ==>
          && services[j] in s.instances
          && s.instances[services[j]] == results[j].instance
          && Key(services[j]) in s.options
          && s.options[Key(services[j])] == sections[j])
    && (forall key :: key in user && !Taken(key, s.instances) ==> s.options[key] == user[key])
  }

  /** What the series records, for services with distinct names. */
  lemma ReplayStarted(services: seq<ServiceName>, sections: seq<Section>, results: seq<FactoryResult>,
                      user: Options, k: nat)
    requires Distinct(services)
    requires k <= |services| == |sections| == |results|
    ensures StartedState(Replay(services, sections, results, user, k), services, sections, results, user, k)
  {
    ReplayOrder(services, sections, results, user, k);
    ReplayKeys(services, sections, results, user, k);
    ReplayRecords(services, sections, results, user, k);
  }

  lemma {:induction false} ReplayOrder(services: seq<ServiceName>, sections: seq<Section>, results: seq<FactoryResult>,
                                       user: Options, k: nat)
    requires k <= |services| == |sections| == |results|
    ensures var s := Replay(services, sections, results, user, k);
      s.started == services[..k] && forall n :: n in s.instances ==> n in s.started
  {
    if k == 0 {
      assert services[..0] == [];
    } else {
      ReplayOrder(services, sections, results, user, k - 1);
      assert services[..k] == services[..k - 1] + [services[k - 1]];
    }
  }

  /** The options hold the user's sections and those of the started
      services, and the sections of services not started are the user's. */
  lemma {:induction false} ReplayKeys(services: seq<ServiceName>, sections: seq<Section>, results: seq<FactoryResult>,
                                      user: Options, k: nat)
    requires k <= |services| == |sections| == |results|
    ensures var s := Replay(services, sections, results, user, k);
      && (forall key :: key in s.options <==> key in user || Taken(key, s.instances))
      && (forall key :: key in user && !Taken(key, s.instances) ==> s.options[key] == user[key])
  {
    if k > 0 {
      ReplayKeys(services, sections, results, user, k - 1);
      var s := Replay(services, sections, results, user, k - 1);
      var r := Replay(services, sections, results, user, k);
      var svc := services[k - 1];
      NameOfKey(svc);
      forall key ensures Taken(key, r.instances) <==> key == Key(svc) || Taken(key, s.instances) {
        if key != Key(svc) && NameOf(key).Some? {
          assert NameOf(key).value != svc;
        }
      }
    }
  }

  lemma {:induction false} ReplayRecords(services: seq<ServiceName>, sections: seq<Section>, results: seq<FactoryResult>,
                                         user: Options, k: nat)
    requires Distinct(services)
    requires k <= |services| == |sections| == |results|
    ensures var s := Replay(services, sections, results, user, k);
      forall j :: 0 <= j < k ==>
        && services[j] in s.instances
        && s.instances[services[j]] == results[j].instance
        && Key(services[j]) in s.options
        && s.options[Key(services[j])] == sections[j]
  {
    if k > 0 {
      ReplayRecords(services, sections, results, user, k - 1);
      var r := Replay(services, sections, results, user, k);
      var svc := services[k - 1];
      forall j | 0 <= j < k
        ensures services[j] in r.instances
        ensures r.instances[services[j]] == results[j].instance
        ensures Key(services[j]) in r.options
        ensures r.options[Key(services[j])] == sections[j]
      {
        if j < k - 1 {
          assert services[j] != svc;
          NameOfKey(services[j]);
          NameOfKey(svc);
        }
      }
    }
  }

  /** Step `i` of the series: the section built from the options so far is
      `sections[i]`, and the factory's outcome on it is `results[i]`. */
  lemma NextStep(services: seq<ServiceName>, factory: (ServiceName, Section) -> FactoryResult,
                 user: Options, i: nat, options: Options)
    requires Distinct(services) && i < |services|
    requires var sections := Sections(services, user);
      options == Replay(services, sections, Outcomes(services, factory, sections), user, i).options
    ensures var sections := Sections(services, user);
      var svc := services[i];
      && FactoryEdits(svc, Xtend(Defaults(svc), SectionOf(options, Key(svc)))["ponte" := Ref("ponte")]) == sections[i]
      && factory(svc, sections[i]) == Outcomes(services, factory, sections)[i]
  {
    var sections := Sections(services, user);
    var results := Outcomes(services, factory, sections);
    var svc := services[i];
    assert svc !in services[..i];
    ReplayUntouched(services, sections, results, user, i, svc);
    SectionsAt(services, user, i);
    OutcomesAt(services, factory, sections, i);
    SectionBuilt(options, user, svc);
  }

  /** The section a service is handed is `StartOptions` of the user's. */
  lemma SectionBuilt(options: Options, user: Options, name: ServiceName)
    requires SectionOf(options, Key(name)) == SectionOf(user, Key(name))
    ensures FactoryEdits(name, Xtend(Defaults(name), SectionOf(options, Key(name)))["ponte" := Ref("ponte")])
         == StartOptions(name, user)
  {
  }
}
