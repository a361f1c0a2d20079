/**
 * The command line: how the flags `commander` has parsed become the
 * options object the gateway is started with. Parsing itself is not
 * modelled; `Flags` is what the parsed program object holds, one field per
 * option, absent when the flag was not given.
 */
module Cli {
  import opened Wrappers
  import opened Servers
  import opened Facade

  /** What `parseInt` makes of a port argument: a number, or `NaN`. */
  datatype Port = Parsed(n: int) | NaN

  datatype Flags = Flags(
    mqttPort: Option<Port>, httpPort: Option<Port>, coapPort: Option<Port>,
    host: Option<string>, coapHost: Option<string>, mqttHost: Option<string>, httpHost: Option<string>,
    db: Option<string>, config: Option<string>,
    verbose: bool, veryVerbose: bool)

  /** A parsed port is truthy unless it is absent, 0 or `NaN`. */
  predicate PortGiven(p: Option<Port>)
  {
    p.Some? && p.value.Parsed? && p.value.n != 0
  }

  /** A string flag is truthy unless it is absent or empty. */
  predicate Given(s: Option<string>)
  {
    s.Some? && s.value != ""
  }

  /** The sections the base options always hold. */
  const BaseKeys: set<string> := {"logger", "http", "mqtt", "coap", "persistence"}

  /** The section of one server: the port only when it is truthy, and the
      server's own host flag, else the general `--host`, else no host. */
  ghost predicate ServerSection(s: Section, port: Option<Port>, own: Option<string>, general: Option<string>)
  {
    && s.Keys <= {"port", "host"}
    && ("port" in s <==> PortGiven(port))
    && (PortGiven(port) ==> s["port"] == Num(port.value.n))
    && ("host" in s <==> Given(own) || Given(general))
    && (Given(own) ==> s["host"] == Str(own.value))
    && (!Given(own) && Given(general) ==> s["host"] == Str(general.value))
  }

  /** The flags fix the section: the description above leaves no choice. */
  lemma ServerSectionUnique(s1: Section, s2: Section, port: Option<Port>, own: Option<string>, general: Option<string>)
    requires ServerSection(s1, port, own, general) && ServerSection(s2, port, own, general)
    ensures s1 == s2
  {
    assert s1.Keys == s2.Keys;
  }

  /** The options object the command line hands to the gateway; `load`
      stands for `require(path.resolve(c))` of a configuration file. */
  method BuildOptions(f: Flags, load: string -> Options) returns (opts: Options)
    ensures Given(f.config) ==> opts == load(f.config.value)
    ensures !Given(f.config) ==>
      && opts.Keys == BaseKeys
      && opts["logger"] == (if f.verbose then map["level" := Num(30)]
                            else if f.veryVerbose then map["level" := Num(20)]
                            else map[])
      && ServerSection(opts["http"], f.httpPort, f.httpHost, f.host)
      && ServerSection(opts["mqtt"], f.mqttPort, f.mqttHost, f.host)
      && ServerSection(opts["coap"], f.coapPort, f.coapHost, f.host)
      && opts["persistence"] == (if Given(f.db) then map["path" := Str(f.db.value), "type" := Str("level")]
                                 else map[])
  {
    var logger: Section := map[];
    var http: Section := map[];
    var mqtt: Section := map[];
    var coap: Section := map[];
    var persistence: Section := map[];

    if f.verbose {
      logger := logger["level" := Num(30)];
    } else if f.veryVerbose {
      logger := logger["level" := Num(20)];
    }

    if PortGiven(f.httpPort) {
      http := http["port" := Num(f.httpPort.value.n)];
    }
    if PortGiven(f.mqttPort) {
      mqtt := mqtt["port" := Num(f.mqttPort.value.n)];
    }
    if PortGiven(f.coapPort) {
      coap := coap["port" := Num(f.coapPort.value.n)];
    }

    if Given(f.host) {
      coap := coap["host" := Str(f.host.value)];
      mqtt := mqtt["host" := Str(f.host.value)];
      http := http["host" := Str(f.host.value)];
    }
    if Given(f.coapHost) {
      coap := coap["host" := Str(f.coapHost.value)];
    }
    if Given(f.mqttHost) {
      mqtt := mqtt["host" := Str(f.mqttHost.value)];
    }
    if Given(f.httpHost) {
      http := http["host" := Str(f.httpHost.value)];
    }

    if Given(f.db) {
      persistence := persistence["path" := Str(f.db.value)]["type" := Str("level")];
    }

    opts := map["logger" := logger, "http" := http, "mqtt" := mqtt, "coap" := coap, "persistence" := persistence];

    if Given(f.config) {
      opts := load(f.config.value);
    }
  }

  /** A port flag reaches the HTTP or CoAP server it names, and without one
      the server listens on its default port; the host flags reach it too. */
  lemma PortFlagReachesServer(name: ServiceName, opts: Options, port: Option<Port>,
                              own: Option<string>, general: Option<string>)
    requires name == Http || name == Coap
    requires Key(name) in opts && ServerSection(opts[Key(name)], port, own, general)
    ensures var s := StartOptions(name, opts);
      && "port" in s
      && s["port"] == (if PortGiven(port) then Num(port.value.n) else Defaults(name)["port"])
      && ("host" in s <==> Given(own) || Given(general))
      && (Given(own) ==> s["host"] == Str(own.value))
  {
    StartOptionsMerge(name, opts, "port");
    StartOptionsMerge(name, opts, "host");
    assert "host" !in Defaults(name);
  }

  /** The command line's entry point: builds the options and starts the
      gateway with them and the callback. */
  method Run(f: Flags, load: string -> Options, hasDone: bool,
             factory: (ServiceName, Section) -> FactoryResult) returns (opts: Options, ponte: Ponte)
    ensures Given(f.config) ==> opts == load(f.config.value)
    ensures fresh(ponte)
    ensures var sections := Sections(Table, opts);
      var results := Outcomes(Table, factory, sections);
      && ponte.State() == Replay(Table, sections, results, opts, StartCount(results))
      && ponte.doneWith == (if hasDone then Some(StartError(results)) else None)
  {
    opts := BuildOptions(f, load);
    ponte := new Ponte(WithOptions(opts, hasDone), factory);
  }
}
