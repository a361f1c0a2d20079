/**
 * The service table the gateway starts from: each service's name and
 * defaults, in start order, and what each factory does to the options
 * object it is handed before building its service. Option objects are
 * modelled as maps from key to `Value`; references to live objects are
 * modelled by the path they are read from (`Ref("ponte.broker")`).
 */
module Servers {
  import opened Wrappers
  import opened Backend

  datatype Value = Num(n: int) | Str(s: string) | Bool(b: bool) | Obj(fields: map<string, Value>) | Ref(path: string)

  /** The options object of one service. */
  type Section = map<string, Value>

  /** The gateway's options: one section per service name. */
  type Options = map<string, Section>

  /** The services of the table. */
  datatype ServiceName = Logger | Broker | Persistence | Mqtt | Http | Coap

  /** The name a service goes by: its key in the options and on the gateway. */
  function Key(name: ServiceName): string
  {
    match name
    case Logger => "logger"
    case Broker => "broker"
    case Persistence => "persistence"
    case Mqtt => "mqtt"
    case Http => "http"
    case Coap => "coap"
  }

  /** The service a key names, if any. */
  function NameOf(key: string): (r: Option<ServiceName>)
    ensures r.Some? ==> Key(r.value) == key
  {
    if key == "logger" then Some(Logger)
    else if key == "broker" then Some(Broker)
    else if key == "persistence" then Some(Persistence)
    else if key == "mqtt" then Some(Mqtt)
    else if key == "http" then Some(Http)
    else if key == "coap" then Some(Coap)
    else None
  }

  /** Every service is named by its key, so two services never share one. */
  lemma NameOfKey(name: ServiceName)
    ensures NameOf(Key(name)) == Some(name)
  {
  }

  /** The table, in start order: entry `i` is `Entry(i)`. */
  const Table: seq<ServiceName> := seq(6, Entry)

  /** The services of the table, row by row. */
  function Entry(i: int): ServiceName
  {
    if i == 0 then Logger
    else if i == 1 then Broker
    else if i == 2 then Persistence
    else if i == 3 then Mqtt
    else if i == 4 then Http
    else Coap
  }

  /** The `defaults` of each entry of the table. */
  function Defaults(name: ServiceName): Section
  {
    match name
    case Logger => map["name" := Str("ponte"), "level" := Num(40)]
    case Persistence => map["type" := Str("memory")]
    case Http => map["port" := Num(3000)]
    case Coap => map["port" := Num(5683)]
    case _ => map[]
  }

  /** No service appears twice in `names`. */
  ghost predicate Distinct(names: seq<ServiceName>)
  {
    forall i, j :: 0 <= i < j < |names| ==> names[i] != names[j]
  }

  /** The start order. */
  lemma TableOrder()
    ensures Table == [Logger, Broker, Persistence, Mqtt, Http, Coap]
    ensures seq(|Table|, i requires 0 <= i < |Table| => Key(Table[i]))
         == ["logger", "broker", "persistence", "mqtt", "http", "coap"]
  {
  }

  /** No service appears twice in the table. */
  lemma TableDistinct()
    ensures Distinct(Table)
  {
    TableOrder();
  }

  /** `xtend(defaults, user)`: a new object with the defaults' keys and the
      user's, the user's value winning where both have one. */
  function Xtend(defaults: Section, user: Section): (r: Section)
    ensures r.Keys == defaults.Keys + user.Keys
    ensures forall k :: k in user ==> r[k] == user[k]
    ensures forall k :: k in defaults && k !in user ==> r[k] == defaults[k]
  {
    defaults + user
  }

  /** `opts[name]`, an absent section reading as no keys. */
  function SectionOf(opts: Options, name: string): Section
  {
    if name in opts then opts[name] else map[]
  }

  /** The fields of `opts.logger || {}`; a value that is not an object
      contributes none. */
  function FieldsOf(s: Section, key: string): Section
  {
    if key in s && s[key].Obj? then s[key].fields else map[]
  }

  /** What the MQTT factory puts over the user's logger options. */
  const MqttLoggerOverrides: Section :=
    map["childOf" := Ref("ponte.logger"), "level" := Ref("ponte.logger.level()"), "service" := Str("MQTT")]

  /** What each factory of the table does to its options before building its
      service: the logger drops the `ponte` back-reference, the broker forces
      `json = false`, the MQTT server is handed the gateway's broker as its
      `ascoltatore` and a child logger. */
  function FactoryEdits(name: ServiceName, s: Section): Section
  {
    match name
    case Logger => s - {"ponte"}
    case Broker => s["json" := Bool(false)]
    case Mqtt =>
      s["ascoltatore" := Ref("ponte.broker")]["logger" := Obj(Xtend(FieldsOf(s, "logger"), MqttLoggerOverrides))]
    case _ => s
  }

  /** The options service `name` is built with: its defaults under the
      user's section, the `ponte` back-reference, then its factory's own
      edits. */
  function StartOptions(name: ServiceName, user: Options): Section
  {
    FactoryEdits(name, Xtend(Defaults(name), SectionOf(user, Key(name)))["ponte" := Ref("ponte")])
  }

  /** The keys the factory of `name` sets or removes. */
  function EditedKeys(name: ServiceName): set<string>
  {
    match name
    case Logger => {"ponte"}
    case Broker => {"json"}
    case Mqtt => {"ascoltatore", "logger"}
    case _ => {}
  }

  /** User keys override defaults, missing keys take the default, on every
      key but the back-reference and the ones the service's own factory
      edits; every service but the logger keeps the `ponte` back-reference. */
  lemma StartOptionsMerge(name: ServiceName, user: Options, k: string)
    requires k != "ponte" && k !in EditedKeys(name)
    ensures var s := StartOptions(name, user);
      && (k in SectionOf(user, Key(name)) ==> k in s && s[k] == SectionOf(user, Key(name))[k])
      && (k !in SectionOf(user, Key(name)) && k in Defaults(name) ==> k in s && s[k] == Defaults(name)[k])
      && ("ponte" in s <==> name != Logger)
      && (name != Logger ==> s["ponte"] == Ref("ponte"))
  {
  }

  /** The factory edits: the logger loses `ponte`, the broker gets
      `json = false`, MQTT gets the broker and a logger whose `childOf`,
      `level` and `service` override the user's. */
  lemma FactoryEditsAt(user: Options)
    ensures "ponte" !in StartOptions(Logger, user)
    ensures StartOptions(Broker, user)["json"] == Bool(false)
    ensures var m := StartOptions(Mqtt, user);
      && m["ascoltatore"] == Ref("ponte.broker")
      && m["logger"].Obj?
      && m["logger"].fields["service"] == Str("MQTT")
      && m["logger"].fields["childOf"] == Ref("ponte.logger")
  {
  }

  /** The defaults: logger `{name: "ponte", level: 40}`, persistence
      `{type: "memory"}`, HTTP on port 3000, CoAP on port 5683. */
  lemma DefaultsWithoutUserOptions()
    ensures StartOptions(Logger, map[]) == map["name" := Str("ponte"), "level" := Num(40)]
    ensures StartOptions(Persistence, map[])["type"] == Str("memory")
    ensures StartOptions(Http, map[])["port"] == Num(3000)
    ensures StartOptions(Coap, map[])["port"] == Num(5683)
  {
    assert StartOptions(Logger, map[]).Keys == {"name", "level"};
  }

  /** The MQTT server's `published` event, which the factory turns into
      `updated(packet.topic, packet.payload)` on the gateway. */
  method OnPublished(ponte: Events, packet: Packet)
    modifies ponte
    ensures ponte.updated == old(ponte.updated) + [Message(packet.topic, packet.payload)]
  {
    ponte.EmitUpdated(packet.topic, packet.payload);
  }
}
