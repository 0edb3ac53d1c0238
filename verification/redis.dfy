/**
 * The store client of pkg/redis/client.go: a fixed table from logical
 * database names to database numbers, and a lazily filled registry of one
 * connection handle per database name. The store itself is an abstract
 * snapshot answering the two commands the collectors issue; every command
 * the client sends is recorded so that "no store call" can be stated.
 */
module Redis {
  import opened Base

  /** The four logical databases the client knows, with their database numbers. */
  const KnownDbs: map<string, nat> :=
    map["APPL_DB" := 0, "COUNTERS_DB" := 2, "CONFIG_DB" := 4, "STATE_DB" := 6]

  const NotDefined := "database not defined"

  /** `RedisDbId`: the database number of a name, with a found flag; (0, false) otherwise. */
  function DbId(name: string): (r: (int, bool))
    ensures r.1 <==> name in KnownDbs
    ensures r.1 ==> r.0 == KnownDbs[name]
    ensures !r.1 ==> r.0 == 0
  {
    match name
    case "APPL_DB" => (0, true)
    case "COUNTERS_DB" => (2, true)
    case "CONFIG_DB" => (4, true)
    case "STATE_DB" => (6, true)
    case _ => (0, false)
  }

  /** Distinct known names address distinct databases. */
  lemma DbIdInjective(a: string, b: string)
    requires DbId(a).1 && DbId(b).1 && a != b
    ensures DbId(a).0 != DbId(b).0
  {
  }

  /** Connection parameters read from the environment (address, password, network). */
  datatype Config = Config(address: string, password: string, network: string)

  /** An open go-redis handle, known only by the options it was opened with. */
  datatype Handle = Handle(network: string, address: string, password: string, db: nat)

  /** The client: open handles by database name, and the configuration. */
  datatype Client = Client(databases: map<string, Handle>, config: Config)

  /** The handle `connect` opens for database number `db` under `cfg`. */
  function Open(cfg: Config, db: nat): Handle
  {
    Handle(cfg.network, cfg.address, cfg.password, db)
  }

  /** Registry invariant: only known names, each bound to a handle for its own database. */
  predicate Valid(c: Client)
  {
    forall n :: n in c.databases ==> n in KnownDbs && c.databases[n] == Open(c.config, KnownDbs[n])
  }

  /** The two commands sent to the store, with the database number they address. */
  datatype Command = KeysCmd(db: nat, pattern: string) | HGetAllCmd(db: nat, key: string)

  /**
   * A snapshot of the store: what KEYS and HGETALL answer on each database,
   * including the failures the transport may report.
   */
  datatype Store = Store(
    keys: (nat, string) -> Result<seq<string>>,
    hgetall: (nat, string) -> Result<map<string, string>>)

  /** The client after a call, the call's result and the commands it sent. */
  datatype Reply<T> = Reply(client: Client, result: Result<T>, sent: seq<Command>)

  /**
   * `NewClient`: fails when the configuration cannot be read; otherwise a
   * client with the configuration and no open handle.
   */
  function NewClient(env: Result<Config>): (r: Result<Client>)
    ensures r.Ok? <==> env.Ok?
    ensures r.Ok? ==> r.value.databases == map[] && r.value.config == env.value && Valid(r.value)
    ensures r.Err? ==> r.msg == "failed to read redis config"
  {
    match env
    case Err(_) => Err("failed to read redis config")
    case Ok(cfg) => Ok(Client(map[], cfg))
  }

  /**
   * `connect`: opens a handle for a known name, replacing any previous one;
   * an unknown name is an error and leaves the client as it was.
   */
  function Connect(c: Client, name: string): (r: (Client, Option<string>))
    ensures r.1.None? <==> name in KnownDbs
    ensures name in KnownDbs ==>
      r.0 == Client(c.databases[name := Open(c.config, KnownDbs[name])], c.config)
    ensures name !in KnownDbs ==> r.0 == c && r.1 == Some(NotDefined)
    ensures Valid(c) ==> Valid(r.0)
  {
    var (id, ok) := DbId(name);
    if ok then (c.(databases := c.databases[name := Open(c.config, id)]), None)
    else (c, Some(NotDefined))
  }

  /**
   * `selectClient`: an unknown name is an error and changes nothing; a name
   * already present gets its existing handle back; a known name not yet
   * present is connected first, adding exactly that entry.
   */
  function SelectClient(c: Client, name: string): (r: (Client, Result<Handle>))
    ensures name !in KnownDbs ==> r == (c, Err(NotDefined))
    ensures name in KnownDbs && name in c.databases ==> r == (c, Ok(c.databases[name]))
    ensures name in KnownDbs && name !in c.databases ==>
      var h := Open(c.config, KnownDbs[name]);
      r == (Client(c.databases[name := h], c.config), Ok(h))
    ensures r.0.databases.Keys == c.databases.Keys + (if r.1.Ok? then {name} else {})
    ensures Valid(c) ==> Valid(r.0)
    ensures Valid(c) && r.1.Ok? ==> r.1.value.db == KnownDbs[name]
  {
    var (_, ok) := DbId(name);
    if ok then
      if name in c.databases then (c, Ok(c.databases[name]))
      else
        var (c', err) := Connect(c, name);
        match err
        case Some(msg) => (c', Err(msg))
        case None => (c', Ok(c'.databases[name]))
    else (c, Err(NotDefined))
  }

  /** Selecting twice in a row: the second call returns the same handle and changes nothing. */
  lemma SelectIdempotent(c: Client, name: string)
    ensures var (c1, h1) := SelectClient(c, name);
      SelectClient(c1, name) == (c1, h1)
  {
  }

  /** `HgetAllFromDb`: HGETALL of `key` on the named database's handle. */
  function HGetAllFromDb(c: Client, store: Store, name: string, key: string): (r: Reply<map<string, string>>)
    ensures name !in KnownDbs ==> r == Reply(c, Err(NotDefined), [])
    ensures Valid(c) && name in KnownDbs ==>
      && r.result == store.hgetall(KnownDbs[name], key)
      && r.sent == [HGetAllCmd(KnownDbs[name], key)]
    ensures r.client == SelectClient(c, name).0
    ensures Valid(c) ==> Valid(r.client)
  {
    var (c', h) := SelectClient(c, name);
    match h
    case Err(msg) => Reply(c', Err(msg), [])
    case Ok(handle) => Reply(c', store.hgetall(handle.db, key), [HGetAllCmd(handle.db, key)])
  }

  /** `KeysFromDb`: KEYS `pattern` on the named database's handle. */
  function KeysFromDb(c: Client, store: Store, name: string, pattern: string): (r: Reply<seq<string>>)
    ensures name !in KnownDbs ==> r == Reply(c, Err(NotDefined), [])
    ensures Valid(c) && name in KnownDbs ==>
      && r.result == store.keys(KnownDbs[name], pattern)
      && r.sent == [KeysCmd(KnownDbs[name], pattern)]
    ensures r.client == SelectClient(c, name).0
    ensures Valid(c) ==> Valid(r.client)
  {
    var (c', h) := SelectClient(c, name);
    match h
    case Err(msg) => Reply(c', Err(msg), [])
    case Ok(handle) => Reply(c', store.keys(handle.db, pattern), [KeysCmd(handle.db, pattern)])
  }

  /** `Close`: every handle is closed and removed; the configuration stays. */
  function Close(c: Client): (r: Client)
    ensures r.databases == map[] && r.config == c.config
    ensures Valid(r)
  {
    c.(databases := map[])
  }

  /** Reachable clients: a new client followed by any sequence of selections. */
  function SelectAll(c: Client, names: seq<string>): Client
    decreases |names|
  {
    if |names| == 0 then c else SelectAll(SelectClient(c, names[0]).0, names[1..])
  }

  /**
   * The registry never holds a name outside the four known databases, and
   * each handle addresses its own database, whatever names are selected.
   */
  lemma {:induction false} RegistryStaysKnown(c: Client, names: seq<string>)
    requires Valid(c)
    ensures Valid(SelectAll(c, names))
    ensures SelectAll(c, names).databases.Keys <= KnownDbs.Keys
    decreases |names|
  {
    if |names| > 0 {
      RegistryStaysKnown(SelectClient(c, names[0]).0, names[1..]);
    }
  }
}
