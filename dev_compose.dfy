/** Registering a generated service in `docker-compose.dev.yml`
    (`updateDevCompose`): a service block is built from the configuration and
    spliced in front of the first marker line, unless the document already
    mentions the service. */
module DevCompose {
  import opened Wrappers
  import opened Text
  import opened GoStrings
  import opened ServiceConfig

  /** The line new services are inserted in front of. */
  const Marker := "  # 新生成的微服务将自动添加到此处"

  /** One `KEY: value` entry under `environment:`. */
  datatype Setting = Setting(key: string, value: string)

  /** Entries whose keys share a prefix, in the order given. */
  function Prefixed(prefix: string, entries: seq<(string, string)>): (r: seq<Setting>)
    ensures |r| == |entries|
    ensures forall j :: 0 <= j < |r| ==> r[j] == Setting(prefix + entries[j].0, entries[j].1)
  {
    seq(|entries|, j requires 0 <= j < |entries| => Setting(prefix + entries[j].0, entries[j].1))
  }

  /** The database entries: `DB_*` for PostgreSQL, `MONGO_*` for MongoDB,
      none without a database. */
  function DatabaseEnvironment(cfg: Config): seq<Setting> {
    match cfg.database
    case Postgres =>
      Prefixed("DB_", [("HOST", "postgres"), ("PORT", "5432"), ("USER", "postgres"),
                       ("PASSWORD", "postgres"), ("NAME", cfg.databaseName)])
    case MongoDB =>
      Prefixed("MONGO_", [("HOST", "mongodb"), ("PORT", "27017"), ("USER", "root"),
                          ("PASSWORD", "example"), ("DATABASE", cfg.databaseName)])
    case NoDatabase => []
  }

  /** The Redis entries every service gets. */
  function RedisEnvironment(cfg: Config): seq<Setting> {
    Prefixed("REDIS_", [("HOST", "redis"), ("PORT", "6379"), ("DB", FormatInt(cfg.redisDB))])
  }

  function Environment(cfg: Config): seq<Setting> {
    DatabaseEnvironment(cfg) + RedisEnvironment(cfg)
  }

  /** Some entry's key begins with `prefix`. */
  predicate HasKeyWithPrefix(settings: seq<Setting>, prefix: string) {
    exists j :: 0 <= j < |settings| && StartsWith(settings[j].key, prefix)
  }

  /** The services the new one waits for. */
  function Dependencies(kind: DatabaseKind): seq<string> {
    match kind
    case Postgres => ["postgres", "redis"]
    case MongoDB => ["mongodb", "redis"]
    case NoDatabase => ["redis"]
  }

  /** The environment entries as YAML lines, each on a fresh line. */
  function EnvironmentText(settings: seq<Setting>): string {
    if settings == [] then ""
    else "\n      " + settings[0].key + ": " + settings[0].value + EnvironmentText(settings[1..])
  }

  /** The list items of `depends_on:`, each on a fresh line. */
  function DependencyItems(deps: seq<string>): string {
    if deps == [] then ""
    else "\n      - " + deps[0] + DependencyItems(deps[1..])
  }

  /** The comment line naming the service. */
  function CommentLine(cfg: Config): string {
    "\n  # " + cfg.serviceTitle + " Service\n"
  }

  /** The compose key the service is registered under. */
  function ServiceKey(cfg: Config): string {
    cfg.serviceName + ":"
  }

  /** The key, indented as a top-level entry of `services:`. */
  function ServiceKeyLine(cfg: Config): string {
    "  " + ServiceKey(cfg)
  }

  function BuildSection(cfg: Config): string {
    "\n    build:\n      context: ./services/" + cfg.serviceName
    + "\n      dockerfile: Dockerfile\n    container_name: uyou-" + cfg.serviceName + "-dev\n    environment:"
  }

  /** Everything in front of the environment entries. */
  function BlockHead(cfg: Config): string {
    CommentLine(cfg) + ServiceKeyLine(cfg) + BuildSection(cfg)
  }

  function PortsSection(cfg: Config): string {
    "\n    ports:\n      - \"" + FormatInt(cfg.port) + ":" + FormatInt(cfg.port) + "\"\n    depends_on:"
  }

  const BlockEnd := "\n    networks:\n      - uyou-network\n    restart: unless-stopped\n"

  /** Everything after the environment entries: ports, dependencies and the
      closing lines. */
  function BlockTail(cfg: Config): string {
    PortsSection(cfg) + DependencyItems(Dependencies(cfg.database)) + BlockEnd
  }

  /** The service block `updateDevCompose` inserts. */
  function ServiceBlock(cfg: Config): string {
    BlockHead(cfg) + EnvironmentText(Environment(cfg)) + BlockTail(cfg)
  }

  /** `updateDevCompose` on the text read: unchanged when the service key
      already occurs anywhere, otherwise the block and a line break spliced in
      front of the first marker (unchanged again when there is no marker). */
  function Merge(doc: string, cfg: Config): string {
    Insert(doc, ServiceKey(cfg), ServiceBlock(cfg))
  }

  /** The merge for any key and block: unchanged when `key` occurs, else
      `block` and a line break spliced in front of the first marker. */
  function Insert(doc: string, key: string, block: string): string {
    if Contains(doc, key) then doc
    else ReplaceFirst(doc, Marker, block + "\n" + Marker)
  }

  /** What `updateDevCompose` does with the file: a failed read is returned as
      the error, a present service leaves the file alone, anything else is
      written back merged. */
  datatype ComposeUpdate = ReadFailed | AlreadyPresent | Written(content: string)

  function UpdateDevCompose(read: Option<string>, cfg: Config): (u: ComposeUpdate)
    ensures u == ReadFailed <==> read.None?
    ensures u == AlreadyPresent <==> read.Some? && Contains(read.value, ServiceKey(cfg))
    ensures u.Written? ==> u.content == Merge(read.value, cfg) && Contains(u.content, ServiceKey(cfg)) == Contains(read.value, Marker)
  {
    match read
    case None => ReadFailed
    case Some(doc) =>
      if Contains(doc, ServiceKey(cfg)) then AlreadyPresent
      else
        MergeRegisters(doc, cfg);
        Written(Merge(doc, cfg))
  }

  // ---------------------------------------------------------------- lemmas

  /** The block carries the service key, indented as a service entry. */
  lemma BlockHasServiceKey(cfg: Config)
    ensures Contains(ServiceBlock(cfg), ServiceKeyLine(cfg))
    ensures Contains(ServiceBlock(cfg), ServiceKey(cfg))
  {
    OccursBetween(CommentLine(cfg), ServiceKeyLine(cfg), BuildSection(cfg));
    ContainsBefore(BlockHead(cfg), EnvironmentText(Environment(cfg)), ServiceKeyLine(cfg));
    ContainsBefore(BlockHead(cfg) + EnvironmentText(Environment(cfg)), BlockTail(cfg), ServiceKeyLine(cfg));
    ContainsEnd("  ", ServiceKey(cfg));
    ContainsTransitive(ServiceBlock(cfg), ServiceKeyLine(cfg), ServiceKey(cfg));
  }

  /** A document that already mentions the service key is left as it is. */
  lemma MergeSkipsPresent(doc: string, cfg: Config)
    requires Contains(doc, ServiceKey(cfg))
    ensures Merge(doc, cfg) == doc
  {
  }

  /** Without a marker the document comes back byte for byte. */
  lemma MergeWithoutMarker(doc: string, cfg: Config)
    requires !Contains(doc, Marker)
    ensures Merge(doc, cfg) == doc
  {
  }

  /** With a first marker at `i`: the text before it, the block, a line
      break, then the original text from the marker on, unchanged. */
  lemma MergeInserts(doc: string, cfg: Config, i: nat)
    requires !Contains(doc, ServiceKey(cfg))
    requires OccursAt(doc, Marker, i)
    requires forall j :: 0 <= j < i ==> !OccursAt(doc, Marker, j)
    ensures Merge(doc, cfg) == doc[..i] + (ServiceBlock(cfg) + "\n") + doc[i..]
    ensures Merge(doc, cfg)[..i] == doc[..i]
    ensures Merge(doc, cfg)[i + |ServiceBlock(cfg)| + 1..] == doc[i..]
  {
    InsertAt(doc, ServiceKey(cfg), ServiceBlock(cfg), i);
  }

  lemma InsertAt(doc: string, key: string, block: string, i: nat)
    requires !Contains(doc, key)
    requires OccursAt(doc, Marker, i)
    requires forall j :: 0 <= j < i ==> !OccursAt(doc, Marker, j)
    ensures Insert(doc, key, block) == doc[..i] + (block + "\n") + doc[i..]
    ensures Insert(doc, key, block)[..i] == doc[..i]
    ensures Insert(doc, key, block)[i + |block| + 1..] == doc[i..]
  {
    ReplaceFirstInserts(doc, Marker, block + "\n", i);
  }

  /** A merge registers the service exactly when the service was there
      already or a marker was found, and never loses the marker. */
  lemma MergeRegisters(doc: string, cfg: Config)
    ensures Contains(Merge(doc, cfg), ServiceKey(cfg)) <==> Contains(doc, ServiceKey(cfg)) || Contains(doc, Marker)
    ensures Contains(doc, Marker) ==> Contains(Merge(doc, cfg), Marker)
  {
    BlockHasServiceKey(cfg);
    InsertRegisters(doc, ServiceKey(cfg), ServiceBlock(cfg));
  }

  lemma InsertRegisters(doc: string, key: string, block: string)
    requires Contains(block, key)
    ensures Contains(Insert(doc, key, block), key) <==> Contains(doc, key) || Contains(doc, Marker)
    ensures Contains(doc, Marker) ==> Contains(Insert(doc, key, block), Marker)
  {
    if !Contains(doc, key) && Contains(doc, Marker) {
      var i := IndexOf(doc, Marker).value;
      InsertAt(doc, key, block, i);
      InsertedContains(doc, Marker, block, "\n", i, key);
    }
  }

  /** Merging twice with the same configuration changes nothing more. */
  lemma MergeIdempotent(doc: string, cfg: Config)
    ensures Merge(Merge(doc, cfg), cfg) == Merge(doc, cfg)
  {
    MergeRegisters(doc, cfg);
  }

  /** The presence test is a plain substring test: a service is taken as
      present in a document that registers any service whose name ends with
      its name, as `chat` is in one that registers `groupchat`. */
  lemma SubstringPresence(doc: string, cfg: Config, other: string)
    requires Contains(doc, other + ServiceKey(cfg))
    ensures Merge(doc, cfg) == doc
  {
    ContainsEnd(other, ServiceKey(cfg));
    ContainsTransitive(doc, other + ServiceKey(cfg), ServiceKey(cfg));
  }

  /** `redis` is always a dependency; `postgres` and `mongodb` exactly for
      their own kind. */
  lemma DependenciesByKind(kind: DatabaseKind)
    ensures "redis" in Dependencies(kind)
    ensures "postgres" in Dependencies(kind) <==> kind == Postgres
    ensures "mongodb" in Dependencies(kind) <==> kind == MongoDB
    ensures |Dependencies(kind)| == if kind == NoDatabase then 1 else 2
  {
  }

  /** Every dependency is listed as an item of its own in the text. */
  lemma {:induction false} DependencyItemsList(deps: seq<string>, j: nat)
    requires j < |deps|
    ensures Contains(DependencyItems(deps), "\n      - " + deps[j])
  {
    var item := "\n      - " + deps[0];
    if j == 0 {
      OccursBetween([], item, DependencyItems(deps[1..]));
      assert [] + item + DependencyItems(deps[1..]) == DependencyItems(deps);
    } else {
      DependencyItemsList(deps[1..], j - 1);
      ContainsWithin(item, DependencyItems(deps[1..]), [], "\n      - " + deps[j]);
      assert item + DependencyItems(deps[1..]) + [] == DependencyItems(deps);
    }
  }

  /** Every entry is written as `KEY: value` on a line of its own. */
  lemma {:induction false} EnvironmentTextLists(settings: seq<Setting>, j: nat)
    requires j < |settings|
    ensures Contains(EnvironmentText(settings), "\n      " + settings[j].key + ": " + settings[j].value)
  {
    var line := "\n      " + settings[0].key + ": " + settings[0].value;
    if j == 0 {
      OccursBetween([], line, EnvironmentText(settings[1..]));
      assert [] + line + EnvironmentText(settings[1..]) == EnvironmentText(settings);
    } else {
      EnvironmentTextLists(settings[1..], j - 1);
      assert settings[1..][j - 1] == settings[j];
      ContainsWithin(line, EnvironmentText(settings[1..]), [], "\n      " + settings[j].key + ": " + settings[j].value);
      assert line + EnvironmentText(settings[1..]) + [] == EnvironmentText(settings);
    }
  }

  /** Every key is a database key of the configured kind or a Redis key. */
  lemma EnvironmentKeyShape(cfg: Config, j: nat)
    requires j < |Environment(cfg)|
    ensures (cfg.database == Postgres && exists x :: Environment(cfg)[j].key == "DB_" + x)
         || (cfg.database == MongoDB && exists x :: Environment(cfg)[j].key == "MONGO_" + x)
         || (exists x :: Environment(cfg)[j].key == "REDIS_" + x)
  {
    var db, redis := DatabaseEnvironment(cfg), RedisEnvironment(cfg);
    if j < |db| {
      assert Environment(cfg)[j] == db[j];
    } else {
      assert Environment(cfg)[j] == redis[j - |db|];
    }
  }

  /** No key carries the prefix of the other database kind, nor a database
      prefix when there is no database. */
  lemma NoForeignKeys(cfg: Config, p: string)
    requires (p == "DB_" && cfg.database != Postgres) || (p == "MONGO_" && cfg.database != MongoDB)
    ensures !HasKeyWithPrefix(Environment(cfg), p)
  {
    var env := Environment(cfg);
    forall j | 0 <= j < |env|
      ensures !StartsWith(env[j].key, p)
    {
      EnvironmentKeyShape(cfg, j);
      if cfg.database == Postgres && exists x :: env[j].key == "DB_" + x {
        var x :| env[j].key == "DB_" + x;
        DifferentStart("DB_", x, p);
      } else if cfg.database == MongoDB && exists x :: env[j].key == "MONGO_" + x {
        var x :| env[j].key == "MONGO_" + x;
        DifferentStart("MONGO_", x, p);
      } else {
        var x :| env[j].key == "REDIS_" + x;
        DifferentStart("REDIS_", x, p);
      }
    }
  }

  /** `DB_*` keys exactly for PostgreSQL, `MONGO_*` keys exactly for
      MongoDB. */
  lemma EnvironmentPrefixes(cfg: Config)
    ensures HasKeyWithPrefix(Environment(cfg), "DB_") <==> cfg.database == Postgres
    ensures HasKeyWithPrefix(Environment(cfg), "MONGO_") <==> cfg.database == MongoDB
  {
    var env := Environment(cfg);
    match cfg.database
    case Postgres =>
      assert env[0] == DatabaseEnvironment(cfg)[0];
      assert StartsWith(env[0].key, "DB_") by { StartsWithAppend("DB_", "HOST"); }
      NoForeignKeys(cfg, "MONGO_");
    case MongoDB =>
      assert env[0] == DatabaseEnvironment(cfg)[0];
      assert StartsWith(env[0].key, "MONGO_") by { StartsWithAppend("MONGO_", "HOST"); }
      NoForeignKeys(cfg, "DB_");
    case NoDatabase =>
      NoForeignKeys(cfg, "DB_");
      NoForeignKeys(cfg, "MONGO_");
  }

  /** The Redis entries are always there, and the database entry names the
      chosen database. */
  lemma EnvironmentEntries(cfg: Config)
    ensures Setting("REDIS_HOST", "redis") in Environment(cfg)
    ensures Setting("REDIS_PORT", "6379") in Environment(cfg)
    ensures Setting("REDIS_DB", FormatInt(cfg.redisDB)) in Environment(cfg)
    ensures cfg.database == Postgres ==> Setting("DB_NAME", cfg.databaseName) in Environment(cfg)
    ensures cfg.database == MongoDB ==> Setting("MONGO_DATABASE", cfg.databaseName) in Environment(cfg)
  {
    var db, redis := DatabaseEnvironment(cfg), RedisEnvironment(cfg);
    var env := Environment(cfg);
    assert "REDIS_" + "HOST" == "REDIS_HOST" && "REDIS_" + "PORT" == "REDIS_PORT" && "REDIS_" + "DB" == "REDIS_DB";
    assert env[|db|] == redis[0] && env[|db| + 1] == redis[1] && env[|db| + 2] == redis[2];
    if cfg.database == Postgres {
      assert "DB_" + "NAME" == "DB_NAME";
      assert env[4] == db[4];
    } else if cfg.database == MongoDB {
      assert "MONGO_" + "DATABASE" == "MONGO_DATABASE";
      assert env[4] == db[4];
    }
  }

  /** Each environment entry appears in the block as a line of its own. */
  lemma ServiceBlockEnvironment(cfg: Config, j: nat)
    requires j < |Environment(cfg)|
    ensures Contains(ServiceBlock(cfg), "\n      " + Environment(cfg)[j].key + ": " + Environment(cfg)[j].value)
  {
    var env := Environment(cfg);
    EnvironmentTextLists(env, j);
    ContainsWithin(BlockHead(cfg), EnvironmentText(env), BlockTail(cfg), "\n      " + env[j].key + ": " + env[j].value);
  }

  /** Each dependency appears in the block as a list item of its own. */
  lemma ServiceBlockDependencies(cfg: Config, d: string)
    requires d in Dependencies(cfg.database)
    ensures Contains(ServiceBlock(cfg), "\n      - " + d)
  {
    var deps := Dependencies(cfg.database);
    var j :| 0 <= j < |deps| && deps[j] == d;
    DependencyItemsList(deps, j);
    ContainsWithin(PortsSection(cfg), DependencyItems(deps), BlockEnd, "\n      - " + d);
    ContainsWithin(BlockHead(cfg) + EnvironmentText(Environment(cfg)), BlockTail(cfg), [], "\n      - " + d);
    assert BlockHead(cfg) + EnvironmentText(Environment(cfg)) + BlockTail(cfg) + [] == ServiceBlock(cfg);
  }

  /** The block ends with the network and restart lines. */
  lemma ServiceBlockEnd(cfg: Config)
    ensures EndsWith(ServiceBlock(cfg), BlockEnd)
  {
    var tail := BlockTail(cfg);
    EndsWithLast(PortsSection(cfg), DependencyItems(Dependencies(cfg.database)), BlockEnd);
    EndsWithAppend(BlockHead(cfg) + EnvironmentText(Environment(cfg)), tail, BlockEnd);
  }
}
