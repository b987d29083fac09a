/** The artifacts whose content depends on the database kind: `go.mod`,
    `config/config.yaml` and `.env.example`. Fixed text is kept as string
    constants; what the model tracks is which pieces appear, in which order,
    for which kind. */
module Templates {
  import opened Text
  import opened GoStrings
  import opened ServiceConfig

  // ---------------------------------------------------------------- go.mod

  const CommonRequires := CoreRequires + ProtobufRequire
  const CoreRequires :=
    RedisRequire + (ViperRequire + (GodotenvRequire + (JwtRequire + (ZapRequire + GrpcRequire))))
  const RedisRequire := "\tgithub.com/redis/go-redis/v9 v9.7.0\n"
  const ViperRequire := "\tgithub.com/spf13/viper v1.19.0\n"
  const GodotenvRequire := "\tgithub.com/joho/godotenv v1.5.1\n"
  const JwtRequire := "\tgithub.com/golang-jwt/jwt/v5 v5.2.0\n"
  const ZapRequire := "\tgo.uber.org/zap v1.27.0\n"
  const GrpcRequire := "\tgoogle.golang.org/grpc v1.67.1\n"
  const ProtobufRequire := "\tgoogle.golang.org/protobuf v1.35.1\n"
  const PostgresRequire := "\tgithub.com/lib/pq v1.10.9\n"
  const MongoRequire := "\tgo.mongodb.org/mongo-driver v1.13.1\n"
  const RequireEnd := ")\n"

  /** The driver line `generateGoMod` adds for the kind, if any. */
  function DriverRequire(kind: DatabaseKind): string {
    if kind == Postgres then PostgresRequire
    else if kind == MongoDB then MongoRequire
    else ""
  }

  function GoModHeader(modulePath: string): string {
    "module " + modulePath + "\n\ngo 1.21\n\nrequire (\n"
  }

  /** `generateGoMod`: module header, common requirements, the driver for
      the database kind, and the closing parenthesis. */
  function GoMod(cfg: Config): string {
    GoModHeader(cfg.modulePath) + CommonRequires + DriverRequire(cfg.database) + RequireEnd
  }

  /** Reads back which database driver a `go.mod` requires, from the line
      just before the closing parenthesis. */
  function RequiredDriver(goMod: string): DatabaseKind {
    if EndsWith(goMod, PostgresRequire + RequireEnd) then Postgres
    else if EndsWith(goMod, MongoRequire + RequireEnd) then MongoDB
    else NoDatabase
  }

  /** A string ending in `q` does not end in `p` when the two differ `k`
      characters from the end. */
  lemma SuffixesDiffer(s: string, p: string, q: string, k: nat)
    requires EndsWith(s, q) && 1 <= k <= |p| && k <= |q| && p[|p| - k] != q[|q| - k]
    ensures !EndsWith(s, p)
  {
    assert s[|s| - k] == q[|q| - k] by { assert s[|s| - |q|..][|q| - k] == q[|q| - k]; }
  }

  /** The generated `go.mod` ends with the closing parenthesis, right after
      the driver of the chosen kind (PostgreSQL's or MongoDB's), or after
      the last common requirement when there is no database. */
  lemma {:induction false} GoModEnding(cfg: Config)
    ensures EndsWith(GoMod(cfg), RequireEnd)
    ensures cfg.database == Postgres ==> EndsWith(GoMod(cfg), PostgresRequire + RequireEnd)
    ensures cfg.database == MongoDB ==> EndsWith(GoMod(cfg), MongoRequire + RequireEnd)
    ensures cfg.database == NoDatabase ==> EndsWith(GoMod(cfg), ProtobufRequire + RequireEnd)
  {
    var header, driver := GoModHeader(cfg.modulePath), DriverRequire(cfg.database);
    EndsWithLast(header + CommonRequires, driver, RequireEnd);
    EndsWithLastTwo(header, CommonRequires, driver, RequireEnd);
    if cfg.database == NoDatabase {
      assert GoMod(cfg) == (header + CoreRequires) + (ProtobufRequire + RequireEnd);
      EndsWithAppend(header + CoreRequires, ProtobufRequire + RequireEnd, ProtobufRequire + RequireEnd);
    }
  }

  /** The generated `go.mod` names exactly the driver of the chosen kind:
      reading the driver back from it gives the kind it was generated for. */
  lemma {:induction false} GoModDriverRoundTrip(cfg: Config)
    ensures RequiredDriver(GoMod(cfg)) == cfg.database
  {
    GoModEnding(cfg);
    var pg := PostgresRequire + RequireEnd;
    var mg := MongoRequire + RequireEnd;
    var pb := ProtobufRequire + RequireEnd;
    match cfg.database
    case Postgres =>
    case MongoDB =>
      SuffixesDiffer(GoMod(cfg), pg, mg, 4);
    case NoDatabase =>
      SuffixesDiffer(GoMod(cfg), pg, pb, 4);
      SuffixesDiffer(GoMod(cfg), mg, pb, 6);
  }

  /** The `require` block of `go.mod`: the common requirements, the driver
      of the kind, and the closing parenthesis. */
  function RequireBlock(kind: DatabaseKind): string {
    CommonRequires + DriverRequire(kind) + RequireEnd
  }

  /** `go.mod` is the module header followed by the `require` block. */
  lemma GoModParts(cfg: Config)
    ensures GoMod(cfg) == GoModHeader(cfg.modulePath) + RequireBlock(cfg.database)
  {
  }

  /** A requirement line has its tab at the start only. */
  predicate TabFirstOnly(line: string) {
    forall k :: 1 <= k < |line| ==> line[k] != '\t'
  }

  lemma CoreLinesTabFirstOnly()
    ensures TabFirstOnly(RedisRequire) && TabFirstOnly(ViperRequire) && TabFirstOnly(GodotenvRequire)
    ensures TabFirstOnly(JwtRequire) && TabFirstOnly(ZapRequire) && TabFirstOnly(GrpcRequire)
  {
    GithubLinesTabFirstOnly();
  }

  lemma GithubLinesTabFirstOnly()
    ensures TabFirstOnly(RedisRequire) && TabFirstOnly(ViperRequire) && TabFirstOnly(GodotenvRequire)
    ensures TabFirstOnly(JwtRequire)
  {
  }

  lemma OtherLinesTabFirstOnly()
    ensures TabFirstOnly(ProtobufRequire) && TabFirstOnly(PostgresRequire) && TabFirstOnly(MongoRequire)
  {
  }

  /** The `require` block, line by line. */
  lemma RequireBlockLines(kind: DatabaseKind)
    ensures RequireBlock(kind) ==
              RedisRequire + (ViperRequire + (GodotenvRequire + (JwtRequire + (ZapRequire
              + (GrpcRequire + (ProtobufRequire + (DriverRequire(kind) + RequireEnd)))))))
  {
    Regroup(RedisRequire, ViperRequire, GodotenvRequire, JwtRequire, ZapRequire, GrpcRequire,
            ProtobufRequire, DriverRequire(kind), RequireEnd);
  }

  lemma Regroup(a: string, b: string, c: string, d: string, e: string, f: string,
                p: string, x: string, y: string)
    ensures (a + (b + (c + (d + (e + f))))) + p + x + y
            == a + (b + (c + (d + (e + (f + (p + (x + y)))))))
  {
  }

  /** The lines after the first four, for a block whose driver line is
      `driver`, do not hold `t`. */
  lemma NotInLaterLines(driver: string, t: string, dz: nat, dg: nat, dp: nat, dd: nat)
    requires |t| > |RequireEnd| && t[0] == '\t'
    requires TabFirstOnly(driver)
    requires dz < |t| && dz < |ZapRequire| && ZapRequire[dz] != t[dz]
    requires dg < |t| && dg < |GrpcRequire| && GrpcRequire[dg] != t[dg]
    requires dp < |t| && dp < |ProtobufRequire| && ProtobufRequire[dp] != t[dp]
    requires driver != [] ==> dd < |t| && dd < |driver| && driver[dd] != t[dd]
    ensures !Contains(ZapRequire + (GrpcRequire + (ProtobufRequire + (driver + RequireEnd))), t)
  {
    CoreLinesTabFirstOnly();
    OtherLinesTabFirstOnly();
    assert forall i :: !OccursAt(RequireEnd, t, i);
    if driver != [] {
      NotInLine(driver, RequireEnd, t, dd);
    } else {
      assert driver + RequireEnd == RequireEnd;
    }
    NotInLine(ProtobufRequire, driver + RequireEnd, t, dp);
    NotInLine(GrpcRequire, ProtobufRequire + (driver + RequireEnd), t, dg);
    NotInLine(ZapRequire, GrpcRequire + (ProtobufRequire + (driver + RequireEnd)), t, dz);
  }

  /** The first four lines, all `github.com` modules, do not hold `t`
      either when each differs from it at index `d`. */
  lemma NotInGithubLines(rest: string, t: string, d: nat)
    requires |t| > 0 && t[0] == '\t' && !Contains(rest, t)
    requires d < |t| && d < |RedisRequire| && d < |ViperRequire| && d < |GodotenvRequire| && d < |JwtRequire|
    requires RedisRequire[d] != t[d] && ViperRequire[d] != t[d] && GodotenvRequire[d] != t[d] && JwtRequire[d] != t[d]
    ensures !Contains(RedisRequire + (ViperRequire + (GodotenvRequire + (JwtRequire + rest))), t)
  {
    CoreLinesTabFirstOnly();
    NotInLine(JwtRequire, rest, t, d);
    NotInLine(GodotenvRequire, JwtRequire + rest, t, d);
    NotInLine(ViperRequire, GodotenvRequire + (JwtRequire + rest), t, d);
    NotInLine(RedisRequire, ViperRequire + (GodotenvRequire + (JwtRequire + rest)), t, d);
  }

  /** The `require` block names the PostgreSQL driver exactly for
      PostgreSQL. */
  lemma RequireBlockPostgres(kind: DatabaseKind)
    ensures Contains(RequireBlock(kind), PostgresRequire) <==> kind == Postgres
  {
    if kind == Postgres {
      OccursBetween(CommonRequires, PostgresRequire, RequireEnd);
    } else {
      NoPostgresLine(kind);
    }
  }

  /** Without PostgreSQL every line differs from its driver line early on. */
  lemma NoPostgresLine(kind: DatabaseKind)
    requires kind != Postgres
    ensures !Contains(RequireBlock(kind), PostgresRequire)
  {
    var driver := DriverRequire(kind);
    OtherLinesTabFirstOnly();
    NotInLaterLines(driver, PostgresRequire, 2, 2, 2, 2);
    NotInGithubLines(ZapRequire + (GrpcRequire + (ProtobufRequire + (driver + RequireEnd))), PostgresRequire, 12);
    RequireBlockLines(kind);
  }

  /** The `require` block names the MongoDB driver exactly for MongoDB. */
  lemma RequireBlockMongo(kind: DatabaseKind)
    ensures Contains(RequireBlock(kind), MongoRequire) <==> kind == MongoDB
  {
    if kind == MongoDB {
      OccursBetween(CommonRequires, MongoRequire, RequireEnd);
    } else {
      NoMongoLine(kind);
    }
  }

  /** Without MongoDB every line differs from its driver line early on. */
  lemma NoMongoLine(kind: DatabaseKind)
    requires kind != MongoDB
    ensures !Contains(RequireBlock(kind), MongoRequire)
  {
    var driver := DriverRequire(kind);
    OtherLinesTabFirstOnly();
    NotInLaterLines(driver, MongoRequire, 4, 3, 3, 2);
    NotInGithubLines(ZapRequire + (GrpcRequire + (ProtobufRequire + (driver + RequireEnd))), MongoRequire, 2);
    RequireBlockLines(kind);
  }

  // ----------------------------------------------------------- config.yaml

  function GrpcPortLine(cfg: Config): string {
    "  grpc_port: " + FormatInt(cfg.port) + "\n"
  }

  function HttpPortLine(cfg: Config): string {
    "  http_port: " + FormatInt(cfg.httpPort) + "\n"
  }

  function ServerSection(cfg: Config): string {
    "server:\n" + GrpcPortLine(cfg) + HttpPortLine(cfg) + "\n"
  }

  const PostgresDatabaseHead := "database:\n  host: postgres\n  port: 5432\n"
  const MongoDatabaseHead := "database:\n  host: mongodb\n  port: 27017\n"

  function DbNameLine(cfg: Config): string {
    "  dbname: " + cfg.databaseName + "\n"
  }

  /** The `database:` section of `config.yaml`: PostgreSQL's or MongoDB's
      connection settings with the chosen database name, nothing for no
      database. */
  function DatabaseSection(cfg: Config): (r: string)
    ensures r == "" <==> cfg.database == NoDatabase
    ensures cfg.database == Postgres ==> StartsWith(r, PostgresDatabaseHead) && Contains(r, DbNameLine(cfg))
    ensures cfg.database == MongoDB ==> StartsWith(r, MongoDatabaseHead) && Contains(r, DbNameLine(cfg))
  {
    match cfg.database
    case Postgres =>
      var head := PostgresDatabaseHead + "  user: postgres\n  password: postgres\n";
      var tail := "  sslmode: disable\n\n";
      OccursBetween(head, DbNameLine(cfg), tail);
      StartsWithAppend(PostgresDatabaseHead, "  user: postgres\n  password: postgres\n" + DbNameLine(cfg) + tail);
      head + DbNameLine(cfg) + tail
    case MongoDB =>
      var head := MongoDatabaseHead + "  user: root\n  password: example\n";
      OccursBetween(head, DbNameLine(cfg), "\n");
      StartsWithAppend(MongoDatabaseHead, "  user: root\n  password: example\n" + DbNameLine(cfg) + "\n");
      head + DbNameLine(cfg) + "\n"
    case NoDatabase => ""
  }

  function RedisJwtLogSections(cfg: Config): string {
    "redis:\n  host: redis\n  port: 6379\n  db: " + FormatInt(cfg.redisDB) + "\n  password: \"\"\n\n"
    + "jwt:\n  secret: your-jwt-secret-key-change-in-production\n\n"
    + "log:\n  level: info\n  format: json\n"
  }

  /** `generateConfig`: the server section, the database section of the
      kind, then the redis, jwt and log sections. */
  function ConfigYaml(cfg: Config): string {
    ServerSection(cfg) + DatabaseSection(cfg) + RedisJwtLogSections(cfg)
  }

  /** `config.yaml` keeps the server section first and the redis/jwt/log
      sections last for every kind; something stands between them exactly
      when a database was chosen. */
  lemma ConfigYamlLayout(cfg: Config)
    ensures StartsWith(ConfigYaml(cfg), ServerSection(cfg))
    ensures EndsWith(ConfigYaml(cfg), RedisJwtLogSections(cfg))
    ensures cfg.database == NoDatabase <==>
              ConfigYaml(cfg) == ServerSection(cfg) + RedisJwtLogSections(cfg)
  {
    var server, db, rest := ServerSection(cfg), DatabaseSection(cfg), RedisJwtLogSections(cfg);
    StartsWithFirst(server, db, rest);
    EndsWithLast(server, db, rest);
    MiddleEmpty(server, db, rest);
  }

  /** What stands between: the `database:` section of the chosen kind,
      right after the server section, carrying the chosen database name. */
  lemma ConfigYamlDatabase(cfg: Config)
    requires cfg.database != NoDatabase
    ensures cfg.database == Postgres ==>
              StartsWith(ConfigYaml(cfg), ServerSection(cfg) + PostgresDatabaseHead)
    ensures cfg.database == MongoDB ==>
              StartsWith(ConfigYaml(cfg), ServerSection(cfg) + MongoDatabaseHead)
    ensures Contains(ConfigYaml(cfg), DbNameLine(cfg))
  {
    var server, db, rest := ServerSection(cfg), DatabaseSection(cfg), RedisJwtLogSections(cfg);
    var head := if cfg.database == Postgres then PostgresDatabaseHead else MongoDatabaseHead;
    StartsWithAfter(server, db, rest, head);
    ContainsWithin(server, db, rest, DbNameLine(cfg));
  }

  /** The HTTP port written to `config.yaml` is the one derived at collection
      time: the gRPC port plus 1000, for every port that does not overflow. */
  lemma ConfigYamlHttpPort(cfg: Config)
    requires WellFormed(cfg) && cfg.port <= MaxInt64 - 1000
    ensures Contains(ConfigYaml(cfg), "  http_port: " + FormatInt(cfg.port + 1000) + "\n")
  {
    assert HttpPortLine(cfg) == "  http_port: " + FormatInt(cfg.port + 1000) + "\n";
    OccursBetween("server:\n" + GrpcPortLine(cfg), HttpPortLine(cfg), "\n");
    ContainsFirst(ServerSection(cfg), DatabaseSection(cfg), RedisJwtLogSections(cfg), HttpPortLine(cfg));
  }

  // ---------------------------------------------------------- .env.example

  /** The variable-name prefix: the service name in upper case. */
  function EnvPrefix(cfg: Config): string {
    ToUpper(cfg.serviceName)
  }

  /** The block every `.env.example` ends with. */
  function CommonEnv(cfg: Config): string {
    var p := EnvPrefix(cfg);
    "# Server\n"
    + p + "_SERVER_GRPC_PORT=" + FormatInt(cfg.port) + "\n"
    + p + "_SERVER_HTTP_PORT=" + FormatInt(cfg.httpPort) + "\n"
    + "\n# Redis\n"
    + p + "_REDIS_HOST=localhost\n"
    + p + "_REDIS_PORT=6379\n"
    + p + "_REDIS_DB=" + FormatInt(cfg.redisDB) + "\n"
    + p + "_REDIS_PASSWORD=\n"
    + "\n# JWT\n"
    + p + "_JWT_SECRET=your-jwt-secret-key-change-in-production\n"
    + "\n# Log\n"
    + p + "_LOG_LEVEL=info\n"
    + p + "_LOG_FORMAT=json\n"
  }

  const PostgresEnvTitle := "# Database (PostgreSQL)\n"
  const MongoEnvTitle := "# Database (MongoDB)\n"

  /** The database block in front of the common block, empty for no database. */
  function DatabaseEnv(cfg: Config): (r: string)
    ensures r == "" <==> cfg.database == NoDatabase
    ensures cfg.database == Postgres ==> StartsWith(r, PostgresEnvTitle)
    ensures cfg.database == MongoDB ==> StartsWith(r, MongoEnvTitle)
    ensures cfg.database != NoDatabase ==>
              Contains(r, "\n" + EnvPrefix(cfg) + "_DATABASE_DBNAME=" + cfg.databaseName + "\n")
  {
    var p := EnvPrefix(cfg);
    var dbname := "\n" + p + "_DATABASE_DBNAME=" + cfg.databaseName + "\n";
    match cfg.database
    case Postgres =>
      var head := PostgresEnvTitle
        + p + "_DATABASE_HOST=localhost\n"
        + p + "_DATABASE_PORT=5432\n"
        + p + "_DATABASE_USER=postgres\n"
        + p + "_DATABASE_PASSWORD=postgres";
      var tail := p + "_DATABASE_SSLMODE=disable\n\n";
      var r := head + dbname + tail;
      OccursBetween(head, dbname, tail);
      assert r[..|PostgresEnvTitle|] == PostgresEnvTitle;
      r
    case MongoDB =>
      var head := MongoEnvTitle
        + p + "_DATABASE_HOST=localhost\n"
        + p + "_DATABASE_PORT=27017\n"
        + p + "_DATABASE_USER=root\n"
        + p + "_DATABASE_PASSWORD=example";
      var r := head + dbname + "\n";
      OccursBetween(head, dbname, "\n");
      assert r[..|MongoEnvTitle|] == MongoEnvTitle;
      r
    case NoDatabase => ""
  }

  /** `generateEnvExample`: the database block for PostgreSQL or MongoDB,
      then the common block; for no database the common block alone. */
  function EnvExample(cfg: Config): (r: string)
    ensures EndsWith(r, CommonEnv(cfg))
    ensures r == CommonEnv(cfg) <==> cfg.database == NoDatabase
  {
    var r := DatabaseEnv(cfg) + CommonEnv(cfg);
    assert r[|r| - |CommonEnv(cfg)|..] == CommonEnv(cfg);
    r
  }

  /** With a database, `.env.example` opens with the block of that kind and
      carries the chosen database name. */
  lemma EnvExampleDatabase(cfg: Config)
    requires cfg.database != NoDatabase
    ensures cfg.database == Postgres ==> StartsWith(EnvExample(cfg), PostgresEnvTitle)
    ensures cfg.database == MongoDB ==> StartsWith(EnvExample(cfg), MongoEnvTitle)
    ensures Contains(EnvExample(cfg), "\n" + EnvPrefix(cfg) + "_DATABASE_DBNAME=" + cfg.databaseName + "\n")
  {
    var db := DatabaseEnv(cfg);
    var title := if cfg.database == Postgres then PostgresEnvTitle else MongoEnvTitle;
    StartsWithExtend(db, CommonEnv(cfg), title);
    ContainsBefore(db, CommonEnv(cfg), "\n" + EnvPrefix(cfg) + "_DATABASE_DBNAME=" + cfg.databaseName + "\n");
  }
}
