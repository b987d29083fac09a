/** The service configuration the generator collects from the operator, the
    `readInput` default rule, the derivations made while collecting (title,
    module path, HTTP port, database choice) and the final yes/no check.
    Standard input is a sequence of typed lines held by a `Console`. */
module ServiceConfig {
  import opened Text
  import opened GoStrings

  datatype DatabaseKind = Postgres | MongoDB | NoDatabase

  /** `ServiceConfig`; the database kind is one of the three values the
      collector ever stores in `DatabaseType`. */
  datatype Config = Config(
    serviceName: string,
    serviceTitle: string,
    modulePath: string,
    port: Int64,
    httpPort: Int64,
    database: DatabaseKind,
    databaseName: string,
    tableName: string,
    redisDB: Int64,
    cachePrefix: string)

  const DefaultServiceName := "chat"
  const DefaultPort := "50051"
  const DefaultChoice := "1"
  const DefaultRedisDB := "0"
  const DefaultConfirm := "y"

  function DefaultModulePath(name: string): string {
    "github.com/yeegeek/uyou-" + name + "-service"
  }

  /** The line `ReadString('\n')` yields next: empty once input is exhausted. */
  function NextLine(input: seq<string>): string {
    if input == [] then "" else input[0]
  }

  function Remaining(input: seq<string>): (rest: seq<string>)
    ensures input != [] ==> |rest| == |input| - 1
  {
    if input == [] then [] else input[1..]
  }

  /** `readInput`: the typed line without surrounding white space, or the
      default when nothing but white space was typed. */
  function Answer(line: string, default: string): (r: string)
    ensures AllSatisfy(line, IsSpace) ==> r == default
    ensures !AllSatisfy(line, IsSpace) ==>
              r == TrimSpace(line) && r != [] && !IsSpace(r[0]) && !IsSpace(r[|r| - 1])
    ensures default != [] ==> r != []
  {
    var t := TrimSpace(line);
    if t == "" then default else t
  }

  /** `HTTPPort = Port + 1000`, in Go's 64-bit `int`. */
  function HttpPortFor(port: Int64): (h: Int64)
    ensures port <= MaxInt64 - 1000 ==> h == port + 1000
    ensures port > MaxInt64 - 1000 ==> h == port + 1000 - 0x1_0000_0000_0000_0000
  {
    Wrap64(port + 1000)
  }

  /** What the collector guarantees about every configuration it builds. */
  predicate WellFormed(cfg: Config) {
    && cfg.serviceName != ""
    && cfg.serviceName == ToLower(cfg.serviceName)
    && cfg.serviceTitle == Title(cfg.serviceName)
    && cfg.modulePath != ""
    && cfg.httpPort == HttpPortFor(cfg.port)
    && cfg.cachePrefix != ""
    && (cfg.database != NoDatabase ==> cfg.databaseName != "")
    && (cfg.database == Postgres ==> cfg.tableName != "")
    && (cfg.database == NoDatabase ==> cfg.databaseName == "" && cfg.tableName == "")
    && (cfg.database == MongoDB ==> cfg.tableName == "")
  }

  lemma ToLowerIdempotent(s: string)
    ensures ToLower(ToLower(s)) == ToLower(s)
  {
  }

  /** The outcome of the database menu: the kind, the names, and the input
      left after the follow-up prompts. */
  datatype Selection = Selection(kind: DatabaseKind, databaseName: string, tableName: string,
                                 rest: seq<string>)

  /** The `switch dbChoice` of `collectInput`. */
  function SelectDatabase(choice: string, name: string, input: seq<string>): (s: Selection)
    ensures s.kind == MongoDB <==> choice == "2"
    ensures s.kind == NoDatabase <==> choice == "3"
    ensures s.kind == Postgres <==> choice != "2" && choice != "3"
    ensures choice == "1" ==> s.rest == Remaining(Remaining(input))
    ensures choice == "2" ==> s.rest == Remaining(input)
    ensures choice != "1" && choice != "2" ==> s.rest == input
    ensures s.kind == NoDatabase ==> s.databaseName == "" && s.tableName == ""
    ensures choice == "1" || choice == "2" ==> s.databaseName == Answer(NextLine(input), name + "db")
    ensures choice == "1" ==> s.tableName == Answer(NextLine(Remaining(input)), name + "s")
    ensures choice != "1" && choice != "2" && choice != "3" ==>
              s.databaseName == name + "db" && s.tableName == name + "s"
    ensures (choice == "1" || choice == "2") && AllSatisfy(NextLine(input), IsSpace) ==>
              s.databaseName == name + "db"
    ensures choice == "1" && AllSatisfy(NextLine(Remaining(input)), IsSpace) ==>
              s.tableName == name + "s"
    ensures choice == "2" ==> s.tableName == ""
    ensures s.kind != NoDatabase ==> s.databaseName != ""
    ensures s.kind == Postgres ==> s.tableName != ""
  {
    match choice
    case "1" =>
      Selection(Postgres, Answer(NextLine(input), name + "db"),
                Answer(NextLine(Remaining(input)), name + "s"), Remaining(Remaining(input)))
    case "2" => Selection(MongoDB, Answer(NextLine(input), name + "db"), "", Remaining(input))
    case "3" => Selection(NoDatabase, "", "", input)
    case _ => Selection(Postgres, name + "db", name + "s", input)
  }

  /** How many lines `collectInput` reads for a given menu answer. */
  function PromptCount(choice: string): nat {
    match choice
    case "1" => 8
    case "2" => 7
    case _ => 6
  }

  datatype Collected = Collected(config: Config, rest: seq<string>)

  /** `collectInput` as a function of the lines the operator types and of
      `fmt.Sscanf(_, "%d", _)` (`scan`; 0 when nothing can be scanned). */
  function Collect(input: seq<string>, scan: string -> Int64): Collected
  {
    var name := ToLower(Answer(NextLine(input), DefaultServiceName));
    var in1 := Remaining(input);
    var modulePath := Answer(NextLine(in1), DefaultModulePath(name));
    var in2 := Remaining(in1);
    var port := scan(Answer(NextLine(in2), DefaultPort));
    var in3 := Remaining(in2);
    var choice := Answer(NextLine(in3), DefaultChoice);
    var sel := SelectDatabase(choice, name, Remaining(in3));
    var redisDB := scan(Answer(NextLine(sel.rest), DefaultRedisDB));
    var in5 := Remaining(sel.rest);
    var prefix := Answer(NextLine(in5), name);
    Collected(Config(name, Title(name), modulePath, port, HttpPortFor(port), sel.kind,
                     sel.databaseName, sel.tableName, redisDB, prefix),
              Remaining(in5))
  }

  /** Every configuration `collectInput` builds satisfies the invariants of
      the configuration model. */
  lemma CollectIsWellFormed(input: seq<string>, scan: string -> Int64)
    ensures WellFormed(Collect(input, scan).config)
  {
    var name := ToLower(Answer(NextLine(input), DefaultServiceName));
    ToLowerIdempotent(Answer(NextLine(input), DefaultServiceName));
    var in3 := Remaining(Remaining(Remaining(input)));
    var sel := SelectDatabase(Answer(NextLine(in3), DefaultChoice), name, Remaining(in3));
    var cfg := Collect(input, scan).config;
    assert cfg.serviceName == name && name != "";
    assert cfg.serviceTitle == Title(name);
    assert cfg.modulePath != "";
    assert cfg.httpPort == HttpPortFor(cfg.port);
    assert cfg.cachePrefix != "";
    assert cfg.database == sel.kind && cfg.databaseName == sel.databaseName
           && cfg.tableName == sel.tableName;
  }

  /** The menu answer `Collect` acts on. */
  function MenuAnswer(input: seq<string>): string {
    Answer(NextLine(Remaining(Remaining(Remaining(input)))), DefaultChoice)
  }

  /** With enough input, `collectInput` consumes exactly one line per prompt:
      six, plus two for PostgreSQL chosen as "1" and one for MongoDB. */
  lemma {:induction false} CollectConsumesPrompts(input: seq<string>, scan: string -> Int64)
    requires |input| >= 8
    ensures |input| - |Collect(input, scan).rest| == PromptCount(MenuAnswer(input))
  {
    var in4 := Remaining(Remaining(Remaining(Remaining(input))));
    assert |in4| == |input| - 4;
    var name := ToLower(Answer(NextLine(input), DefaultServiceName));
    var choice := MenuAnswer(input);
    var sel := SelectDatabase(choice, name, in4);
    SelectionConsumes(choice, name, in4);
    assert Collect(input, scan).rest == Remaining(Remaining(sel.rest));
  }

  lemma SelectionConsumes(choice: string, name: string, input: seq<string>)
    requires |input| >= 2
    ensures |input| - |SelectDatabase(choice, name, input).rest| == PromptCount(choice) - 6
  {
  }

  /** The menu decides the database kind: "2" MongoDB, "3" none, anything
      else (including the default "1" and unknown answers) PostgreSQL. */
  lemma CollectDatabaseKind(input: seq<string>, scan: string -> Int64)
    ensures var kind := Collect(input, scan).config.database;
            && (kind == MongoDB <==> MenuAnswer(input) == "2")
            && (kind == NoDatabase <==> MenuAnswer(input) == "3")
            && (kind == Postgres <==> MenuAnswer(input) !in {"2", "3"})
  {
  }

  /** Input in which every line, if any, is white space only. */
  predicate AllBlank(input: seq<string>) {
    forall i :: 0 <= i < |input| ==> AllSatisfy(input[i], IsSpace)
  }

  lemma BlankInput(input: seq<string>)
    requires AllBlank(input)
    ensures AllSatisfy(NextLine(input), IsSpace) && AllBlank(Remaining(input))
  {
    if input != [] {
      assert forall i :: 0 <= i < |input| - 1 ==> Remaining(input)[i] == input[i + 1];
    }
  }

  /** Every prompt answered with Enter, or input ending early, gives the
      `chat` service on port 50051 with PostgreSQL. */
  lemma {:induction false} DefaultsExample(input: seq<string>, scan: string -> Int64)
    requires AllBlank(input)
    requires scan(DefaultPort) == 50051 && scan(DefaultRedisDB) == 0
    ensures Collect(input, scan).config ==
            Config("chat", "Chat", DefaultModulePath("chat"), 50051, 51051, Postgres,
                   "chatdb", "chats", 0, "chat")
  {
    BlankInput(input);
    var in1 := Remaining(input);
    BlankInput(in1);
    var in2 := Remaining(in1);
    BlankInput(in2);
    var in3 := Remaining(in2);
    BlankInput(in3);
    var in4 := Remaining(in3);
    BlankInput(in4);
    var in5 := Remaining(in4);
    BlankInput(in5);
    var in6 := Remaining(in5);
    BlankInput(in6);
    var in7 := Remaining(in6);
    BlankInput(in7);
    assert ToLower("chat") == "chat" && Title("chat") == "Chat";
    assert SelectDatabase("1", "chat", in4) == Selection(Postgres, "chatdb", "chats", in6) by {
      assert "chat" + "db" == "chatdb" && "chat" + "s" == "chats";
    }
    assert HttpPortFor(50051) == 51051;
  }

  /** `confirmConfig`'s test: the answer (default "y") lower-cases to "y". */
  function Confirms(line: string): (ok: bool)
    ensures ok <==> TrimSpace(line) in {"", "y", "Y"}
  {
    ToLowerIsY(Answer(line, DefaultConfirm));
    ToLower(Answer(line, DefaultConfirm)) == "y"
  }

  /** Standard input as the operator will type it, one line at a time. */
  class Console {
    var input: seq<string>

    constructor (lines: seq<string>)
      ensures input == lines
    {
      input := lines;
    }

    /** `readInput`: takes the next line and applies the default rule. */
    method ReadInput(default: string) returns (answer: string)
      modifies this
      ensures answer == Answer(NextLine(old(input)), default)
      ensures input == Remaining(old(input))
    {
      var line := if input == [] then "" else input[0];
      input := if input == [] then [] else input[1..];
      var trimmed := TrimSpace(line);
      if trimmed == "" {
        answer := default;
      } else {
        answer := trimmed;
      }
    }
  }

  /** `collectInput`: prompts in order and fills the configuration. */
  method CollectInput(console: Console, scan: string -> Int64) returns (cfg: Config)
    modifies console
    ensures Collected(cfg, console.input) == Collect(old(console.input), scan)
  {
    var serviceName := console.ReadInput(DefaultServiceName);
    serviceName := ToLower(serviceName);
    var serviceTitle := Title(serviceName);
    var modulePath := console.ReadInput(DefaultModulePath(serviceName));
    var portText := console.ReadInput(DefaultPort);
    var port := scan(portText);
    var httpPort := HttpPortFor(port);
    var choice := console.ReadInput(DefaultChoice);
    var database, databaseName, tableName;
    match choice {
      case "1" =>
        database := Postgres;
        databaseName := console.ReadInput(serviceName + "db");
        tableName := console.ReadInput(serviceName + "s");
      case "2" =>
        database := MongoDB;
        databaseName := console.ReadInput(serviceName + "db");
        tableName := "";
      case "3" =>
        database, databaseName, tableName := NoDatabase, "", "";
      case _ =>
        database, databaseName, tableName := Postgres, serviceName + "db", serviceName + "s";
    }
    var redisText := console.ReadInput(DefaultRedisDB);
    var redisDB := scan(redisText);
    var cachePrefix := console.ReadInput(serviceName);
    cfg := Config(serviceName, serviceTitle, modulePath, port, httpPort, database,
                  databaseName, tableName, redisDB, cachePrefix);
  }

  /** `confirmConfig`: reads the answer and applies the yes-test. */
  method ConfirmConfig(console: Console) returns (ok: bool)
    modifies console
    ensures ok == Confirms(NextLine(old(console.input)))
    ensures console.input == Remaining(old(console.input))
  {
    var answer := console.ReadInput(DefaultConfirm);
    ok := ToLower(answer) == "y";
  }
}
