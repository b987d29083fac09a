# Service scaffold and APISIX status: a Dafny model

This project models the decision logic of two tools in a microservice
repository and proves properties of it.

- The service scaffold (`scaffold/generator.go`):
  - collects a service configuration from the operator, one prompt at a
    time, where a blank answer selects the default;
  - derives the title, the module path and the HTTP port;
  - maps the database menu onto PostgreSQL, MongoDB or no database;
  - asks for a final yes/no confirmation;
  - builds the three artifacts whose content depends on the database kind:
    `go.mod`, `config/config.yaml` and `.env.example`;
  - registers the new service in the shared `docker-compose.dev.yml` by
    splicing a service block in front of a marker comment, unless the
    document already mentions the service.
- The APISIX status script (`scripts/apisix-status.py`):
  - `load_env` folds the assignments of a `.env` file into the process
    environment, never overriding a variable that is already set;
  - the Admin API address and key are then read with fixed defaults;
  - per route, consumer and global rule, the script computes a status
    marker, a method list, a name fallback and a plugin summary.

Modules:

- `Wrappers`: `Option` and `Result`.
- `Text`: occurrence, prefixes and suffixes, trimming, join and split.
- `GoStrings`: the parts of Go's `strings`, `fmt` and 64-bit `int` that the
  generator uses.
- `PyStr`: `str.strip` and `str.partition`.
- `ServiceConfig`:
  - the configuration record;
  - `readInput`, `collectInput` and `confirmConfig`;
  - a `Console` class that holds standard input as the lines still to be
    read.
- `Templates`: `generateGoMod`, `generateConfig` and `generateEnvExample`.
- `DevCompose`: `updateDevCompose`.
- `EnvLoader`: `load_env` as a loop over the file's lines that updates an
  `Environ` object's variable map, proved against the fold function
  `Loaded`.
- `ApisixStatus`: the per-row expressions of the status script, over
  decoded JSON values.

Behaviour of the code that the model keeps:

- When the compose document has no marker, it is written back unchanged and
  `updateDevCompose` returns nil; no error is raised (`scaffold/generator.go`
  lines 1135-1139).
  - `DevCompose.MergeWithoutMarker` and `DevCompose.UpdateDevCompose` state
    this.
- The presence test is a plain substring test on the service key (line
  1075), not a test for a block header.
  - A document that registers `groupchat:` is taken to contain `chat:`
    already (`DevCompose.SubstringPresence`).
- Nothing checks that the marker is unique.
  - The block goes in front of the first marker, and the marker is still
    present afterwards (`DevCompose.MergeInserts`, `DevCompose.MergeRegisters`).
- `HTTPPort = Port + 1000` is computed in Go's 64-bit `int`.
  - Ports within 1000 of the maximum wrap around (`ServiceConfig.HttpPortFor`).

## Model

| member | source | states |
|---|---|---|
| Text.IndexOf | scaffold/generator.go:1136 | the index found is an occurrence of the target and no earlier index is; `None` means no occurrence anywhere |
| Text.Contains | scaffold/generator.go:1075 | `strings.Contains` holds exactly when the target occurs at some index |
| Text.Trim | scaffold/generator.go:117 | the result is the part between the leading and the trailing run of the class; it is empty exactly when every character is of the class; otherwise it neither starts nor ends with one |
| Text.SplitJoin | scripts/apisix-status.py:69 | splitting a comma join at commas gives back the pieces when no piece contains a comma |
| GoStrings.Wrap64 | scaffold/generator.go:76 | the result is congruent to the input modulo 2^64 and equals it when it fits in 64 bits |
| GoStrings.ToLower | scaffold/generator.go:66 | same length; every character is mapped by the ASCII lower-case rule |
| GoStrings.ToUpper | scaffold/generator.go:1953 | same length; every character is mapped by the ASCII upper-case rule |
| GoStrings.ToLowerIsY | scaffold/generator.go:150 | a string lower-cases to `"y"` exactly when it is `"y"` or `"Y"` |
| GoStrings.Title | scaffold/generator.go:67 | same length; the first character and every character after a word separator are upper-cased, the others kept |
| GoStrings.ReplaceFirst | scaffold/generator.go:1136 | without an occurrence the text is returned unchanged; with one, the length changes by the replacement's length minus the target's |
| GoStrings.ReplaceFirstAt | scaffold/generator.go:1136 | at the first occurrence `i`: the text before `i`, the replacement, then the text after the replaced target |
| GoStrings.ReplaceFirstInserts | scaffold/generator.go:1136 | replacing the first target `t` by `ins + t` inserts `ins` in front of it and keeps the text on both sides unchanged |
| GoStrings.FormatInt | scaffold/generator.go:821 | `%d` output is non-empty and begins with `-` exactly for negative numbers, followed by the digits of the magnitude |
| GoStrings.DigitsValueOfDigits | scaffold/generator.go:821 | the decimal digits of `n` read back as `n` |
| GoStrings.FormatIntInjective | scaffold/generator.go:821 | different integers print differently under `%d` |
| PyStr.Strip | scripts/apisix-status.py:20 | the result is empty exactly for an all-space line; otherwise it is the line between its leading and trailing white space and starts and ends with a non-space |
| PyStr.Partition | scripts/apisix-status.py:22 | reports whether the separator occurs; if so the line is head, separator, tail, and the head has no separator; otherwise the head is the line and the tail empty |
| ServiceConfig.Answer | scaffold/generator.go:110-122 | an all-space line gives the default; any other line gives its trimmed text, which is non-empty and has no surrounding white space; a non-empty default gives a non-empty answer |
| ServiceConfig.HttpPortFor | scaffold/generator.go:76 | the HTTP port is the gRPC port plus 1000, wrapped to 64 bits past the maximum |
| ServiceConfig.SelectDatabase | scaffold/generator.go:86-100 | `"2"` gives MongoDB, `"3"` no database, anything else PostgreSQL; `"1"` reads two more lines, `"2"` one, others none; the database name is the answer to the next line with default `<name>db`, and for `"1"` the table is the answer to the line after it with default `<name>s`; no names without a database; a chosen database always has a non-empty name, PostgreSQL a non-empty table |
| ServiceConfig.ToLowerIdempotent | scaffold/generator.go:66 | a lower-cased service name is unchanged by lower-casing again |
| ServiceConfig.Collect | scaffold/generator.go:61-108 | the configuration collected from the input lines; specified by `CollectIsWellFormed`, `CollectConsumesPrompts`, `CollectDatabaseKind` and `DefaultsExample` |
| ServiceConfig.CollectIsWellFormed | scaffold/generator.go:61-108 | every configuration collected has a non-empty lower-case name, its title, a non-empty module path and cache prefix, `HTTPPort` derived from `Port`, and names consistent with the database kind |
| ServiceConfig.CollectConsumesPrompts | scaffold/generator.go:61-108 | with enough input, collection reads eight lines for menu answer `"1"`, seven for `"2"` and six otherwise |
| ServiceConfig.SelectionConsumes | scaffold/generator.go:86-100 | the database menu reads two, one or no follow-up lines |
| ServiceConfig.CollectDatabaseKind | scaffold/generator.go:84-100 | the collected kind is MongoDB exactly for menu answer `"2"`, none exactly for `"3"`, and PostgreSQL otherwise |
| ServiceConfig.DefaultsExample | scaffold/generator.go:61-108 | blank or missing answers give the `chat` service on port 50051, HTTP port 51051, PostgreSQL with `chatdb` and `chats`, Redis DB 0 and prefix `chat` |
| ServiceConfig.Confirms | scaffold/generator.go:149-150 | confirmation holds exactly when the trimmed answer is empty, `y` or `Y` |
| ServiceConfig.Console.constructor | scaffold/generator.go:62 | the console holds the lines the operator will type |
| ServiceConfig.Console.ReadInput | scaffold/generator.go:110-122 | returns the answer for the next line under the default rule and consumes that line |
| ServiceConfig.CollectInput | scaffold/generator.go:61-108 | the configuration built and the input left over are those of `Collect` on the input before the call |
| ServiceConfig.ConfirmConfig | scaffold/generator.go:148-150 | the result is the yes-test on the next line, and exactly one line is consumed |
| Templates.GoModEnding | scaffold/generator.go:282-308 | `go.mod` ends with `)` after the PostgreSQL driver, the MongoDB driver, or the last common requirement, according to the kind |
| Templates.GoModDriverRoundTrip | scaffold/generator.go:297-306 | the driver read back from the line before the closing `)` of `go.mod` is the kind it was generated for |
| Templates.GoModParts | scaffold/generator.go:282-306 | `go.mod` is the module header followed by the `require` block of the kind |
| Templates.RequireBlockPostgres | scaffold/generator.go:283-306 | the `require` block holds the PostgreSQL driver line exactly for PostgreSQL |
| Templates.RequireBlockMongo | scaffold/generator.go:283-306 | the `require` block holds the MongoDB driver line exactly for MongoDB |
| Templates.GoMod | scaffold/generator.go:282-308 | the generated `go.mod`; specified by `GoModParts`, `GoModEnding`, `GoModDriverRoundTrip`, `RequireBlockPostgres` and `RequireBlockMongo` |
| Templates.RequireBlock | scaffold/generator.go:283-306 | the common requirements, the kind's driver line and the closing `)`; specified by `RequireBlockPostgres` and `RequireBlockMongo` |
| Templates.DatabaseSection | scaffold/generator.go:818-870 | the `database:` section is empty exactly without a database; otherwise it starts with the host and port of the kind and holds the chosen `dbname` line |
| Templates.ConfigYaml | scaffold/generator.go:815-893 | the generated `config.yaml`; specified by `ConfigYamlLayout`, `ConfigYamlDatabase` and `ConfigYamlHttpPort` |
| Templates.ConfigYamlLayout | scaffold/generator.go:818-890 | `config.yaml` starts with the server section and ends with the redis, jwt and log sections; nothing stands between them exactly when there is no database |
| Templates.ConfigYamlDatabase | scaffold/generator.go:819-870 | with a database, the kind's `database:` head follows the server section directly and the `dbname` line is present |
| Templates.ConfigYamlHttpPort | scaffold/generator.go:820-822 | for a collected configuration without overflow, `config.yaml` carries `http_port:` equal to the gRPC port plus 1000 |
| Templates.DatabaseEnv | scaffold/generator.go:1964-1998 | the database block is empty exactly without a database; otherwise it starts with the kind's title and carries the `_DATABASE_DBNAME` line |
| Templates.EnvExample | scaffold/generator.go:1933-2004 | `.env.example` always ends with the common block and is that block alone exactly without a database |
| Templates.EnvExampleDatabase | scaffold/generator.go:1964-1998 | with PostgreSQL `.env.example` starts with the PostgreSQL title, with MongoDB with the MongoDB title, and with either it holds the `<PREFIX>_DATABASE_DBNAME=<name>` line |
| DevCompose.Merge | scaffold/generator.go:1075-1136 | the merged document; specified by `MergeSkipsPresent`, `MergeWithoutMarker`, `MergeInserts`, `MergeRegisters` and `MergeIdempotent` |
| DevCompose.Insert | scaffold/generator.go:1075-1136 | the splice of a block in front of the first marker unless the key is present; specified by `InsertAt` and `InsertRegisters` |
| DevCompose.ServiceBlock | scaffold/generator.go:1079-1132 | the service block; specified by `BlockHasServiceKey`, `ServiceBlockEnvironment`, `ServiceBlockDependencies` and `ServiceBlockEnd` |
| DevCompose.UpdateDevCompose | scaffold/generator.go:1057-1140 | a failed read is the error; a document holding the service key is left alone; otherwise the merged text is written, and it holds the key exactly when the document held the marker |
| DevCompose.BlockHasServiceKey | scaffold/generator.go:1097-1104 | the block carries `"  " + name + ":"` and hence the service key |
| DevCompose.MergeSkipsPresent | scaffold/generator.go:1075-1077 | a document that contains the service key is returned unchanged |
| DevCompose.MergeWithoutMarker | scaffold/generator.go:1135-1139 | a document without the marker is returned byte for byte |
| DevCompose.MergeInserts | scaffold/generator.go:1135-1136 | at the first marker: the text before it, the block, a line break, then the original text from the marker on, unchanged |
| DevCompose.InsertAt | scaffold/generator.go:1135-1136 | the splice for any key and block: the text before the first marker is kept, the block and a line break follow, then the original text from the marker on |
| DevCompose.MergeRegisters | scaffold/generator.go:1075-1136 | after a merge the service key occurs exactly when it occurred before or a marker was present; the marker is never lost |
| DevCompose.InsertRegisters | scaffold/generator.go:1135-1136 | for any block that contains its key: the key occurs afterwards exactly when it occurred before or a marker was present; the marker is kept |
| DevCompose.MergeIdempotent | scaffold/generator.go:1075-1077 | merging twice with the same configuration gives the same text as merging once |
| DevCompose.SubstringPresence | scaffold/generator.go:1075 | a document registering a service whose key ends with this service's key counts as already holding it |
| DevCompose.DependenciesByKind | scaffold/generator.go:1083-1095 | `redis` is always a dependency; `postgres` and `mongodb` are dependencies exactly for their own kind |
| DevCompose.DependencyItemsList | scaffold/generator.go:1085-1094 | every dependency is written as a list item of its own |
| DevCompose.EnvironmentTextLists | scaffold/generator.go:1106-1125 | every environment entry is written as `KEY: value` on a line of its own |
| DevCompose.EnvironmentKeyShape | scaffold/generator.go:1106-1125 | every key is `DB_*` for PostgreSQL, `MONGO_*` for MongoDB, or `REDIS_*` |
| DevCompose.NoForeignKeys | scaffold/generator.go:1106-1120 | no key carries the prefix of a database kind other than the chosen one |
| DevCompose.EnvironmentPrefixes | scaffold/generator.go:1106-1120 | `DB_` keys appear exactly for PostgreSQL and `MONGO_` keys exactly for MongoDB |
| DevCompose.EnvironmentEntries | scaffold/generator.go:1106-1125 | the three Redis entries are always present; `DB_NAME` or `MONGO_DATABASE` names the chosen database |
| DevCompose.ServiceBlockEnvironment | scaffold/generator.go:1097-1125 | each environment entry appears in the block as a line of its own |
| DevCompose.ServiceBlockDependencies | scaffold/generator.go:1122-1132 | each dependency appears in the block as a list item of its own |
| DevCompose.ServiceBlockEnd | scaffold/generator.go:1129-1132 | the block ends with the network and restart lines |
| EnvLoader.ParseLine | scripts/apisix-status.py:20-24 | a line is ignored exactly when, stripped, it is empty, starts with `#` or has no `=`; otherwise the key and value are the stripped texts on either side of its first `=`, and the key contains no `=` |
| EnvLoader.ParseLines | scripts/apisix-status.py:19-24 | each line of the file is parsed on its own |
| EnvLoader.Assign | scripts/apisix-status.py:26-27 | one line raises exactly for a new key that the environment rejects; otherwise existing variables keep their values and only the line's own key can be added |
| EnvLoader.Environ.constructor | scripts/apisix-status.py:26 | the environment holds the variables set before the script starts |
| EnvLoader.Environ.LoadEnv | scripts/apisix-status.py:10-27 | without a file nothing changes; otherwise the new variables, and whether an exception (`ValueError` or `OSError`) ended loading, are those of folding the parsed lines over the old variables |
| EnvLoader.Loaded | scripts/apisix-status.py:19-27 | the fold of the parsed lines over the variables; specified by `LoadedAppend`, `IgnoredLine`, `KeepsExisting`, `OnlyFileKeys`, `FirstOccurrenceWins` and `RaisesOnlyOnRejected` |
| EnvLoader.LoadedAppend | scripts/apisix-status.py:19-27 | loading a file in two parts is loading the first part, then the second on top unless the first raised |
| EnvLoader.IgnoredLine | scripts/apisix-status.py:21 | an ignored line may be added or removed anywhere without effect |
| EnvLoader.KeepsExisting | scripts/apisix-status.py:26-27 | a variable set before loading keeps its value |
| EnvLoader.OnlyFileKeys | scripts/apisix-status.py:22-27 | every variable added was assigned, with that value, by some line of the file |
| EnvLoader.FirstOccurrenceWins | scripts/apisix-status.py:26-27 | the first assignment of a key not already set decides its value, unless loading raised |
| EnvLoader.RaisesOnlyOnRejected | scripts/apisix-status.py:27 | loading does not raise when no assignment has an empty name or a NUL character |
| EnvLoader.Setting | scripts/apisix-status.py:31-32 | the environment's value when the variable is set, else the default |
| EnvLoader.AdminUrl | scripts/apisix-status.py:31 | the Admin API address; specified by `Setting` and `AdminUrlPrecedence` |
| EnvLoader.AdminKey | scripts/apisix-status.py:32 | the Admin API key; specified by `Setting` and `AdminKeyPrecedence` |
| EnvLoader.AdminUrlPrecedence | scripts/apisix-status.py:31 | an address set before the script starts beats the file's; with neither, the default address is used |
| EnvLoader.AdminKeyPrecedence | scripts/apisix-status.py:32 | a key set before the script starts beats the file's; with neither, the default key is used |
| ApisixStatus.Lookup | scripts/apisix-status.py:67 | absent exactly when no member has the name; otherwise the value of a member with that name |
| ApisixStatus.Get | scripts/apisix-status.py:67-71 | `dict.get`: the member's value when present, else the default |
| ApisixStatus.Keys | scripts/apisix-status.py:93 | the member names, in order |
| ApisixStatus.ItemValue | scripts/apisix-status.py:67 | succeeds exactly when the element is an object whose `value` is missing or an object; a missing `value` gives the empty object, an object under `value` is returned as it is; every failure is `AttributeError` |
| ApisixStatus.StatusMarker | scripts/apisix-status.py:71 | the status marker of a route; specified by `StatusMarkerGreen` |
| ApisixStatus.StatusMarkerGreen | scripts/apisix-status.py:71 | the marker is green exactly when `status` is missing or compares equal to 1 under Python's numeric rules, otherwise red |
| ApisixStatus.Methods | scripts/apisix-status.py:69 | the method column of a route; specified by `MethodsDefault` and `MethodsRoundTrip` |
| ApisixStatus.MethodsDefault | scripts/apisix-status.py:69 | a route without `methods` shows `*` |
| ApisixStatus.MethodsRoundTrip | scripts/apisix-status.py:69 | a list of method names without commas is shown so that cutting at the commas gives the names back |
| ApisixStatus.RouteName | scripts/apisix-status.py:70 | the route's `name`, else its `id`, else `N/A` |
| ApisixStatus.PluginNames | scripts/apisix-status.py:93 | no `plugins` gives no names; an object gives its member names; anything else raises `AttributeError` |
| ApisixStatus.PluginSummary | scripts/apisix-status.py:94 | the plugin column; specified by `PluginSummaryForm` and `PluginSummaryShows` |
| ApisixStatus.PluginSummaryForm | scripts/apisix-status.py:94 | no plugins give the fixed text; up to `limit` plugins are all joined by `", "`; a longer list is its first `limit` names joined by `", "`, then `...` |
| ApisixStatus.PluginSummaryShows | scripts/apisix-status.py:94 | no plugins gives the fixed text; each of the first `limit` names appears; a longer list ends in `...`; a list within the limit, whose names do not end in `...`, does not |
| ApisixStatus.JoinContainsPieces | scripts/apisix-status.py:94 | every name appears in the `", "` join |
| ApisixStatus.JoinNotEndingInMark | scripts/apisix-status.py:94 | a join of names that do not end in `...` does not end in `...` |
| ApisixStatus.ConsumerPlugins | scripts/apisix-status.py:93-94 | the plugin column of a consumer; specified by `PluginColumns` |
| ApisixStatus.RulePlugins | scripts/apisix-status.py:116-117 | the plugin column of a global rule; specified by `PluginColumns` |
| ApisixStatus.PluginColumns | scripts/apisix-status.py:117 | consumers summarise up to three plugins, global rules up to four |
| ApisixStatus.FieldOrNA | scripts/apisix-status.py:68 | the field when present, else `N/A` |

## Left out

- Strings are sequences of Unicode code points, so a compose document that
  is not valid UTF-8 cannot be represented; documents are taken to be valid
  UTF-8, where Go's byte-wise `strings.Contains` and `strings.Replace` agree
  with searching code points.
- Console output is not modelled: the prompts, the confirmation screen, the
  next-steps text, and the box drawing and column padding of the status
  script.
- Standard input is not modelled as a stream.
  - Its lines are the sequence a `Console` holds.
  - A missing line reads as empty, as `ReadString` at end of input does.
- ServiceConfig.CollectInput: `fmt.Sscanf(_, "%d", _)` is the parameter
  `scan`, not a model of Go's scanner.
  - `scan` must give the value the field keeps when scanning fails.
- ServiceConfig.ConfirmConfig: shares one `Console` with `CollectInput`.
  - In Go, `confirmConfig` opens a second buffered reader on standard input.
  - Lines the first reader has already buffered are lost to the second.
- GoStrings.ToLower: ASCII letters only; other letters are left as they are.
- GoStrings.ToUpper: ASCII letters only; other letters are left as they are.
- GoStrings.Title: ASCII letters only are upper-cased; the word-separator rule
  is modelled for all characters.
- The choice of the compose file path from the working directory is not
  modelled (`scaffold/generator.go` lines 1059-1065).
- DevCompose.UpdateDevCompose:
  - a failed read is the input `None`;
  - an error from writing the file back is not modelled.
- `generateService`'s directory loop and file writes are not part of this
  model, and neither are `make proto` and `go mod tidy` or the large static
  templates (proto, main.go, Dockerfile, Makefile, README, handlers and
  stubs).
- Only the three `DatabaseType` values that `collectInput` ever stores are
  modelled.
  - For another value the generated `config.yaml` would be empty, and the
    compose block would have no `depends_on` key at all, only an empty line
    where the key would stand.
- Go's `int` is modelled as 64 bits wide.
- EnvLoader.Environ.LoadEnv: some file handling is not modelled.
  - The `.env` path, found from the script's location, is not modelled; a
    missing file is the input `None`.
  - Errors opening or reading the file are not modelled.
  - The file's division into lines is given, not computed.
  - Assigning to `os.environ` raises (`ValueError` or `OSError`) for a name
    or value with a NUL character or an empty name; the model records only
    that loading ended there, not which exception it was.
- `fetch` is not modelled: HTTP, timeouts and JSON decoding.
  - The status expressions start from decoded values.
- ApisixStatus.Lookup: returns the first member with a name, whereas a
  decoded Python `dict` keeps the last duplicate.
  - Objects are taken to have distinct member names, as decoding makes them.
- ApisixStatus.StatusMarkerGreen: JSON floats are real numbers, so NaN and
  infinities are not represented.
