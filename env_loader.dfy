/** `load_env` of the APISIX status script: the assignments of a `.env` file
    are folded into the process environment, never overriding a variable
    that is already set, and the Admin API address and key are then read
    from the environment with fixed defaults. */
module EnvLoader {
  import opened Wrappers
  import opened Text
  import opened PyStr

  /** What one line of the file asks for. */
  datatype Line = Ignored | Assignment(key: string, value: string)

  /** A line, stripped, is ignored when empty, a comment, or without `=`;
      otherwise its key and value are the stripped texts before and after
      its first `=`. */
  function ParseLine(line: string): (l: Line)
    ensures l.Ignored? <==> Strip(line) == [] || Strip(line)[0] == '#' || '=' !in Strip(line)
    ensures l.Assignment? ==> '=' !in l.key
    ensures l.Assignment? ==> exists k, v :: Strip(line) == k + "=" + v && '=' !in k
                                             && l.key == Strip(k) && l.value == Strip(v)
  {
    var s := Strip(line);
    if s == [] || s[0] == '#' || '=' !in s then Ignored
    else
      var p := Partition(s, '=');
      StripKeepsOut(p.0, '=');
      Assignment(Strip(p.0), Strip(p.2))
  }

  /** The lines of a file, parsed one by one. */
  function ParseLines(lines: seq<string>): (ls: seq<Line>)
    ensures |ls| == |lines| && forall i :: 0 <= i < |lines| ==> ls[i] == ParseLine(lines[i])
  {
    seq(|lines|, i requires 0 <= i < |lines| => ParseLine(lines[i]))
  }

  /** Stripping removes characters, so it adds none. */
  lemma StripKeepsOut(s: string, c: char)
    requires c !in s
    ensures c !in Strip(s)
  {
    var r := Strip(s);
    if r != [] {
      var lo := Leading(s, IsSpace);
      forall j | 0 <= j < |r| ensures r[j] != c {
        assert r[j] == s[lo + j];
      }
    }
  }

  /** Assigning these to `os.environ` raises: a NUL character in the name or
      the value (`ValueError`), or an empty name, which `setenv` refuses
      (`OSError`). */
  predicate Rejected(key: string, value: string) {
    key == [] || '\0' in key || '\0' in value
  }

  /** The environment after loading, and whether an assignment raised. */
  datatype Outcome = Outcome(vars: map<string, string>, raised: bool)

  /** The effect of one line: the environment after it, or `None` when its
      assignment raises. An ignored line or a key already set changes
      nothing; any other assignment sets the key. */
  function Assign(vars: map<string, string>, l: Line): (r: Option<map<string, string>>)
    ensures r.None? <==> l.Assignment? && l.key !in vars && Rejected(l.key, l.value)
    ensures r.Some? ==> forall k :: k in vars ==> k in r.value && r.value[k] == vars[k]
    ensures r.Some? ==> forall k :: k in r.value && k !in vars ==> l == Assignment(k, r.value[k])
    ensures r.Some? && l.Assignment? ==> l.key in r.value
  {
    match l
    case Ignored => Some(vars)
    case Assignment(key, value) =>
      if key in vars then Some(vars)
      else if Rejected(key, value) then None
      else Some(vars[key := value])
  }

  /** The effect of loading the parsed lines `ls` into `vars`, line by line,
      stopping at the first assignment that raises. */
  function Loaded(vars: map<string, string>, ls: seq<Line>): Outcome
    decreases |ls|
  {
    if ls == [] then Outcome(vars, false)
    else
      match Assign(vars, ls[0])
      case None => Outcome(vars, true)
      case Some(next) => Loaded(next, ls[1..])
  }

  /** The process environment `load_env` updates in place. */
  class Environ {
    var vars: map<string, string>

    constructor(initial: map<string, string>)
      ensures vars == initial
    {
      vars := initial;
    }

    /** `load_env`: nothing when there is no `.env` file, otherwise each line
        in turn; `raised` reports the exception (`ValueError` or `OSError`) that
        ends loading. */
    method LoadEnv(file: Option<seq<string>>) returns (raised: bool)
      modifies this
      ensures file.None? ==> vars == old(vars) && !raised
      ensures file.Some? ==> Outcome(vars, raised) == Loaded(old(vars), ParseLines(file.value))
    {
      raised := false;
      if file.None? {
        return;
      }
      var lines := file.value;
      var i := 0;
      while i < |lines|
        invariant 0 <= i <= |lines|
        invariant Loaded(old(vars), ParseLines(lines)) == Loaded(vars, ParseLines(lines)[i..])
      {
        assert ParseLines(lines)[i..][0] == ParseLine(lines[i]);
        assert ParseLines(lines)[i..][1..] == ParseLines(lines)[i + 1..];
        var line := Strip(lines[i]);
        if line != [] && line[0] != '#' && '=' in line {
          var (k, _, v) := Partition(line, '=');
          var key, value := Strip(k), Strip(v);
          if key !in vars {
            if key == [] || '\0' in key || '\0' in value {
              raised := true;
              return;
            }
            vars := vars[key := value];
          }
        }
        i := i + 1;
      }
    }
  }

  // ---------------------------------------------------------------- lemmas

  /** Loading a file in two parts is loading the first part, then, unless
      it raised, the second part on top. */
  lemma {:induction false} LoadedAppend(vars: map<string, string>, a: seq<Line>, b: seq<Line>)
    ensures Loaded(vars, a + b) ==
              (var first := Loaded(vars, a);
               if first.raised then first else Loaded(first.vars, b))
    decreases |a|
  {
    if a == [] {
      assert a + b == b;
    } else {
      assert (a + b)[0] == a[0] && (a + b)[1..] == a[1..] + b;
      match Assign(vars, a[0])
      case None =>
      case Some(next) => LoadedAppend(next, a[1..], b);
    }
  }

  /** Comments, blank lines and lines without `=` may be dropped from or
      added anywhere to the file without effect. */
  lemma IgnoredLine(vars: map<string, string>, a: seq<Line>, b: seq<Line>)
    ensures Loaded(vars, a + [Ignored] + b) == Loaded(vars, a + b)
  {
    assert a + [Ignored] + b == a + ([Ignored] + b);
    assert ([Ignored] + b)[1..] == b;
    LoadedAppend(vars, a, [Ignored] + b);
    LoadedAppend(vars, a, b);
  }

  /** A variable that is already set keeps its value. */
  lemma {:induction false} KeepsExisting(vars: map<string, string>, ls: seq<Line>)
    ensures forall k :: k in vars ==> k in Loaded(vars, ls).vars && Loaded(vars, ls).vars[k] == vars[k]
    decreases |ls|
  {
    if ls != [] {
      match Assign(vars, ls[0])
      case None =>
      case Some(next) => KeepsExisting(next, ls[1..]);
    }
  }

  /** Loading only adds variables named by an assignment of the file, each
      with the value of one of its assignments. */
  lemma {:induction false} OnlyFileKeys(vars: map<string, string>, ls: seq<Line>)
    ensures forall k :: k in Loaded(vars, ls).vars && k !in vars ==>
              exists i :: 0 <= i < |ls| && ls[i] == Assignment(k, Loaded(vars, ls).vars[k])
    decreases |ls|
  {
    if ls != [] {
      match Assign(vars, ls[0])
      case None =>
      case Some(next) =>
        var rest := ls[1..];
        var out := Loaded(next, rest).vars;
        OnlyFileKeys(next, rest);
        KeepsExisting(next, rest);
        forall k | k in out && k !in vars
          ensures exists i :: 0 <= i < |ls| && ls[i] == Assignment(k, out[k])
        {
          if k in next {
            assert ls[0] == Assignment(k, out[k]);
          } else {
            var i :| 0 <= i < |rest| && rest[i] == Assignment(k, out[k]);
            assert ls[i + 1] == rest[i];
          }
        }
    }
  }

  /** The first assignment of a key that was not set decides its value,
      unless loading raised. */
  lemma {:induction false} FirstOccurrenceWins(vars: map<string, string>, ls: seq<Line>, i: nat)
    requires i < |ls| && ls[i].Assignment? && ls[i].key !in vars
    requires forall j :: 0 <= j < i && ls[j].Assignment? ==> ls[j].key != ls[i].key
    requires !Loaded(vars, ls).raised
    ensures ls[i].key in Loaded(vars, ls).vars
    ensures Loaded(vars, ls).vars[ls[i].key] == ls[i].value
    decreases i
  {
    var rest := ls[1..];
    var next := Assign(vars, ls[0]).value;
    KeepsExisting(next, rest);
    if i > 0 {
      forall j | 0 <= j < i - 1 && rest[j].Assignment?
        ensures rest[j].key != rest[i - 1].key
      {
        assert rest[j] == ls[j + 1];
      }
      assert rest[i - 1] == ls[i];
      FirstOccurrenceWins(next, rest, i - 1);
    }
  }

  /** Loading raises only on a rejected assignment of the file. */
  lemma {:induction false} RaisesOnlyOnRejected(vars: map<string, string>, ls: seq<Line>)
    requires forall i :: 0 <= i < |ls| && ls[i].Assignment? ==> !Rejected(ls[i].key, ls[i].value)
    ensures !Loaded(vars, ls).raised
    decreases |ls|
  {
    if ls != [] {
      var rest := ls[1..];
      assert forall i :: 0 <= i < |rest| ==> rest[i] == ls[i + 1];
      RaisesOnlyOnRejected(Assign(vars, ls[0]).value, rest);
    }
  }

  const DefaultAdminUrl := "http://localhost:9180"
  const DefaultAdminKey := "edd1c9f034335f136f87ad84b625c8f1"

  /** `os.environ.get(name, default)`. */
  function Setting(vars: map<string, string>, name: string, default: string): (r: string)
    ensures name in vars ==> r == vars[name]
    ensures name !in vars ==> r == default
  {
    if name in vars then vars[name] else default
  }

  /** The Admin API address: the environment's, else the default. */
  function AdminUrl(vars: map<string, string>): string {
    Setting(vars, "APISIX_ADMIN_URL", DefaultAdminUrl)
  }

  /** The Admin API key: the environment's, else the default. */
  function AdminKey(vars: map<string, string>): string {
    Setting(vars, "APISIX_ADMIN_KEY", DefaultAdminKey)
  }

  /** An address set before the script starts beats the file's; without
      either, the default address is used. */
  lemma AdminUrlPrecedence(vars: map<string, string>, ls: seq<Line>)
    ensures "APISIX_ADMIN_URL" in vars ==> AdminUrl(Loaded(vars, ls).vars) == vars["APISIX_ADMIN_URL"]
    ensures (forall i :: 0 <= i < |ls| && ls[i].Assignment? ==> ls[i].key != "APISIX_ADMIN_URL")
            && "APISIX_ADMIN_URL" !in vars
            ==> AdminUrl(Loaded(vars, ls).vars) == DefaultAdminUrl
  {
    KeepsExisting(vars, ls);
    OnlyFileKeys(vars, ls);
  }

  /** The same precedence for the Admin API key. */
  lemma AdminKeyPrecedence(vars: map<string, string>, ls: seq<Line>)
    ensures "APISIX_ADMIN_KEY" in vars ==> AdminKey(Loaded(vars, ls).vars) == vars["APISIX_ADMIN_KEY"]
    ensures (forall i :: 0 <= i < |ls| && ls[i].Assignment? ==> ls[i].key != "APISIX_ADMIN_KEY")
            && "APISIX_ADMIN_KEY" !in vars
            ==> AdminKey(Loaded(vars, ls).vars) == DefaultAdminKey
  {
    KeepsExisting(vars, ls);
    OnlyFileKeys(vars, ls);
  }
}
