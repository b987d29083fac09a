/** The one-line summaries the APISIX status script prints for each route,
    consumer and global rule, computed from the decoded Admin API answer. */
module ApisixStatus {
  import opened Wrappers
  import opened Text

  /** A decoded JSON value; numbers keep Python's split into `int` and
      `float`. */
  datatype Json =
    | JNull
    | JBool(b: bool)
    | JInt(i: int)
    | JFloat(f: real)
    | JStr(s: string)
    | JArr(items: seq<Json>)
    | JObj(fields: seq<(string, Json)>)

  /** Why an expression of the script raises. */
  datatype Failure = TypeError | AttributeError

  /** A decoded JSON object, its members in document order. */
  type Object = seq<(string, Json)>

  /** The value of the first member named `key`, if any. */
  function Lookup(obj: Object, key: string): (r: Option<Json>)
    ensures r.None? <==> forall j :: 0 <= j < |obj| ==> obj[j].0 != key
    ensures r.Some? ==> exists j :: 0 <= j < |obj| && obj[j] == (key, r.value)
  {
    if obj == [] then None
    else if obj[0].0 == key then Some(obj[0].1)
    else
      var r := Lookup(obj[1..], key);
      assert forall j :: 1 <= j < |obj| ==> obj[j] == obj[1..][j - 1];
      r
  }

  /** `dict.get(key, default)`. */
  function Get(obj: Object, key: string, default: Json): (r: Json)
    ensures Lookup(obj, key).Some? ==> r == Lookup(obj, key).value
    ensures Lookup(obj, key).None? ==> r == default
  {
    match Lookup(obj, key)
    case Some(v) => v
    case None => default
  }

  /** The member names of an object, in order. */
  function Keys(obj: Object): (ks: seq<string>)
    ensures |ks| == |obj| && forall j :: 0 <= j < |obj| ==> ks[j] == obj[j].0
  {
    seq(|obj|, j requires 0 <= j < |obj| => obj[j].0)
  }

  /** `r.get('value', {})` for an element of the `list` array: the element
      must be an object, and so must the value it holds. */
  function ItemValue(item: Json): (r: Result<Object, Failure>)
    ensures item.JObj? && Lookup(item.fields, "value").None? ==> r == Ok([])
    ensures r.Ok? ==> item.JObj? && (Lookup(item.fields, "value").None? || Lookup(item.fields, "value") == Some(JObj(r.value)))
    ensures !item.JObj? ==> r == Err(AttributeError)
    ensures r.Ok? <==> item.JObj? && (Lookup(item.fields, "value").None? || Lookup(item.fields, "value").value.JObj?)
    ensures item.JObj? && Lookup(item.fields, "value").Some? && Lookup(item.fields, "value").value.JObj?
            ==> r == Ok(Lookup(item.fields, "value").value.fields)
    ensures r.Err? ==> r.error == AttributeError
  {
    match item
    case JObj(fields) =>
      (match Get(fields, "value", JObj([]))
       case JObj(v) => Ok(v)
       case _ => Err(AttributeError))
    case _ => Err(AttributeError)
  }

  // ---------------------------------------------------------------- routes

  const Green := "🟢"
  const Red := "🔴"

  /** The number a decoded value stands for in Python arithmetic
      comparisons: booleans count as 0 and 1. */
  function NumericValue(v: Json): Option<real> {
    match v
    case JBool(b) => Some(if b then 1.0 else 0.0)
    case JInt(i) => Some(i as real)
    case JFloat(f) => Some(f)
    case _ => None
  }

  /** The route's status marker: green when `status` is 1 or absent. */
  function StatusMarker(route: Object): string {
    match Get(route, "status", JInt(1))
    case JInt(1) => Green
    case JFloat(f) => if f == 1.0 then Green else Red
    case JBool(true) => Green
    case _ => Red
  }

  /** Green exactly when the status is missing or compares equal to 1. */
  lemma StatusMarkerGreen(route: Object)
    ensures StatusMarker(route) in {Green, Red}
    ensures StatusMarker(route) == Green <==>
              Lookup(route, "status").None? || NumericValue(Lookup(route, "status").value) == Some(1.0)
  {
    assert Green != Red;
  }

  /** `','.join(v.get('methods', ['*']))`: a list of strings, the
      characters of a string or the keys of an object, joined by commas;
      anything else raises. */
  function Methods(route: Object): (r: Result<string, Failure>)
  {
    match Get(route, "methods", JArr([JStr("*")]))
    case JArr(items) =>
      if forall j :: 0 <= j < |items| ==> items[j].JStr? then Ok(Join(Texts(items), ","))
      else Err(TypeError)
    case JStr(s) => Ok(Join(seq(|s|, j requires 0 <= j < |s| => [s[j]]), ","))
    case JObj(fields) => Ok(Join(Keys(fields), ","))
    case _ => Err(TypeError)
  }

  /** The texts of a list of strings. */
  function Texts(items: seq<Json>): (ts: seq<string>)
    requires forall j :: 0 <= j < |items| ==> items[j].JStr?
    ensures |ts| == |items| && forall j :: 0 <= j < |items| ==> ts[j] == items[j].s
  {
    if items == [] then [] else [items[0].s] + Texts(items[1..])
  }

  /** Without `methods` the route shows `*`. */
  lemma MethodsDefault(route: Object)
    requires Lookup(route, "methods").None?
    ensures Methods(route) == Ok("*")
  {
    assert Texts([JStr("*")]) == ["*"];
  }

  /** A list of method names without commas is shown so that cutting at the
      commas gives the names back. */
  lemma MethodsRoundTrip(route: Object, names: seq<string>)
    requires names != [] && forall j :: 0 <= j < |names| ==> ',' !in names[j]
    requires Lookup(route, "methods").Some? && Lookup(route, "methods").value.JArr?
    requires var items := Lookup(route, "methods").value.items;
             |items| == |names| && forall j :: 0 <= j < |items| ==> items[j] == JStr(names[j])
    ensures Methods(route).Ok? && Split(Methods(route).value, ',') == names
  {
    var items := Lookup(route, "methods").value.items;
    assert Texts(items) == names;
    SplitJoin(names, ',');
  }

  /** `v.get('name', v.get('id', 'N/A'))`. */
  function RouteName(route: Object): (r: Json)
    ensures Lookup(route, "name").Some? ==> r == Lookup(route, "name").value
    ensures Lookup(route, "name").None? && Lookup(route, "id").Some? ==> r == Lookup(route, "id").value
    ensures Lookup(route, "name").None? && Lookup(route, "id").None? ==> r == JStr("N/A")
  {
    Get(route, "name", Get(route, "id", JStr("N/A")))
  }

  // ------------------------------------------------------- plugin summaries

  /** Plugins shown for a consumer and for a global rule. */
  const ConsumerLimit := 3
  const RuleLimit := 4

  const NoPlugins := "无插件"

  /** `list(v.get('plugins', {}).keys())`: the plugin names, or the error
      when `plugins` is not an object. */
  function PluginNames(v: Object): (r: Result<seq<string>, Failure>)
    ensures Lookup(v, "plugins").None? ==> r == Ok([])
    ensures r.Ok? <==> Lookup(v, "plugins").None? || Lookup(v, "plugins").value.JObj?
    ensures r.Ok? && Lookup(v, "plugins").Some? ==> r.value == Keys(Lookup(v, "plugins").value.fields)
    ensures r.Err? ==> r.error == AttributeError
  {
    match Get(v, "plugins", JObj([]))
    case JObj(fields) => Ok(Keys(fields))
    case _ => Err(AttributeError)
  }

  /** The plugin column: the fixed text for none, else the first `limit`
      names joined by `", "`, with `...` when some were left out. */
  function PluginSummary(plugins: seq<string>, limit: nat): string {
    if plugins == [] then NoPlugins
    else
      var shown := if |plugins| <= limit then plugins else plugins[..limit];
      Join(shown, ", ") + (if |plugins| > limit then "..." else "")
  }

  /** Every piece of a join occurs in it. */
  lemma {:induction false} JoinContainsPieces(xs: seq<string>, sep: string, j: nat)
    requires j < |xs|
    ensures Contains(Join(xs, sep), xs[j])
    decreases |xs|
  {
    if |xs| == 1 {
      OccursBetween([], xs[0], []);
      assert [] + xs[0] + [] == Join(xs, sep);
    } else if j == 0 {
      OccursBetween([], xs[0], sep + Join(xs[1..], sep));
      assert [] + xs[0] + (sep + Join(xs[1..], sep)) == Join(xs, sep);
    } else {
      JoinContainsPieces(xs[1..], sep, j - 1);
      ContainsWithin(xs[0] + sep, Join(xs[1..], sep), [], xs[j]);
      assert xs[0] + sep + Join(xs[1..], sep) + [] == Join(xs, sep);
    }
  }

  /** No plugins give the fixed text; up to `limit` plugins are all joined
      by `", "`; a longer list shows its first `limit` names joined, then
      `...`. */
  lemma PluginSummaryForm(plugins: seq<string>, limit: nat)
    ensures plugins == [] ==> PluginSummary(plugins, limit) == NoPlugins
    ensures 0 < |plugins| <= limit ==> PluginSummary(plugins, limit) == Join(plugins, ", ")
    ensures limit < |plugins| ==> PluginSummary(plugins, limit) == Join(plugins[..limit], ", ") + "..."
  {
  }

  /** The summary names each of the first `limit` plugins, and marks a cut
      list with a trailing `...`; when no name itself ends in `...`, the
      mark appears exactly when plugins were left out. */
  lemma PluginSummaryShows(plugins: seq<string>, limit: nat)
    ensures plugins == [] ==> PluginSummary(plugins, limit) == NoPlugins
    ensures forall j :: 0 <= j < |plugins| && j < limit ==> Contains(PluginSummary(plugins, limit), plugins[j])
    ensures |plugins| > limit ==> EndsWith(PluginSummary(plugins, limit), "...")
    ensures 0 < |plugins| <= limit && (forall j :: 0 <= j < |plugins| ==> !EndsWith(plugins[j], "...")) ==>
              !EndsWith(PluginSummary(plugins, limit), "...")
  {
    if plugins != [] {
      var shown := if |plugins| <= limit then plugins else plugins[..limit];
      var mark := if |plugins| > limit then "..." else "";
      var r := Join(shown, ", ") + mark;
      forall j | 0 <= j < |plugins| && j < limit
        ensures Contains(r, plugins[j])
      {
        assert shown[j] == plugins[j];
        JoinContainsPieces(shown, ", ", j);
        ContainsWithin([], Join(shown, ", "), mark, plugins[j]);
        assert [] + Join(shown, ", ") + mark == r;
      }
      if |plugins| > limit {
        EndsWithAppend(Join(shown, ", "), "...", "...");
      } else {
        assert r == Join(plugins, ", ");
        if forall j :: 0 <= j < |plugins| ==> !EndsWith(plugins[j], "...") {
          JoinNotEndingInMark(plugins);
        }
      }
    }
  }

  /** A `", "`-join of names that do not end in `...` does not either. */
  lemma JoinNotEndingInMark(xs: seq<string>)
    requires xs != [] && forall j :: 0 <= j < |xs| ==> !EndsWith(xs[j], "...")
    ensures !EndsWith(Join(xs, ", "), "...")
  {
    var last := xs[|xs| - 1];
    if |xs| == 1 {
      assert Join(xs, ", ") == last;
    } else {
      JoinSplitLast(xs, ", ");
      var front := Join(xs[..|xs| - 1], ", ");
      if |last| >= 3 {
        if EndsWith(front + ", " + last, "...") {
          SuffixOfLast(front + ", ", last, "...");
        }
      } else {
        SeparatorBeforeShort(front, last);
      }
    }
  }

  /** A suffix no longer than the last part is a suffix of that part. */
  lemma SuffixOfLast(a: string, b: string, p: string)
    requires |p| <= |b| && EndsWith(a + b, p)
    ensures EndsWith(b, p)
  {
    assert (a + b)[|a + b| - |p|..] == b[|b| - |p|..];
  }

  /** A piece of fewer than three characters after `", "` leaves the space
      among the last three characters. */
  lemma SeparatorBeforeShort(front: string, last: string)
    requires |last| < 3
    ensures !EndsWith(front + ", " + last, "...")
  {
    var r := front + ", " + last;
    EndsWithDots(r);
    assert r[|r| - |last| - 1] == ' ';
  }

  /** Ending in `...` is having three dots as the last characters. */
  lemma EndsWithDots(s: string)
    ensures EndsWith(s, "...") <==> |s| >= 3 && s[|s| - 3] == '.' && s[|s| - 2] == '.' && s[|s| - 1] == '.'
  {
    if |s| >= 3 {
      var t := s[|s| - 3..];
      assert t[0] == s[|s| - 3] && t[1] == s[|s| - 2] && t[2] == s[|s| - 1];
      assert "..." == ['.', '.', '.'];
    }
  }

  /** A join of two or more pieces is the join of all but the last, the
      separator, and the last. */
  lemma {:induction false} JoinSplitLast(xs: seq<string>, sep: string)
    requires |xs| > 1
    ensures Join(xs, sep) == Join(xs[..|xs| - 1], sep) + sep + xs[|xs| - 1]
    decreases |xs|
  {
    if |xs| == 2 {
      assert xs[..1] == [xs[0]];
    } else {
      JoinSplitLast(xs[1..], sep);
      assert xs[1..][..|xs| - 2] == xs[..|xs| - 1][1..];
      assert xs[..|xs| - 1][0] == xs[0];
    }
  }

  /** The plugin column of a consumer and of a global rule. */
  function ConsumerPlugins(v: Object): Result<string, Failure> {
    match PluginNames(v)
    case Ok(names) => Ok(PluginSummary(names, ConsumerLimit))
    case Err(e) => Err(e)
  }

  function RulePlugins(v: Object): Result<string, Failure> {
    match PluginNames(v)
    case Ok(names) => Ok(PluginSummary(names, RuleLimit))
    case Err(e) => Err(e)
  }

  /** Consumers name up to three plugins, global rules up to four. */
  lemma PluginColumns(v: Object)
    requires Lookup(v, "plugins").Some? && Lookup(v, "plugins").value.JObj?
    ensures ConsumerPlugins(v) == Ok(PluginSummary(Keys(Lookup(v, "plugins").value.fields), 3))
    ensures RulePlugins(v) == Ok(PluginSummary(Keys(Lookup(v, "plugins").value.fields), 4))
  {
  }

  /** `v.get(key, 'N/A')` for the uri, the user name and the rule id. */
  function FieldOrNA(v: Object, key: string): (r: Json)
    ensures Lookup(v, key).Some? ==> r == Lookup(v, key).value
    ensures Lookup(v, key).None? ==> r == JStr("N/A")
  {
    Get(v, key, JStr("N/A"))
  }
}
