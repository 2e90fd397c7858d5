/** The Python values a configuration option can take: the values `json`
    decodes and `argparse` stores, with `JNull` standing for `None`. */
module Json {

  import opened Wrappers
  import opened Strs

  datatype Json =
    | JNull
    | JBool(b: bool)
    | JInt(i: int)
    | JStr(s: string)
    | JList(items: seq<Json>)
    | JObj(fields: map<string, Json>)

  /** Python truthiness: `None`, `False`, `0` and empty containers are false. */
  predicate Falsy(j: Json) {
    match j
    case JNull => true
    case JBool(b) => !b
    case JInt(i) => i == 0
    case JStr(s) => |s| == 0
    case JList(items) => |items| == 0
    case JObj(fields) => |fields| == 0
  }

  const EmptyObj: Json := JObj(map[])

  /** `d.get(k, dflt)`. */
  function Get(d: map<string, Json>, k: string, dflt: Json): (r: Json)
    ensures k in d ==> r == d[k]
    ensures k !in d ==> r == dflt
  {
    if k in d then d[k] else dflt
  }

  /** `obj = obj.get(ref, {})` for each reference of `path`; `.get` on a
      value that is not a dict raises `AttributeError`. */
  function Walk(obj: Json, path: seq<string>): Result<Json>
    decreases |path|
  {
    if |path| == 0 then Ok(obj)
    else if obj.JObj? then Walk(Get(obj.fields, path[0], EmptyObj), path[1..])
    else Err("'" + "get" + "' is not an attribute of a non-dict JSON value")
  }

  /** The value stored under a configuration option name in the JSON file,
      `JNull` when there is none: the name itself as a flat key, else the
      name split at `/` into object references and a final key. */
  function Lookup(json: map<string, Json>, name: string): Result<Json> {
    if name in json then Ok(json[name])
    else
      var parts := Split(name, '/');
      match Walk(JObj(json), parts[..|parts| - 1])
      case Err(m) => Err(m)
      case Ok(obj) =>
        if obj.JObj? then Ok(Get(obj.fields, parts[|parts| - 1], JNull))
        else Err("'" + "get" + "' is not an attribute of a non-dict JSON value")
  }

  /** `_lookupKeyInJson`: the loop over the object references of the name. */
  method LookupKeyInJson(json: map<string, Json>, name: string) returns (r: Result<Json>)
    ensures r == Lookup(json, name)
  {
    if name in json {
      return Ok(json[name]);
    }
    var parts := Split(name, '/');
    var path := parts[..|parts| - 1];
    var obj := JObj(json);
    var i := 0;
    while i < |path|
      invariant 0 <= i <= |path|
      invariant Walk(JObj(json), path) == Walk(obj, path[i..])
    {
      if !obj.JObj? {
        return Err("'" + "get" + "' is not an attribute of a non-dict JSON value");
      }
      assert path[i..][1..] == path[i + 1..];
      obj := Get(obj.fields, path[i], EmptyObj);
      i := i + 1;
    }
    assert path[i..] == [];
    if !obj.JObj? {
      return Err("'" + "get" + "' is not an attribute of a non-dict JSON value");
    }
    r := Ok(Get(obj.fields, parts[|parts| - 1], JNull));
  }

  /** The nested objects that hold `v` under the references `refs`, one
      level per reference. */
  function Nest(refs: seq<string>, v: Json): (r: Json)
    ensures |refs| > 0 ==> r.JObj? && r.fields.Keys == {refs[0]}
    decreases |refs|
  {
    if |refs| == 0 then v else JObj(map[refs[0] := Nest(refs[1..], v)])
  }

  /** Walking the references of a nesting reaches the innermost object. */
  lemma {:induction false} WalkNest(refs: seq<string>, v: Json)
    ensures Walk(Nest(refs, v), refs) == Ok(v)
    decreases |refs|
  {
    if |refs| > 0 {
      WalkNest(refs[1..], v);
    }
  }

  /** Walking from `{}` stays at `{}`. */
  lemma {:induction false} WalkEmpty(path: seq<string>)
    ensures Walk(EmptyObj, path) == Ok(EmptyObj)
    decreases |path|
  {
    if |path| > 0 {
      WalkEmpty(path[1..]);
    }
  }

  /** A name `a/b/…/k` finds the value of a JSON file that nests it as
      `{"a": {"b": … {"k": v}}}`. */
  lemma NestedLookup(refs: seq<string>, key: string, v: Json)
    requires |refs| > 0 && '/' !in key && forall i :: 0 <= i < |refs| ==> '/' !in refs[i]
    ensures Lookup(Nest(refs, JObj(map[key := v])).fields, Join("/", refs + [key])) == Ok(v)
  {
    var parts := refs + [key];
    var name := Join("/", parts);
    var inner := JObj(map[key := v]);
    JoinSplit(parts, '/');
    JoinLonger(parts);
    assert name !in Nest(refs, inner).fields;
    assert parts[..|parts| - 1] == refs;
    WalkNest(refs, inner);
  }

  /** Joining two or more names gives a name longer than the first. */
  lemma JoinLonger(items: seq<string>)
    requires |items| >= 2
    ensures |Join("/", items)| > |items[0]|
  {
    assert Join("/", items) == items[0] + "/" + Join("/", items[1..]);
  }

  /** A name whose first object reference is absent from the file, and that
      is not a flat key either, has no value. */
  lemma MissingReference(json: map<string, Json>, name: string)
    requires name !in json && |Split(name, '/')| > 1 && Split(name, '/')[0] !in json
    ensures Lookup(json, name) == Ok(JNull)
  {
    var parts := Split(name, '/');
    var path := parts[..|parts| - 1];
    assert path[1..] == parts[1..|parts| - 1];
    WalkEmpty(path[1..]);
  }

  /** A line of the configuration file that is a comment: its stripped text
      starts with `#` or `//`. */
  predicate CommentLine(line: string) {
    StartsWith(Strip(line), "#") || StartsWith(Strip(line), "//")
  }

  /** The lines of the configuration file that are given to the JSON decoder. */
  function JsonLines(lines: seq<string>): (r: seq<string>)
    ensures forall i :: 0 <= i < |r| ==> !CommentLine(r[i])
    ensures forall l :: l in r <==> l in lines && !CommentLine(l)
    decreases |lines|
  {
    if |lines| == 0 then []
    else if CommentLine(lines[0]) then JsonLines(lines[1..])
    else [lines[0]] + JsonLines(lines[1..])
  }

  /** Dropping comments from two pieces of a file is dropping them from the whole. */
  lemma {:induction false} JsonLinesAppend(a: seq<string>, b: seq<string>)
    ensures JsonLines(a + b) == JsonLines(a) + JsonLines(b)
    decreases |a|
  {
    if |a| > 0 {
      assert (a + b)[1..] == a[1..] + b;
      JsonLinesAppend(a[1..], b);
    } else {
      assert a + b == b;
    }
  }

  /** The loop of `_loadJSONConfigFile` that keeps the non-comment lines in order. */
  method FilterJsonLines(lines: seq<string>) returns (kept: seq<string>)
    ensures kept == JsonLines(lines)
  {
    kept := [];
    var i := 0;
    while i < |lines|
      invariant 0 <= i <= |lines|
      invariant kept == JsonLines(lines[..i])
    {
      var stripped := Strip(lines[i]);
      JsonLinesAppend(lines[..i], [lines[i]]);
      assert lines[..i + 1] == lines[..i] + [lines[i]];
      if !StartsWith(stripped, "#") && !StartsWith(stripped, "//") {
        kept := kept + [lines[i]];
      }
      i := i + 1;
    }
    assert lines[..i] == lines;
  }
}
