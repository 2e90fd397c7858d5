/** The option classes of `pycheribuild/config/loader.py`: a loader whose
    options are all of one kind (default only, command line, or command line
    and JSON), the cached value of each option, and the `--no-` option that
    negates a boolean one. */
module ConfigOptions {

  import opened Wrappers
  import opened Strs
  import opened Paths
  import opened Json
  import CL = ConfigLoader

  /** The option class a loader creates: `DefaultValueOnlyConfigOption`,
      `CommandLineConfigOption` or `JsonAndCommandLineConfigOption`. */
  datatype Kind = DefaultValueOnly | CommandLineOnly | JsonAndCommandLine

  /** The name of the option that negates the boolean option `name`: "no-"
      inserted after the last `/`, or at the front without one. */
  function NegatedName(name: string): (r: string)
    ensures |r| == |name| + 3 && StartsWith(r, Dir(name))
  {
    DirName(name);
    Dir(name) + NoPrefix(Name(name))
  }

  /** "no-" in front of a path component keeps it free of `/`. */
  function NoPrefix(component: string): (r: string)
    requires '/' !in component
    ensures '/' !in r && |r| == |component| + 3
  {
    var r := "no-" + component;
    assert |r| == |component| + 3;
    assert forall i :: 3 <= i < |r| ==> r[i] == component[i - 3];
    r
  }

  /** The negated name keeps every object reference up to the last `/`, and
      its final component is the original one with "no-" in front. */
  lemma NegatedNameParts(name: string)
    ensures Dir(NegatedName(name)) == Dir(name)
    ensures Name(NegatedName(name)) == "no-" + Name(name)
    ensures '/' !in name ==> NegatedName(name) == "no-" + name
  {
    var d, t := Dir(name), NoPrefix(Name(name));
    NameOfAppend(d, t);
    DirOfAppend(d, t);
    if '/' !in name {
      NoSlash(name);
    }
  }

  /** The help of the negated option of a boolean: suppressed unless the
      default is `True`; then the option's help (after hiding) with its first
      letter lower-cased after "Do not ", a suppressed help staying
      suppressed.  An option without help fails the dictionary lookup
      (KeyError) and an empty help the indexing of its first letter
      (IndexError). */
  function NegatedHelp(help: Option<string>, defaultTrue: bool): (r: Result<string>)
    ensures !defaultTrue ==> r == Ok(CL.Suppress)
    ensures defaultTrue && help == Some(CL.Suppress) ==> r == Ok(CL.Suppress)
    ensures defaultTrue && !Given(help) ==> r.Err?
    ensures defaultTrue && Given(help) && help.value != CL.Suppress ==>
      r.Ok? && StartsWith(r.value, "Do not ") && |r.value| == |help.value| + 7
    ensures defaultTrue && Given(help) && help.value != CL.Suppress ==>
      r.value[8..] == help.value[1..] && LowerChar(r.value[7]) == LowerChar(help.value[0])
  {
    if !defaultTrue then Ok(CL.Suppress)
    else if help.None? then Err("KeyError: 'help'")
    else if help.value == CL.Suppress then Ok(CL.Suppress)
    else if |help.value| == 0 then Err("IndexError: string index out of range")
    else
      var h := help.value;
      Ok("Do not " + [LowerChar(h[0])] + h[1..])
  }

  /** `_loadOptionImpl` of each option class. */
  function LoadImpl(kind: Kind, name: string, parsed: map<string, Json>, json: map<string, Json>,
                    strings: seq<string>, dest: string, d: CL.Default): (r: Result<Json>)
    ensures kind == DefaultValueOnly ==> r == Ok(CL.DefaultValue(d))
    ensures kind != DefaultValueOnly && dest !in parsed ==> r.Err?
    ensures kind == CommandLineOnly && dest in parsed ==>
      r == Ok(if parsed[dest] != JNull then parsed[dest] else CL.DefaultValue(d))
  {
    match kind
    case DefaultValueOnly => Ok(CL.DefaultValue(d))
    case CommandLineOnly =>
      if dest !in parsed then Err("load() must be called before the option is used")
      else if parsed[dest] != JNull then Ok(parsed[dest])
      else Ok(CL.DefaultValue(d))
    case JsonAndCommandLine =>
      if dest !in parsed then Err("load() must be called before the option is used")
      else CL.LoadImpl(parsed[dest], JNull, json, name, strings, dest, d)
  }

  /** With the argparse default asserted to be `None`, any command-line value
      of a command-line-and-JSON option wins; without one, the JSON value
      comes before the default. */
  lemma JsonAndCommandLinePrecedence(name: string, parsed: map<string, Json>, json: map<string, Json>,
                                     strings: seq<string>, dest: string, d: CL.Default)
    requires dest in parsed
    ensures parsed[dest] != JNull ==> LoadImpl(JsonAndCommandLine, name, parsed, json, strings, dest, d) == Ok(parsed[dest])
    ensures parsed[dest] == JNull && CL.FromJson(json, name, strings, dest) == Ok(JNull) ==>
      LoadImpl(JsonAndCommandLine, name, parsed, json, strings, dest, d) == Ok(CL.DefaultValue(d))
    ensures parsed[dest] == JNull && CL.FromJson(json, name, strings, dest) != Ok(JNull) ==>
      LoadImpl(JsonAndCommandLine, name, parsed, json, strings, dest, d) == CL.FromJson(json, name, strings, dest)
  {
  }

  /** The declaration of an option: the long option string and, for a short
      name, the short one; for a boolean also the string of its negation. */
  datatype Decl = Decl(name: string, strings: seq<string>, negated: Option<string>, dest: string,
                       default: CL.Default, valueType: CL.ValueType, isBool: bool, cast: Json -> Json)

  /** The declaration `addOption` makes: the long option string and, for a
      truthy short name, the short one; a boolean also gets the string of its
      negation. */
  function Declare(name: string, shortname: Option<string>, default: CL.Default, valueType: CL.ValueType,
                   isBool: bool, cast: Json -> Json): (d: Decl)
    ensures d.name == name && d.dest == CL.Dest(name) && d.isBool == isBool
    ensures d.strings == ["--" + name] + (if Given(shortname) then ["-" + shortname.value] else [])
    ensures d.negated.Some? <==> isBool
    ensures isBool ==> d.negated == Some("--" + NegatedName(name))
  {
    var strings := ["--" + name] + (if Given(shortname) then ["-" + shortname.value] else []);
    var negated := if isBool then Some("--" + NegatedName(name)) else None;
    Decl(name, strings, negated, CL.Dest(name), default, valueType, isBool, cast)
  }

  /** The class-level state of a loader: the option class it creates, the
      registered options, the parsed arguments and the decoded JSON file. */
  class Loader {
    const kind: Kind
    const shlexSplit: string -> seq<string>
    var options: map<string, ConfigOption>
    var parsed: map<string, Json>
    var json: map<string, Json>

    constructor(kind: Kind, shlexSplit: string -> seq<string>)
      ensures this.kind == kind && this.shlexSplit == shlexSplit
      ensures options == map[] && parsed == map[] && json == map[]
    {
      this.kind := kind;
      this.shlexSplit := shlexSplit;
      options := map[];
      parsed := map[];
      json := map[];
    }

    /** `addOption`: the option is created with this loader's option class;
        registering a name twice fails the assertion and registers nothing. */
    method AddOption(name: string, shortname: Option<string>, default: CL.Default, valueType: CL.ValueType,
                     isBool: bool, cast: Json -> Json) returns (r: Result<ConfigOption>)
      modifies this`options
      ensures old(name in options) <==> r.Err?
      ensures r.Err? ==> options == old(options)
      ensures r.Ok? ==> fresh(r.value) && options == old(options)[name := r.value]
      ensures r.Ok? ==> r.value.loader == this && r.value.cached == JNull
      ensures r.Ok? ==> r.value.decl == Declare(name, shortname, default, valueType, isBool, cast)
    {
      if name in options {
        return Err("assertion: the option " + name + " is already registered");
      }
      var o := new ConfigOption(Declare(name, shortname, default, valueType, isBool, cast), this);
      options := options[name := o];
      r := Ok(o);
    }

    /** `reset`: every registered option forgets its cached value. */
    method Reset()
      modifies options.Values
      ensures forall o :: o in options.Values ==> o.cached == JNull
    {
      var todo := options.Keys;
      while todo != {}
        invariant todo <= options.Keys
        invariant forall k :: k in options && k !in todo ==> options[k].cached == JNull
        decreases |todo|
      {
        var k :| k in todo;
        options[k].cached := JNull;
        todo := todo - {k};
      }
    }
  }

  /** The value an option of the loader's kind produces, converted to its
      type; `None` stays `None`. */
  function LoadOption(kind: Kind, decl: Decl, parsed: map<string, Json>, json: map<string, Json>,
                      shlexSplit: string -> seq<string>): (r: Result<Json>)
    ensures r.Ok? && LoadImpl(kind, decl.name, parsed, json, decl.strings, decl.dest, decl.default) == Ok(JNull) ==> r == Ok(JNull)
  {
    match LoadImpl(kind, decl.name, parsed, json, decl.strings, decl.dest, decl.default)
    case Err(m) => Err(m)
    case Ok(v) => Ok(CL.ConvertType(decl.valueType, v, decl.cast, shlexSplit))
  }

  /** A `ConfigOptionBase` descriptor and its cached value. */
  class ConfigOption {
    const decl: Decl
    const loader: Loader
    var cached: Json

    constructor(decl: Decl, loader: Loader)
      ensures this.decl == decl && this.loader == loader && cached == JNull
    {
      this.decl := decl;
      this.loader := loader;
      cached := JNull;
    }

    /** `__get__`: loads on first access and caches the result; a `None`
        result is loaded again on the next access. */
    method Get() returns (r: Result<Json>)
      modifies this
      ensures old(cached) != JNull ==> r == Ok(old(cached)) && cached == old(cached)
      ensures old(cached) == JNull ==> r == LoadOption(loader.kind, decl, loader.parsed, loader.json, loader.shlexSplit)
      ensures old(cached) == JNull && r.Ok? ==> cached == r.value
      ensures r.Err? ==> cached == old(cached)
    {
      if cached != JNull {
        return Ok(cached);
      }
      r := LoadOption(loader.kind, decl, loader.parsed, loader.json, loader.shlexSplit);
      if r.Ok? {
        cached := r.value;
      }
    }
  }
}
