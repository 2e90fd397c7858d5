/** The option loader of `pycheribuild/configloader.py`: every option is
    registered once by name, and its value comes from the command line, else
    from the JSON configuration file, else from its default, and is cached on
    the option. */
module ConfigLoader {

  import opened Wrappers
  import opened Strs
  import opened Json

  /** The default of an option: a plain value together with its `str()`, a
      lambda, or a `ComputedDefaultValue` with its `asString`.  A callable is
      given by what it returns when called with the configuration and the
      owner class, which is code outside this model. */
  datatype Default =
    | Plain(value: Json, text: string)
    | Lambda(result: Json)
    | Computed(result: Json, asString: string)

  /** `_getDefaultValue`: a callable default is called, a plain one returned. */
  function DefaultValue(d: Default): Json {
    match d
    case Plain(v, _) => v
    case Lambda(r) => r
    case Computed(r, _) => r
  }

  /** The kind of `valueType`: `str`, a sequence type (list, tuple), or any
      other type (`int`, `bool`, `Path`, ...). */
  datatype ValueType = StrType | SequenceType | OtherType

  /** What argparse shows for a hidden option. */
  const Suppress: string := "==SUPPRESS=="

  /** The help text `addOption` registers: a hidden option is suppressed
      unless all help is shown, whether or not it was given a help text, and
      a visible help text gets " (default: '...')" for a truthy default that
      is not a lambda. */
  function HelpText(help: Option<string>, d: Default, helpHidden: bool, showAllHelp: bool): (r: Option<string>)
    ensures helpHidden && !showAllHelp ==> r == Some(Suppress)
    ensures !(helpHidden && !showAllHelp) ==> (r.Some? <==> help.Some?)
    ensures help.Some? && r.value != Suppress ==> StartsWith(r.value, help.value)
    ensures help.Some? && r != help && r != Some(Suppress) ==> (d.Plain? && !Falsy(d.value)) || d.Computed?
  {
    var given := if helpHidden && !showAllHelp then Some(Suppress) else help;
    if given.None? then None
    else
      var h := given.value;
      match d
      case Plain(v, text) =>
        if !Falsy(v) && h != Suppress then Some(h + " (default: '" + text + "')") else Some(h)
      case Lambda(_) => Some(h)
      case Computed(_, text) => if h != Suppress then Some(h + " (default: '" + text + "')") else Some(h)
  }

  /** A truthy plain default is shown in a visible help text, and nothing is
      appended for a lambda or a falsy plain value. */
  lemma HelpShowsDefault(h: string, d: Default, helpHidden: bool, showAllHelp: bool)
    requires h != Suppress && !(helpHidden && !showAllHelp)
    ensures d.Plain? && !Falsy(d.value) ==> HelpText(Some(h), d, helpHidden, showAllHelp) == Some(h + " (default: '" + d.text + "')")
    ensures d.Lambda? || (d.Plain? && Falsy(d.value)) ==> HelpText(Some(h), d, helpHidden, showAllHelp) == Some(h)
  {
  }

  /** The first value among the other long option strings (`--x` looked up
      as `x`), `JNull` when none has one. */
  function FromAliases(json: map<string, Json>, strings: seq<string>): (r: Result<Json>)
    ensures r == Ok(JNull) ==> forall i :: 0 <= i < |strings| && StartsWith(strings[i], "--") ==> Lookup(json, strings[i][2..]) == Ok(JNull)
    decreases |strings|
  {
    if |strings| == 0 then Ok(JNull)
    else
      var rest := FromAliases(json, strings[1..]);
      if StartsWith(strings[0], "--") then
        match Lookup(json, strings[0][2..])
        case Err(m) => Err(m)
        case Ok(v) => if v != JNull then Ok(v) else AliasesNone(json, strings, rest); rest
      else AliasesNone(json, strings, rest); rest
  }

  lemma AliasesNone(json: map<string, Json>, strings: seq<string>, rest: Result<Json>)
    requires |strings| > 0
    requires !StartsWith(strings[0], "--") || Lookup(json, strings[0][2..]) == Ok(JNull)
    requires rest == Ok(JNull) ==> forall i :: 0 <= i < |strings| - 1 && StartsWith(strings[1..][i], "--") ==> Lookup(json, strings[1..][i][2..]) == Ok(JNull)
    ensures rest == Ok(JNull) ==> forall i :: 0 <= i < |strings| && StartsWith(strings[i], "--") ==> Lookup(json, strings[i][2..]) == Ok(JNull)
  {
    if rest == Ok(JNull) {
      forall i | 0 <= i < |strings| && StartsWith(strings[i], "--")
        ensures Lookup(json, strings[i][2..]) == Ok(JNull)
      {
        if i > 0 {
          assert strings[1..][i - 1] == strings[i];
        }
      }
    }
  }

  /** The value `_loadFromJson` finds: the option's own name, then the other
      long option strings, then `action.dest` as a flat key. */
  function FromJson(json: map<string, Json>, fullName: string, strings: seq<string>, dest: string): Result<Json> {
    match Lookup(json, fullName)
    case Err(m) => Err(m)
    case Ok(v) =>
      if v != JNull then Ok(v)
      else
        match FromAliases(json, strings)
        case Err(m) => Err(m)
        case Ok(a) => if a != JNull then Ok(a) else Ok(Get(json, dest, JNull))
  }

  /** `_loadFromJson`, with its loop over the option strings that stops at the
      first one with a value. */
  method LoadFromJson(json: map<string, Json>, fullName: string, strings: seq<string>, dest: string) returns (r: Result<Json>)
    ensures r == FromJson(json, fullName, strings, dest)
  {
    r := LookupKeyInJson(json, fullName);
    if r.Err? || r.value != JNull {
      return;
    }
    var i := 0;
    while i < |strings|
      invariant 0 <= i <= |strings|
      invariant FromAliases(json, strings) == FromAliases(json, strings[i..])
    {
      assert strings[i..][1..] == strings[i + 1..];
      if StartsWith(strings[i], "--") {
        var found := LookupKeyInJson(json, strings[i][2..]);
        if found.Err? || found.value != JNull {
          return found;
        }
      }
      i := i + 1;
    }
    r := Ok(Get(json, dest, JNull));
  }

  /** A value found under the option's own name is the one used; the other
      names and `action.dest` only matter when it has none. */
  lemma OwnNameFirst(json: map<string, Json>, fullName: string, strings: seq<string>, dest: string, strings': seq<string>, dest': string)
    requires Lookup(json, fullName).Ok? && Lookup(json, fullName).value != JNull
    ensures FromJson(json, fullName, strings, dest) == FromJson(json, fullName, strings', dest') == Lookup(json, fullName)
  {
  }

  /** `action.dest` is the last resort: it is consulted exactly when no
      long option name has a value. */
  lemma DestLast(json: map<string, Json>, fullName: string, strings: seq<string>, dest: string)
    requires Lookup(json, fullName) == Ok(JNull)
    requires forall i :: 0 <= i < |strings| && StartsWith(strings[i], "--") ==> Lookup(json, strings[i][2..]) == Ok(JNull)
    ensures FromJson(json, fullName, strings, dest) == Ok(Get(json, dest, JNull))
  {
    NoAliasValue(json, strings);
  }

  lemma {:induction false} NoAliasValue(json: map<string, Json>, strings: seq<string>)
    requires forall i :: 0 <= i < |strings| && StartsWith(strings[i], "--") ==> Lookup(json, strings[i][2..]) == Ok(JNull)
    ensures FromAliases(json, strings) == Ok(JNull)
    decreases |strings|
  {
    if |strings| > 0 {
      forall i | 0 <= i < |strings| - 1 && StartsWith(strings[1..][i], "--")
        ensures Lookup(json, strings[1..][i][2..]) == Ok(JNull)
      {
        assert strings[1..][i] == strings[i + 1];
      }
      NoAliasValue(json, strings[1..]);
    }
  }

  /** Whether the command-line value decides the option: set (not `None`) and
      different from the argparse default. */
  predicate CommandLineWins(fromCmdLine: Json, actionDefault: Json) {
    fromCmdLine != JNull && fromCmdLine != actionDefault
  }

  /** `_loadOptionImpl`: the command line, else the JSON file, else the default. */
  function LoadImpl(fromCmdLine: Json, actionDefault: Json, json: map<string, Json>, fullName: string,
                    strings: seq<string>, dest: string, d: Default): (r: Result<Json>)
    ensures CommandLineWins(fromCmdLine, actionDefault) ==> r == Ok(fromCmdLine)
    ensures !CommandLineWins(fromCmdLine, actionDefault) && FromJson(json, fullName, strings, dest) == Ok(JNull) ==>
      r == Ok(DefaultValue(d))
    ensures !CommandLineWins(fromCmdLine, actionDefault) && FromJson(json, fullName, strings, dest) != Ok(JNull) ==>
      r == FromJson(json, fullName, strings, dest)
  {
    if CommandLineWins(fromCmdLine, actionDefault) then Ok(fromCmdLine)
    else
      match FromJson(json, fullName, strings, dest)
      case Err(m) => Err(m)
      case Ok(v) => if v != JNull then Ok(v) else Ok(DefaultValue(d))
  }

  /** A value given on the command line makes the JSON file and the default
      irrelevant, whatever they hold. */
  lemma CommandLineOverrides(fromCmdLine: Json, actionDefault: Json, fullName: string, strings: seq<string>,
                             dest: string, json: map<string, Json>, d: Default, json': map<string, Json>, d': Default)
    requires CommandLineWins(fromCmdLine, actionDefault)
    ensures LoadImpl(fromCmdLine, actionDefault, json, fullName, strings, dest, d) ==
            LoadImpl(fromCmdLine, actionDefault, json', fullName, strings, dest, d')
  {
  }

  /** A value in the JSON file makes the default irrelevant. */
  lemma JsonOverridesDefault(fromCmdLine: Json, actionDefault: Json, fullName: string, strings: seq<string>,
                             dest: string, json: map<string, Json>, d: Default, d': Default)
    requires FromJson(json, fullName, strings, dest).Ok? && FromJson(json, fullName, strings, dest).value != JNull
    ensures LoadImpl(fromCmdLine, actionDefault, json, fullName, strings, dest, d) ==
            LoadImpl(fromCmdLine, actionDefault, json, fullName, strings, dest, d')
  {
  }

  /** `_loadOption`'s conversion: `None` is never converted; a string given
      for a sequence type is first split into words with `shlex.split`; then
      `valueType(result)` (or the `Path` expansion) is applied. */
  function ConvertType(t: ValueType, v: Json, cast: Json -> Json, shlexSplit: string -> seq<string>): (r: Json)
    ensures v == JNull ==> r == JNull
    ensures v != JNull && !(t == SequenceType && v.JStr?) ==> r == cast(v)
  {
    if v == JNull then JNull
    else if t == SequenceType && v.JStr? then cast(JList(Words(shlexSplit(v.s))))
    else cast(v)
  }

  function Words(ws: seq<string>): (r: seq<Json>)
    ensures |r| == |ws| && forall i :: 0 <= i < |ws| ==> r[i] == JStr(ws[i])
  {
    seq(|ws|, i requires 0 <= i < |ws| => JStr(ws[i]))
  }

  /** The declaration of an option: its option strings (the first is
      "--" + name), its argparse `dest` and default, its own default, and its
      type with the call that converts to it. */
  datatype Decl = Decl(strings: seq<string>, dest: string, actionDefault: Json, default: Default,
                       valueType: ValueType, cast: Json -> Json)

  /** The value `_loadOption` produces from the parsed command line and the
      JSON file, before it is cached; the assertions on the option strings and
      on the parsed arguments are errors. */
  function LoadOption(decl: Decl, parsed: map<string, Json>, json: map<string, Json>,
                      shlexSplit: string -> seq<string>): (r: Result<Json>)
    ensures r.Ok? ==> |decl.strings| > 0 && StartsWith(decl.strings[0], "--") && decl.dest in parsed
  {
    if |decl.strings| == 0 || !StartsWith(decl.strings[0], "--") then Err("option strings must start with --")
    else if decl.dest !in parsed then Err("the option is not among the parsed arguments")
    else
      var fullName := decl.strings[0][2..];
      match LoadImpl(parsed[decl.dest], decl.actionDefault, json, fullName, decl.strings, decl.dest, decl.default)
      case Err(m) => Err(m)
      case Ok(v) => Ok(ConvertType(decl.valueType, v, decl.cast, shlexSplit))
  }

  /** The command-line name of an option's value, as argparse derives it from
      the first long option string. */
  function Dest(name: string): string {
    ReplaceChar(name, '-', '_')
  }

  /** The class-level state of `ConfigLoader`: the parsed arguments, the
      decoded JSON file, the registered options and the loaded values. */
  class Loader {
    var parsed: map<string, Json>
    var json: map<string, Json>
    var targets: seq<string>
    var options: map<string, ConfigOption>
    var values: map<string, Json>
    const showAllHelp: bool
    const shlexSplit: string -> seq<string>

    constructor(showAllHelp: bool, shlexSplit: string -> seq<string>)
      ensures this.showAllHelp == showAllHelp && this.shlexSplit == shlexSplit
      ensures parsed == map[] && json == map[] && targets == [] && options == map[] && values == map[]
    {
      this.showAllHelp := showAllHelp;
      this.shlexSplit := shlexSplit;
      parsed := map[];
      json := map[];
      targets := [];
      options := map[];
      values := map[];
    }

    /** `loadTargets`: the parsed arguments, the targets followed by the
        unrecognised trailing arguments, and the decoded configuration file
        (the decoding of `JsonLines` of the file is the `json` module's). */
    method Load(args: map<string, Json>, parsedTargets: seq<string>, trailing: seq<string>, decoded: map<string, Json>)
      modifies this
      ensures parsed == args && targets == parsedTargets + trailing && json == decoded
      ensures options == old(options) && values == old(values)
    {
      parsed := args;
      targets := parsedTargets + trailing;
      json := decoded;
    }

    /** `addOption`: a name registered twice is an assertion failure that
        leaves the registered options as they were.  A short name is declared
        only when it is truthy, and a `store_true` action (`addBoolOption`)
        has the argparse default `False`, any other action `None`. */
    method AddOption(name: string, shortname: Option<string>, help: Option<string>, default: Default,
                     helpHidden: bool, storeTrue: bool, valueType: ValueType, cast: Json -> Json) returns (r: Result<ConfigOption>)
      modifies this
      ensures old(name in options) <==> r.Err?
      ensures r.Err? ==> options == old(options)
      ensures r.Ok? ==> fresh(r.value) && options == old(options)[name := r.value]
      ensures r.Ok? ==> r.value.loader == this && r.value.cached == JNull
      ensures r.Ok? ==> r.value.help == HelpText(help, default, helpHidden, showAllHelp)
      ensures r.Ok? ==> r.value.decl.strings == ["--" + name] + (if Given(shortname) then ["-" + shortname.value] else [])
      ensures r.Ok? ==> r.value.decl.actionDefault == (if storeTrue then JBool(false) else JNull)
      ensures r.Ok? ==> r.value.decl.dest == Dest(name) && r.value.decl.default == default
      ensures parsed == old(parsed) && json == old(json) && values == old(values) && targets == old(targets)
    {
      var h := HelpText(help, default, helpHidden, showAllHelp);
      var strings := ["--" + name] + (if Given(shortname) then ["-" + shortname.value] else []);
      var actionDefault := if storeTrue then JBool(false) else JNull;
      var decl := Decl(strings, Dest(name), actionDefault, default, valueType, cast);
      if name in options {
        return Err("assertion: the option " + name + " is already registered");
      }
      var o := new ConfigOption(decl, h, this);
      options := options[name := o];
      r := Ok(o);
    }
  }

  /** A `ConfigOption` descriptor and its cached value. */
  class ConfigOption {
    const decl: Decl
    const help: Option<string>
    const loader: Loader
    var cached: Json

    constructor(decl: Decl, help: Option<string>, loader: Loader)
      ensures this.decl == decl && this.help == help && this.loader == loader && cached == JNull
    {
      this.decl := decl;
      this.help := help;
      this.loader := loader;
      cached := JNull;
    }

    /** `__get__`: a cached value other than `None` is returned as is;
        otherwise the option is loaded, recorded in `values` under its full
        name and cached. */
    method Get() returns (r: Result<Json>)
      modifies this, loader
      ensures old(cached) != JNull ==> r == Ok(old(cached)) && cached == old(cached) && loader.values == old(loader.values)
      ensures old(cached) == JNull ==> r == LoadOption(decl, loader.parsed, loader.json, loader.shlexSplit)
      ensures old(cached) == JNull && r.Ok? ==>
        cached == r.value && loader.values == old(loader.values)[decl.strings[0][2..] := r.value]
      ensures r.Err? ==> cached == old(cached) && loader.values == old(loader.values)
      ensures loader.parsed == old(loader.parsed) && loader.json == old(loader.json)
      ensures loader.options == old(loader.options) && loader.targets == old(loader.targets)
    {
      if cached != JNull {
        return Ok(cached);
      }
      r := LoadOption(decl, loader.parsed, loader.json, loader.shlexSplit);
      if r.Ok? {
        loader.values := loader.values[decl.strings[0][2..] := r.value];
        cached := r.value;
      }
    }
  }
}
