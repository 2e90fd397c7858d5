/** The configuration and project helpers of `combined.py`: options whose
    value comes from the command line, else the flat JSON file, else their
    default; the default job count and SSH port; the yes/no prompt; and the
    naming and attribute guard of a `Project`. */
module CombinedConfig {

  import opened Wrappers
  import opened Strs
  import opened Paths
  import opened Json

  /** The default of an option: a plain value with its `str()`, or a lambda
      given by what it returns for the configuration. */
  datatype Default = Plain(value: Json, text: string) | Lambda(result: Json)

  function DefaultValue(d: Default): Json {
    match d
    case Plain(v, _) => v
    case Lambda(r) => r
  }

  /** `addOption`'s help: " (default: '...')" is appended for a truthy
      default that is not a lambda, when there is a help text. */
  function HelpText(help: Option<string>, d: Default): (r: Option<string>)
    ensures r.Some? <==> help.Some?
    ensures help.Some? ==> StartsWith(r.value, help.value)
    ensures help.Some? && r != help <==> help.Some? && d.Plain? && !Falsy(d.value)
  {
    if help.Some? && d.Plain? && !Falsy(d.value) then Some(help.value + " (default: '" + d.text + "')")
    else help
  }

  /** The value before conversion: the default replaces a falsy command-line
      value, and a truthy JSON value (under the option name, else under
      `action.dest`) replaces the default. */
  function Chosen(fromCmdLine: Json, d: Default, json: map<string, Json>, jsonKey: string, dest: string): Json {
    var isDefault := Falsy(fromCmdLine);
    var fromJson := if Falsy(Get(json, jsonKey, JNull)) then Get(json, dest, JNull) else Get(json, jsonKey, JNull);
    if isDefault && !Falsy(fromJson) then fromJson
    else if isDefault then DefaultValue(d)
    else fromCmdLine
  }

  /** `_loadOption` without its assertions: the chosen value, converted with
      `valueType` only when it is truthy. */
  function LoadValue(fromCmdLine: Json, d: Default, json: map<string, Json>, jsonKey: string, dest: string,
                     cast: Json -> Json): (r: Json)
    ensures !Falsy(fromCmdLine) ==> r == cast(fromCmdLine)
    ensures Falsy(fromCmdLine) && !Falsy(Get(json, jsonKey, JNull)) ==> r == cast(json[jsonKey])
    ensures Falsy(fromCmdLine) && Falsy(Get(json, jsonKey, JNull)) && !Falsy(Get(json, dest, JNull)) ==>
      r == cast(json[dest])
    ensures Falsy(fromCmdLine) && Falsy(Get(json, jsonKey, JNull)) && Falsy(Get(json, dest, JNull)) ==>
      r == if Falsy(DefaultValue(d)) then DefaultValue(d) else cast(DefaultValue(d))
  {
    var v := Chosen(fromCmdLine, d, json, jsonKey, dest);
    if Falsy(v) then v else cast(v)
  }

  /** A truthy command-line value is used whatever the JSON file holds. */
  lemma CommandLineOverridesJson(fromCmdLine: Json, d: Default, json: map<string, Json>, json': map<string, Json>,
                                 jsonKey: string, dest: string, cast: Json -> Json)
    requires !Falsy(fromCmdLine)
    ensures LoadValue(fromCmdLine, d, json, jsonKey, dest, cast) == LoadValue(fromCmdLine, d, json', jsonKey, dest, cast)
  {
  }

  /** A falsy result is returned without conversion, so `None` never becomes "None". */
  lemma FalsyNotConverted(fromCmdLine: Json, d: Default, json: map<string, Json>, jsonKey: string, dest: string,
                          cast: Json -> Json)
    requires Falsy(Chosen(fromCmdLine, d, json, jsonKey, dest))
    ensures LoadValue(fromCmdLine, d, json, jsonKey, dest, cast) == Chosen(fromCmdLine, d, json, jsonKey, dest)
  {
  }

  /** A registered option: its option strings, argparse `dest`, default and
      type conversion. */
  datatype Decl = Decl(strings: seq<string>, dest: string, default: Default, cast: Json -> Json)

  /** `_loadOption`, whose assertions become errors: the first option string
      starts with "--" and names the JSON key, and the command line has been parsed. */
  function LoadOption(decl: Decl, parsed: map<string, Json>, json: map<string, Json>): (r: Result<(string, Json)>)
    ensures r.Ok? <==> |decl.strings| > 0 && StartsWith(decl.strings[0], "--") && decl.dest in parsed
    ensures r.Ok? ==> r.value.0 == decl.strings[0][2..]
  {
    if |decl.strings| == 0 || !StartsWith(decl.strings[0], "--") then Err("the first option string must start with --")
    else if decl.dest !in parsed then Err("load() must be called before the option is used")
    else
      var jsonKey := decl.strings[0][2..];
      Ok((jsonKey, LoadValue(parsed[decl.dest], decl.default, json, jsonKey, decl.dest, decl.cast)))
  }

  /** The class-level state of `ConfigLoader`. */
  class Loader {
    var options: seq<ConfigOption>
    var parsed: map<string, Json>
    var json: map<string, Json>
    var values: map<string, Json>

    constructor()
      ensures options == [] && parsed == map[] && json == map[] && values == map[]
    {
      options := [];
      parsed := map[];
      json := map[];
      values := map[];
    }

    /** `addOption`: the option is appended to the list of options; a short
        name is declared only when it is truthy. */
    method AddOption(name: string, shortname: Option<string>, help: Option<string>, d: Default,
                     cast: Json -> Json) returns (o: ConfigOption)
      modifies this
      ensures fresh(o) && options == old(options) + [o]
      ensures o.loader == this && o.cached == JNull && o.help == HelpText(help, d)
      ensures o.decl.strings == ["--" + name] + (if Given(shortname) then ["-" + shortname.value] else [])
      ensures parsed == old(parsed) && json == old(json) && values == old(values)
    {
      var strings := ["--" + name] + (if Given(shortname) then ["-" + shortname.value] else []);
      o := new ConfigOption(Decl(strings, ReplaceChar(name, '-', '_'), d, cast), HelpText(help, d), this);
      options := options + [o];
    }
  }

  /** A `ConfigOption` descriptor and its cached value. */
  class ConfigOption {
    const decl: Decl
    const help: Option<string>
    const loader: Loader
    var cached: Json

    constructor(decl: Decl, help: Option<string>, loader: Loader)
      ensures this.decl == decl && this.help == help && this.loader == loader && cached == JNull
    {
      this.decl := decl;
      this.help := help;
      this.loader := loader;
      cached := JNull;
    }

    /** `__get__`: a truthy cached value is returned; a falsy one (including
        `False`, 0 and "") is loaded again, recorded in `values` and cached. */
    method Get() returns (r: Result<Json>)
      modifies this, loader
      ensures !Falsy(old(cached)) ==> r == Ok(old(cached)) && cached == old(cached) && loader.values == old(loader.values)
      ensures Falsy(old(cached)) ==> r.Ok? == LoadOption(decl, loader.parsed, loader.json).Ok?
      ensures Falsy(old(cached)) && r.Ok? ==>
        var (key, v) := LoadOption(decl, loader.parsed, loader.json).value;
        r.value == v && cached == v && loader.values == old(loader.values)[key := v]
      ensures r.Err? ==> cached == old(cached) && loader.values == old(loader.values)
      ensures loader.parsed == old(loader.parsed) && loader.json == old(loader.json) && loader.options == old(loader.options)
    {
      if !Falsy(cached) {
        return Ok(cached);
      }
      var loaded := LoadOption(decl, loader.parsed, loader.json);
      if loaded.Err? {
        return Err(loaded.msg);
      }
      loader.values := loader.values[loaded.value.0 := loaded.value.1];
      cached := loaded.value.1;
      r := Ok(cached);
    }
  }

  /** `defaultNumberOfMakeJobs` for `cpus` CPUs: all of them, except that a
      machine with more than 24 gets 16. */
  function DefaultMakeJobs(cpus: nat): (r: nat)
    ensures cpus <= 24 ==> r == cpus
    ensures cpus > 24 ==> r == 16
  {
    if cpus > 24 then 16 else cpus
  }

  /** The job count never exceeds the CPU count nor 24, and a machine with
      CPUs gets at least one job. */
  lemma MakeJobsBounded(cpus: nat)
    ensures DefaultMakeJobs(cpus) <= cpus && DefaultMakeJobs(cpus) <= 24
    ensures cpus > 0 ==> DefaultMakeJobs(cpus) > 0
  {
  }

  /** `defaultSshForwardingPort`: one port per user id, counted from 9999 for
      uid 1000 and wrapping every 10000 ids; Python's `%` by a positive
      number is never negative, as is Dafny's. */
  function DefaultSshForwardingPort(uid: int): (r: int)
    ensures 9999 <= r <= 19998
  {
    9999 + (uid - 1000) % 10000
  }

  /** Users whose ids differ by less than 10000 get different ports, and ids
      10000 apart share one. */
  lemma SshPortPerUser(uid: int, uid': int)
    ensures DefaultSshForwardingPort(uid + 10000) == DefaultSshForwardingPort(uid)
    ensures uid != uid' && 1000 <= uid < 11000 && 1000 <= uid' < 11000 ==>
      DefaultSshForwardingPort(uid) != DefaultSshForwardingPort(uid')
  {
    assert (uid + 10000 - 1000) % 10000 == (uid - 1000) % 10000;
  }

  /** What `queryYesNo` can observe: the pretend and force settings, whether
      standard input is a terminal, and the line the user would type. */
  datatype Console = Console(pretend: bool, force: bool, isatty: bool, answer: string)

  /** `queryYesNo`: true in pretend mode, the forced result in force mode,
      the default without a terminal; otherwise, with a yes default, any
      answer not starting with "n", and with a no default, an answer starting
      with "y" or "Y". */
  function QueryYesNo(c: Console, defaultResult: bool, forceResult: bool): (r: bool)
    ensures c.pretend ==> r
    ensures !c.pretend && c.force ==> r == forceResult
    ensures !c.pretend && !c.force && !c.isatty ==> r == defaultResult
  {
    if c.pretend then true
    else if c.force then forceResult
    else if !c.isatty then defaultResult
    else if defaultResult then !StartsWith(c.answer, "n")
    else StartsWith(Lower(c.answer), "y")
  }

  /** At an interactive prompt an answer starting with "y" is a yes and one
      starting with "n" is a no, whatever the default; an empty answer takes
      the default. */
  lemma InteractiveAnswers(c: Console, defaultResult: bool, forceResult: bool)
    requires !c.pretend && !c.force && c.isatty
    ensures StartsWith(c.answer, "y") ==> QueryYesNo(c, defaultResult, forceResult)
    ensures StartsWith(c.answer, "n") ==> !QueryYesNo(c, defaultResult, forceResult)
    ensures c.answer == "" ==> QueryYesNo(c, defaultResult, forceResult) == defaultResult
  {
    if StartsWith(c.answer, "y") {
      assert Lower(c.answer)[0] == 'y';
    }
    if StartsWith(c.answer, "n") {
      assert Lower(c.answer)[0] == 'n';
    }
  }

  /** The project name `Project.__init__` derives: a class called
      "Build<X>" gives X with "_" replaced by "-"; otherwise an explicit,
      non-empty `projectName` is needed, and without one `fatalError` is
      raised and the name is never set. */
  function ProjectName(className: string, projectName: Option<string>): (r: Result<string>)
    ensures StartsWith(className, "Build") ==> r == Ok(ReplaceChar(className[5..], '_', '-'))
    ensures !StartsWith(className, "Build") ==>
      (r.Ok? <==> projectName.Some? && projectName.value != "") && (r.Ok? ==> r.value == projectName.value)
  {
    if StartsWith(className, "Build") then Ok(ReplaceChar(className[5..], '_', '-'))
    else if projectName.None? || projectName.value == "" then Err("Project name is not set and cannot infer from class")
    else Ok(projectName.value)
  }

  /** A name derived from the class name holds no "_". */
  lemma DerivedNameHasNoUnderscore(className: string)
    requires StartsWith(className, "Build")
    ensures ProjectName(className, None).Ok? && '_' !in ProjectName(className, None).value
  {
    var r := ReplaceChar(className[5..], '_', '-');
    assert forall i :: 0 <= i < |r| ==> r[i] != '_';
  }

  /** The default build directory name of a project: the lower-case name
      followed by "-build", or by "-<bits>-build" when the bits are appended
      (the directory itself is this name under the output root). */
  function BuildDirName(name: string, bitsStr: string, appendCheriBits: bool): (r: string)
    ensures StartsWith(r, Lower(name)) && EndsWith(r, "-build")
    ensures appendCheriBits ==> StartsWith(r, Lower(name) + "-" + bitsStr)
  {
    var lower := Lower(name);
    if appendCheriBits then
      var r := (lower + "-" + bitsStr) + "-build";
      assert r[..|lower + "-" + bitsStr|] == lower + "-" + bitsStr;
      assert r[..|lower|] == lower;
      r
    else
      var r := lower + "-build";
      assert r[..|lower|] == lower;
      r
  }

  /** The attributes that only may be modified in place once
      `_preventAssign` is set. */
  predicate Guarded(name: string) {
    name == "configureArgs" || name == "configureEnvironment" || name == "commonMakeArgs"
  }

  /** What an attribute assignment does: it happens, it happens after a
      "Potential fatal error" message in pretend mode, or the program exits
      with status 3 before it. */
  datatype Assignment = Assigned | AssignedAfterWarning | Exited(code: int)

  /** A project's attribute dictionary, as `__setattr__` sees it. */
  class Project {
    var attrs: map<string, Json>

    /** The attributes `__init__` leaves that `__setattr__` looks at: the
        three guarded containers start empty and `_preventAssign` is set
        last, so from then on they can only be modified in place.  The
        project name and directories are `ProjectName` and `BuildDirName`. */
    constructor()
      ensures AssignPrevented()
      ensures attrs.Keys == {"commonMakeArgs", "configureArgs", "configureEnvironment", "_preventAssign"}
      ensures attrs["commonMakeArgs"] == JList([]) && attrs["configureArgs"] == JList([])
      ensures attrs["configureEnvironment"] == JObj(map[])
    {
      attrs := map[];
      new;
      // each assignment of `__init__` goes through `__setattr__`
      var _ := SetAttr("commonMakeArgs", JList([]), false);
      var _ := SetAttr("configureArgs", JList([]), false);
      var _ := SetAttr("configureEnvironment", JObj(map[]), false);
      var _ := SetAttr("_preventAssign", JBool(true), false);
    }

    predicate AssignPrevented()
      reads this
    {
      "_preventAssign" in attrs && !Falsy(attrs["_preventAssign"])
    }

    /** `__setattr__`: once `_preventAssign` is set, assigning one of the
        guarded attributes is a fatal error; every other assignment is stored. */
    method SetAttr(name: string, value: Json, pretend: bool) returns (outcome: Assignment)
      modifies this
      ensures outcome == (if old(AssignPrevented()) && Guarded(name) then (if pretend then AssignedAfterWarning else Exited(3))
                          else Assigned)
      ensures outcome.Exited? ==> attrs == old(attrs)
      ensures !outcome.Exited? ==> attrs == old(attrs)[name := value]
    {
      if AssignPrevented() && Guarded(name) {
        if !pretend {
          return Exited(3);
        }
        outcome := AssignedAfterWarning;
      } else {
        outcome := Assigned;
      }
      attrs := attrs[name := value];
    }
  }
}
