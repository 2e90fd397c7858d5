/** The cross-compilation layer of
    `pycheribuild/projects/cross/crosscompileproject.py`: which SDK a
    project depends on, the triple with the FreeBSD version, the pointer
    size, the linkage, the CMake toolchain template and the configure
    environment of autotools projects. */
module CrossCompile {

  import opened Wrappers
  import opened Strs
  import CC = CheriConfigs

  // ---------------------------------------------------------------------
  // Dependencies and triples
  // ---------------------------------------------------------------------

  /** `needs_cheribsd_sysroot`: native and bare-metal builds do without the
      CheriBSD sysroot. */
  predicate NeedsCheribsdSysroot(target: CC.CrossTarget, baremetal: bool) {
    target != CC.Native && !baremetal
  }

  /** `crosscompile_dependencies`. */
  function CrosscompileDependencies(target: CC.CrossTarget, useSdkClangForNative: bool, baremetal: bool)
    : (r: seq<string>)
    ensures |r| <= 1
  {
    if target == CC.Native then (if useSdkClangForNative then ["freestanding-sdk"] else [])
    else if NeedsCheribsdSysroot(target, baremetal) then ["cheribsd-sdk"]
    else ["freestanding-sdk"]
  }

  /** A cross build depends on exactly one SDK, the CheriBSD one exactly
      when it needs the sysroot; a native build needs the CheriBSD SDK
      never, and the freestanding one only to use the SDK's compiler. */
  lemma DependenciesChooseSdk(target: CC.CrossTarget, useSdkClang: bool, baremetal: bool)
    ensures var r := CrosscompileDependencies(target, useSdkClang, baremetal);
      (target != CC.Native ==> |r| == 1) &&
      ("cheribsd-sdk" in r <==> NeedsCheribsdSysroot(target, baremetal)) &&
      ("freestanding-sdk" in r <==>
        (if target == CC.Native then useSdkClang else !NeedsCheribsdSysroot(target, baremetal)))
  {
  }

  /** `targetTripleWithVersion`: the triple, with the FreeBSD major version
      "12" appended for builds that target FreeBSD. */
  function TripleWithVersion(triple: string, forHost: bool, baremetal: bool): (r: string)
    ensures StartsWith(r, triple)
  {
    if forHost || baremetal then triple else triple + "12"
  }

  /** Only builds that run on CheriBSD get the version, and it is the only
      thing added. */
  lemma TripleVersionAdded(triple: string, forHost: bool, baremetal: bool)
    ensures var r := TripleWithVersion(triple, forHost, baremetal);
      (r == triple <==> forHost || baremetal) &&
      (!forHost && !baremetal ==> r[|triple|..] == "12")
  {
  }

  /** `sizeof_void_ptr`: 8 bytes for MIPS and the host, the capability size
      for CHERI, which must be 128 or 256 bits. */
  function SizeofVoidPtr(target: CC.CrossTarget, cheriBits: nat): (r: Result<nat>)
    ensures r.Err? <==> target == CC.Cheri && cheriBits != 128 && cheriBits != 256
    ensures r.Ok? ==> r.value * 8 == (if target == CC.Cheri then cheriBits else 64)
  {
    match target
    case Mips => Ok(8)
    case Native => Ok(8)
    case Cheri =>
      if cheriBits == 128 then Ok(16)
      else if cheriBits == 256 then Ok(32)
      else Err("cheriBits must be 256")
  }

  // ---------------------------------------------------------------------
  // Linkage
  // ---------------------------------------------------------------------

  /** `Linkage` of the target description. */
  datatype Linkage = DefaultLinkage | Static | Dynamic

  /** `linkage()`: an explicit choice wins; the default stays the default on
      the host and becomes the configuration's cross linkage otherwise. */
  function ChosenLinkage(option: Linkage, forHost: bool, crossLinkage: Linkage): Linkage {
    if option != DefaultLinkage then option
    else if forHost then DefaultLinkage
    else crossLinkage
  }

  predicate ForceStatic(option: Linkage, forHost: bool, crossLinkage: Linkage) {
    ChosenLinkage(option, forHost, crossLinkage) == Static
  }

  predicate ForceDynamic(option: Linkage, forHost: bool, crossLinkage: Linkage) {
    ChosenLinkage(option, forHost, crossLinkage) == Dynamic
  }

  /** A project is never forced both ways; on the host only an explicit
      option forces anything; a cross build follows the configuration
      unless the project chose. */
  lemma LinkageForcing(option: Linkage, forHost: bool, crossLinkage: Linkage)
    ensures !(ForceStatic(option, forHost, crossLinkage) && ForceDynamic(option, forHost, crossLinkage))
    ensures forHost ==>
      (ForceStatic(option, forHost, crossLinkage) <==> option == Static) &&
      (ForceDynamic(option, forHost, crossLinkage) <==> option == Dynamic)
    ensures !forHost && option == DefaultLinkage ==>
      ChosenLinkage(option, forHost, crossLinkage) == crossLinkage
    ensures option != DefaultLinkage ==> ChosenLinkage(option, forHost, crossLinkage) == option
  {
  }

  // ---------------------------------------------------------------------
  // The CMake toolchain template
  // ---------------------------------------------------------------------

  /** A keyword argument of `_prepareToolchainFile`. */
  datatype TemplateValue = NoValue | BoolValue(b: bool) | ListValue(items: seq<string>) | StrValue(s: string)

  /** The text a value is substituted as. */
  function Render(v: TemplateValue): (r: string)
    requires !v.NoValue?
    ensures v.BoolValue? ==> (r == "1" <==> v.b) && (r == "0" <==> !v.b)
    ensures v.StrValue? ==> r == v.s
    ensures v.ListValue? ==> (|v.items| == 0 ==> r == "") && (|v.items| == 1 ==> r == v.items[0])
  {
    match v
    case BoolValue(b) => if b then "1" else "0"
    case ListValue(items) => Join(" ", items)
    case StrValue(s) => s
  }

  /** The placeholder of `key`. */
  function Marker(key: string): (r: string)
    ensures |r| == |key| + 2 && r[0] == '@'
  {
    "@" + key + "@"
  }

  /** The template after the substitutions of `kwargs`, in order: values
      that are None are skipped, and the placeholder of every other key
      must still be in the text when its turn comes. */
  function Substituted(template: string, kwargs: seq<(string, TemplateValue)>): Result<string>
    decreases |kwargs|
  {
    if |kwargs| == 0 then Ok(template)
    else
      var (key, v) := kwargs[0];
      if v.NoValue? then Substituted(template, kwargs[1..])
      else if !Contains(template, Marker(key)) then Err(key)
      else Substituted(Replace(template, Marker(key), Render(v)), kwargs[1..])
  }

  /** The contents of the toolchain file, which must have no "@" left. */
  function ToolchainFile(template: string, kwargs: seq<(string, TemplateValue)>): (r: Result<string>)
    ensures r.Ok? ==> '@' !in r.value
  {
    match Substituted(template, kwargs)
    case Err(key) => Err(key)
    case Ok(t) => if '@' in t then Err(t) else Ok(t)
  }

  /** `_prepareToolchainFile`: substitutes each value into the template
      and returns the text written to the toolchain file. */
  method PrepareToolchainFile(template: string, kwargs: seq<(string, TemplateValue)>) returns (r: Result<string>)
    ensures r == ToolchainFile(template, kwargs)
  {
    var configured := template;
    var i := 0;
    while i < |kwargs|
      invariant i <= |kwargs|
      invariant Substituted(template, kwargs) == Substituted(configured, kwargs[i..])
    {
      assert kwargs[i..][1..] == kwargs[i + 1..];
      var (key, v) := kwargs[i];
      if !v.NoValue? {
        if !Contains(configured, Marker(key)) {
          return Err(key);
        }
        configured := Replace(configured, Marker(key), Render(v));
      }
      i := i + 1;
    }
    assert kwargs[i..] == [];
    if '@' in configured {
      return Err(configured);
    }
    return Ok(configured);
  }

  /** A None value changes nothing, wherever it stands. */
  lemma {:induction false} NoneSkipped(template: string, kwargs: seq<(string, TemplateValue)>, key: string)
    ensures Substituted(template, kwargs + [(key, NoValue)]) == Substituted(template, kwargs)
    decreases |kwargs|
  {
    if |kwargs| == 0 {
      assert Substituted(template, [(key, NoValue)]) == Substituted(template, [(key, NoValue)][1..]);
    } else {
      assert (kwargs + [(key, NoValue)])[1..] == kwargs[1..] + [(key, NoValue)];
      var (k, v) := kwargs[0];
      if v.NoValue? {
        NoneSkipped(template, kwargs[1..], key);
      } else if Contains(template, Marker(k)) {
        NoneSkipped(Replace(template, Marker(k), Render(v)), kwargs[1..], key);
      }
    }
  }

  /** A key whose placeholder is missing from the template is an error. */
  lemma MissingPlaceholderRejected(template: string, key: string, v: TemplateValue,
                                   rest: seq<(string, TemplateValue)>)
    requires !v.NoValue? && !Contains(template, Marker(key))
    ensures ToolchainFile(template, [(key, v)] + rest) == Err(key)
  {
  }

  /** A needle that occurs starts with a character of the text. */
  lemma {:induction false} ContainsFirst(s: string, needle: string)
    requires |needle| > 0 && Contains(s, needle)
    ensures needle[0] in s
    decreases |s|
  {
    if !StartsWith(s, needle) {
      ContainsFirst(s[1..], needle);
    }
  }

  /** Replacing in text whose prefix has no first character of the pattern
      leaves that prefix alone. */
  lemma {:induction false} ReplaceAfter(a: string, rest: string, pat: string, rep: string)
    requires |pat| > 0 && pat[0] !in a
    ensures Replace(a + rest, pat, rep) == a + Replace(rest, pat, rep)
    decreases |a|
  {
    if |a| > 0 {
      var s := a + rest;
      assert s[1..] == a[1..] + rest;
      ReplaceAfter(a[1..], rest, pat, rep);
      if |s| >= |pat| {
        assert s[..|pat|][0] == a[0];
        assert Replace(s, pat, rep) == [a[0]] + Replace(s[1..], pat, rep);
      } else {
        assert Replace(rest, pat, rep) == rest;
      }
      assert [a[0]] + a[1..] == a;
    } else {
      assert a + rest == rest;
    }
  }

  /** A pattern occurring once, with its first character nowhere else, is
      replaced at that place. */
  lemma ReplaceOnce(a: string, pat: string, b: string, rep: string)
    requires |pat| > 0 && pat[0] !in a && pat[0] !in b
    ensures Replace(a + pat + b, pat, rep) == a + rep + b
  {
    assert a + pat + b == a + (pat + b);
    ReplaceAfter(a, pat + b, pat, rep);
    assert (pat + b)[..|pat|] == pat && (pat + b)[|pat|..] == b;
    if Contains(b, pat) {
      ContainsFirst(b, pat);
    }
    ReplaceAbsent(b, pat, rep);
  }

  /** A template with one placeholder and no other "@" becomes the text
      around it with the value in its place. */
  lemma OnePlaceholder(a: string, key: string, b: string, v: TemplateValue)
    requires !v.NoValue? && '@' !in a && '@' !in b && '@' !in Render(v)
    ensures ToolchainFile(a + Marker(key) + b, [(key, v)]) == Ok(a + Render(v) + b)
  {
    var t := a + Marker(key) + b;
    ContainsAt(t, Marker(key), |a|);
    ReplaceOnce(a, Marker(key), b, Render(v));
    var filled := a + Render(v) + b;
    assert Substituted(t, [(key, v)]) == Substituted(filled, []);
    assert '@' !in filled;
  }

  // ---------------------------------------------------------------------
  // The configure environment of autotools projects
  // ---------------------------------------------------------------------

  /** A value passed to `add_configure_env_arg`. */
  datatype EnvValue = NoneValue | Str(s: string) | ListOf(items: seq<string>) | TupleOf(items: seq<string>)

  /** Python's truth value of the argument. */
  predicate Truthy(v: EnvValue) {
    match v
    case NoneValue => false
    case Str(s) => s != ""
    case ListOf(items) => items != []
    case TupleOf(items) => items != []
  }

  /** The value of the program variable `set_prog_with_args` sets: the path,
      then the arguments after one space. */
  function ProgWithArgs(path: string, args: seq<string>): (r: string)
    ensures StartsWith(r, path)
    ensures args == [] ==> r == path
  {
    if args == [] then path else path + " " + Join(" ", args)
  }

  /** The arguments of `set_prog_with_args` follow the path and a space. */
  lemma ProgWithArgsSplit(path: string, args: seq<string>)
    requires args != []
    ensures ProgWithArgs(path, args)[|path|] == ' '
    ensures ProgWithArgs(path, args)[|path| + 1..] == Join(" ", args)
  {
  }

  /** The entries of `env` whose value is not empty. */
  function NonEmpty(env: map<string, string>): (r: map<string, string>)
    ensures forall k :: k in r <==> k in env && env[k] != ""
    ensures forall k :: k in r ==> r[k] == env[k]
  {
    map k | k in env && env[k] != "" :: env[k]
  }

  /** Removing empty entries twice is removing them once. */
  lemma NonEmptyIdempotent(env: map<string, string>)
    ensures NonEmpty(NonEmpty(env)) == NonEmpty(env)
  {
  }

  /** The arguments an assignment adds: "K=V" when the configure script
      takes variables on its command line, nothing otherwise. */
  function CmdlineAssignment(supports: bool, key: string, value: string): (r: seq<string>)
    ensures |r| <= 1
  {
    if supports then [key + "=" + value] else []
  }

  /** An autotools cross-compile project's configure environment and
      arguments. */
  class AutotoolsConfigure {
    const supportsVariablesOnCmdline: bool
    var configureEnvironment: map<string, string>
    var configureArgs: seq<string>

    constructor(supportsVariablesOnCmdline: bool, configureArgs: seq<string>)
      ensures this.supportsVariablesOnCmdline == supportsVariablesOnCmdline
      ensures this.configureArgs == configureArgs && configureEnvironment == map[]
    {
      this.supportsVariablesOnCmdline := supportsVariablesOnCmdline;
      this.configureArgs := configureArgs;
      configureEnvironment := map[];
    }

    /** `add_configure_env_arg`: a false value is ignored, a list or tuple
        fails the assertion, and a string is set in the environment and,
        when supported, also passed as an argument. */
    method AddConfigureEnvArg(arg: string, value: EnvValue) returns (ok: bool)
      modifies this`configureEnvironment, this`configureArgs
      ensures ok <==> !(Truthy(value) && (value.ListOf? || value.TupleOf?))
      ensures !Truthy(value) || !ok ==>
        configureEnvironment == old(configureEnvironment) && configureArgs == old(configureArgs)
      ensures Truthy(value) && value.Str? ==>
        configureEnvironment == old(configureEnvironment)[arg := value.s] &&
        configureArgs == old(configureArgs) + CmdlineAssignment(supportsVariablesOnCmdline, arg, value.s)
    {
      if !Truthy(value) {
        return true;
      }
      if value.ListOf? || value.TupleOf? {
        return false;
      }
      configureEnvironment := configureEnvironment[arg := value.s];
      configureArgs := configureArgs + CmdlineAssignment(supportsVariablesOnCmdline, arg, value.s);
      return true;
    }

    /** `set_prog_with_args`: the program variable is the path followed by
        the arguments. */
    method SetProgWithArgs(prog: string, path: string, args: seq<string>)
      modifies this`configureEnvironment, this`configureArgs
      ensures configureEnvironment == old(configureEnvironment)[prog := ProgWithArgs(path, args)]
      ensures configureArgs == old(configureArgs) + CmdlineAssignment(supportsVariablesOnCmdline, prog, ProgWithArgs(path, args))
    {
      var fullpath := path;
      if args != [] {
        fullpath := fullpath + " " + Join(" ", args);
      }
      configureEnvironment := configureEnvironment[prog := fullpath];
      configureArgs := configureArgs + CmdlineAssignment(supportsVariablesOnCmdline, prog, fullpath);
    }

    /** The step of `configure` that drops every environment entry whose
        value is empty. */
    method RemoveEmptyEntries()
      modifies this`configureEnvironment
      ensures configureEnvironment == NonEmpty(old(configureEnvironment))
    {
      configureEnvironment := map k | k in configureEnvironment && configureEnvironment[k] != "" :: configureEnvironment[k];
    }
  }

  /** An assignment passed on the command line reads back as the value
      stored in the environment: the key, "=", then the value. */
  lemma AssignmentReadsBack(supports: bool, key: string, value: string)
    requires '=' !in key
    ensures var a := CmdlineAssignment(supports, key, value);
      supports ==> Find(a[0], '=') == |key| && a[0][..|key|] == key && a[0][|key| + 1..] == value
  {
    if supports {
      FindAfter(key, "=" + value, '=');
      assert key + "=" + value == key + ("=" + value);
    }
  }
}
