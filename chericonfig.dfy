/** The configuration of a build: the names and paths `CheriConfig` derives
    from its options (pycheribuild/config/chericonfig.py), the cross-compile
    target and paths `DefaultCheriConfig.load` sets
    (pycheribuild/config/defaultconfig.py), the fixed settings and
    workspace-relative roots of `JenkinsConfig`
    (pycheribuild/config/jenkinsconfig.py), and the derived fields of the
    older single-class configuration (pycheribuild/chericonfig.py).

    The subclasses hold the shared `CheriConfig` object they extend in a
    `config` field; option values arrive already loaded, as constructor
    arguments. */
module CheriConfigs {

  import opened Wrappers
  import opened Strs
  import opened Paths

  /** `str(n)` between a fixed prefix and suffix gives `n` back. */
  lemma NumberBetween(p: string, s: string, a: nat, b: nat)
    requires p + NatToString(a) + s == p + NatToString(b) + s
    ensures a == b
  {
    var x := p + NatToString(a) + s;
    var y := p + NatToString(b) + s;
    assert x[|p|..|x| - |s|] == NatToString(a);
    assert y[|p|..|y| - |s|] == NatToString(b);
    DigitsValueOfNatToString(a);
    DigitsValueOfNatToString(b);
  }

  /** No digit string contains a "/". */
  lemma DigitsNoSlash(n: nat)
    ensures '/' !in NatToString(n)
  {
    var d := NatToString(n);
    assert forall i :: 0 <= i < |d| ==> d[i] != '/';
  }

  // ---------------------------------------------------------------------
  // Derived names and paths (config/chericonfig.py)
  // ---------------------------------------------------------------------

  /** `makeJFlag`: "-j" and the job count. */
  function MakeJFlag(jobs: nat): (r: string)
    ensures StartsWith(r, "-j") && |r| > 2
  {
    "-j" + NatToString(jobs)
  }

  /** The flag names its job count: two counts give the same flag only when
      they are equal. */
  lemma JFlagReadsBack(a: nat, b: nat)
    ensures MakeJFlag(a) == MakeJFlag(b) <==> a == b
  {
    if MakeJFlag(a) == MakeJFlag(b) {
      assert MakeJFlag(a) + "" == MakeJFlag(a) && MakeJFlag(b) + "" == MakeJFlag(b);
      NumberBetween("-j", "", a, b);
    }
  }

  /** `sdkDirectoryName`: one "sdk" directory for a unified SDK, otherwise one
      per capability size. */
  function SdkDirectoryName(unifiedSdk: bool, bits: nat): (r: string)
    ensures StartsWith(r, "sdk")
    ensures r == "sdk" <==> unifiedSdk
  {
    if unifiedSdk then "sdk" else "sdk" + NatToString(bits)
  }

  /** Without a unified SDK, the 128- and 256-bit SDKs live apart: the names
      differ whenever the sizes do. */
  lemma SdkDirectoriesApart(a: nat, b: nat)
    ensures SdkDirectoryName(false, a) == SdkDirectoryName(false, b) <==> a == b
  {
    if SdkDirectoryName(false, a) == SdkDirectoryName(false, b) {
      assert SdkDirectoryName(false, a) + "" == SdkDirectoryName(false, a);
      assert SdkDirectoryName(false, b) + "" == SdkDirectoryName(false, b);
      NumberBetween("sdk", "", a, b);
    }
  }

  /** `sdkBinDir`. */
  function SdkBinDir(sdkDir: string): string {
    PathJoin(sdkDir, "bin")
  }

  /** `sdkSysrootDir`: the sysroot for one capability size. */
  function SdkSysrootDir(sdkDir: string, bits: nat): string {
    PathJoin(sdkDir, "sysroot" + NatToString(bits))
  }

  /** The directory `PathJoin` puts a relative child into. */
  function ChildDir(base: string): (r: string)
    requires base != ""
    ensures |r| > 0 && r[|r| - 1] == '/'
  {
    if EndsWith(base, "/") then base else base + "/"
  }

  /** Joining a relative name without "/" onto a non-empty base places it
      in `ChildDir(base)`. */
  lemma JoinChild(base: string, name: string)
    requires base != "" && name != "" && name[0] != '/' && '/' !in name
    ensures PathJoin(base, name) == ChildDir(base) + name
    ensures Name(PathJoin(base, name)) == name && Dir(PathJoin(base, name)) == ChildDir(base)
  {
    assert !IsAbsolute(name);
    NameOfAppend(ChildDir(base), name);
    DirOfAppend(ChildDir(base), name);
  }

  /** The bin and sysroot directories are siblings inside the SDK directory,
      named "bin" and "sysroot" followed by the size. */
  lemma SdkSubdirs(sdkDir: string, bits: nat)
    requires sdkDir != ""
    ensures Name(SdkBinDir(sdkDir)) == "bin"
    ensures Name(SdkSysrootDir(sdkDir, bits)) == "sysroot" + NatToString(bits)
    ensures Dir(SdkBinDir(sdkDir)) == Dir(SdkSysrootDir(sdkDir, bits)) == ChildDir(sdkDir)
  {
    DigitsNoSlash(bits);
    var s := "sysroot" + NatToString(bits);
    assert '/' !in "sysroot";
    JoinChild(sdkDir, "bin");
    JoinChild(sdkDir, s);
  }

  /** `sysrootArchiveName`. */
  function SysrootArchiveName(bits: nat): (r: string)
    ensures StartsWith(r, "cheri-sysroot") && EndsWith(r, ".tar.gz")
  {
    "cheri-sysroot" + NatToString(bits) + ".tar.gz"
  }

  /** Each capability size has its own sysroot archive. */
  lemma ArchiveNamesApart(a: nat, b: nat)
    ensures SysrootArchiveName(a) == SysrootArchiveName(b) <==> a == b
  {
    if SysrootArchiveName(a) == SysrootArchiveName(b) {
      NumberBetween("cheri-sysroot", ".tar.gz", a, b);
    }
  }

  /** `str(self.cheriBits)`, which reads "None" before the size is known. */
  function BitsText(bits: Option<nat>): string {
    if bits.Some? then NatToString(bits.value) else "None"
  }

  /** `dollarPathWithOtherTools`: the bootstrap tools' bin directory ahead of
      the inherited PATH. */
  function DollarPath(otherToolsDir: string, path: string): (r: string)
    ensures StartsWith(r, SdkBinDir(otherToolsDir) + ":") && EndsWith(r, path)
  {
    PathJoin(otherToolsDir, "bin") + ":" + path
  }

  // ---------------------------------------------------------------------
  // _ensureRequiredPropertiesSet
  // ---------------------------------------------------------------------

  /** One attribute of the configuration object: its name and whether it
      still holds None. */
  datatype Field = Field(name: string, isNone: bool)

  /** An attribute the check objects to: None and not declared optional. */
  predicate Missing(f: Field, optional: seq<string>) {
    f.isNone && f.name !in optional
  }

  /** No attribute is missing, with nothing declared optional. */
  predicate AllSet(fields: seq<Field>) {
    forall j :: 0 <= j < |fields| ==> !Missing(fields[j], [])
  }

  /** The attributes of two lists with one set attribute between them are all
      set exactly when those of both lists are. */
  lemma AllSetAround(before: seq<Field>, f: Field, after: seq<Field>)
    requires !f.isNone
    ensures AllSet(before + [f] + after) <==> AllSet(before) && AllSet(after)
  {
    var all := before + [f] + after;
    if AllSet(before) && AllSet(after) {
      forall j | 0 <= j < |all| ensures !Missing(all[j], []) {
        if j < |before| {
          assert all[j] == before[j];
        } else if j > |before| {
          assert all[j] == after[j - |before| - 1];
        }
      }
    }
    if AllSet(all) {
      forall j | 0 <= j < |before| ensures !Missing(before[j], []) {
        assert all[j] == before[j];
      }
      forall j | 0 <= j < |after| ensures !Missing(after[j], []) {
        assert all[j + |before| + 1] == after[j];
      }
    }
  }

  /** `_ensureRequiredPropertiesSet`: the attributes in attribute order;
      the first missing one raises, otherwise the result is True. */
  method EnsureRequiredPropertiesSet(fields: seq<Field>, optional: seq<string>) returns (r: Result<bool>)
    ensures r.Ok? <==> forall j :: 0 <= j < |fields| ==> !Missing(fields[j], optional)
    ensures r.Ok? ==> r.value
    ensures r.Err? ==> exists i :: (0 <= i < |fields| && Missing(fields[i], optional) &&
      (forall j :: 0 <= j < i ==> !Missing(fields[j], optional)) &&
      r.msg == "Required property " + fields[i].name + " is not set!")
  {
    var i := 0;
    while i < |fields|
      invariant 0 <= i <= |fields|
      invariant forall j :: 0 <= j < i ==> !Missing(fields[j], optional)
    {
      if fields[i].name in optional {
        i := i + 1;
        continue;
      }
      if fields[i].isNone {
        return Err("Required property " + fields[i].name + " is not set!");
      }
      i := i + 1;
    }
    return Ok(true);
  }

  // ---------------------------------------------------------------------
  // CheriConfig (config/chericonfig.py)
  // ---------------------------------------------------------------------

  /** `CrossCompileTarget` as this configuration module declares it. */
  datatype CrossTarget = Native | Mips | Cheri

  const MissingClang := "/c/compiler/is/missing"
  const MissingClangPlusPlus := "/c++/compiler/is/missing"

  /** The attributes shared by every configuration. The size, the output
      root and the derived paths start out as None, as in `__init__`. */
  class CheriConfig {
    const pretend: bool
    const unifiedSdk: bool
    const makeJobs: nat
    var clangPath: Option<string>
    var clangPlusPlusPath: Option<string>
    var cheriBits: Option<nat>
    var outputRoot: Option<string>
    var sdkDir: Option<string>
    var otherToolsDir: Option<string>
    var dollarPathWithOtherTools: Option<string>
    var sysrootArchiveName: Option<string>
    var crossCompileTarget: Option<CrossTarget>
    /** The process environment (`os.environ`). */
    var environ: map<string, string>

    constructor(pretend: bool, unifiedSdk: bool, makeJobs: nat, clangPath: Option<string>,
                clangPlusPlusPath: Option<string>, environ: map<string, string>)
      ensures this.pretend == pretend && this.unifiedSdk == unifiedSdk && this.makeJobs == makeJobs
      ensures this.clangPath == clangPath && this.clangPlusPlusPath == clangPlusPlusPath
      ensures this.environ == environ
      ensures cheriBits.None? && outputRoot.None? && sdkDir.None? && otherToolsDir.None?
      ensures dollarPathWithOtherTools.None? && sysrootArchiveName.None? && crossCompileTarget.None?
    {
      this.pretend := pretend;
      this.unifiedSdk := unifiedSdk;
      this.makeJobs := makeJobs;
      this.clangPath := clangPath;
      this.clangPlusPlusPath := clangPlusPlusPath;
      this.environ := environ;
      cheriBits := None;
      outputRoot := None;
      sdkDir := None;
      otherToolsDir := None;
      dollarPathWithOtherTools := None;
      sysrootArchiveName := None;
      crossCompileTarget := None;
    }

    /** `load`: a compiler that was not found is replaced by a placeholder
        path, so both paths are set afterwards; a found one is kept. */
    method Load()
      modifies this
      ensures clangPath.Some? && clangPlusPlusPath.Some?
      ensures old(clangPath).Some? ==> clangPath == old(clangPath)
      ensures old(clangPath).None? ==> clangPath == Some(MissingClang)
      ensures old(clangPlusPlusPath).Some? ==> clangPlusPlusPath == old(clangPlusPlusPath)
      ensures old(clangPlusPlusPath).None? ==> clangPlusPlusPath == Some(MissingClangPlusPlus)
      ensures cheriBits == old(cheriBits) && outputRoot == old(outputRoot) && sdkDir == old(sdkDir)
      ensures otherToolsDir == old(otherToolsDir) && dollarPathWithOtherTools == old(dollarPathWithOtherTools)
      ensures sysrootArchiveName == old(sysrootArchiveName) && crossCompileTarget == old(crossCompileTarget)
      ensures environ == old(environ)
    {
      if clangPath.None? {
        clangPath := Some(MissingClang);
      }
      if clangPlusPlusPath.None? {
        clangPlusPlusPath := Some(MissingClangPlusPlus);
      }
    }

    /** `_initializeDerivedPaths`: the tool search path, CHERI_BITS in the
        environment and the sysroot archive name. An unset PATH makes the
        concatenation raise before anything is assigned. */
    method InitializeDerivedPaths(path: Option<string>) returns (r: Result<bool>)
      requires otherToolsDir.Some?
      modifies this
      ensures otherToolsDir == old(otherToolsDir) && crossCompileTarget == old(crossCompileTarget)
      ensures r.Ok? <==> path.Some?
      ensures r.Ok? ==> dollarPathWithOtherTools == Some(DollarPath(otherToolsDir.value, path.value))
      ensures r.Ok? ==> environ == old(environ)["CHERI_BITS" := BitsText(cheriBits)]
      ensures r.Ok? ==> sysrootArchiveName == Some("cheri-sysroot" + BitsText(cheriBits) + ".tar.gz")
      ensures r.Err? ==> (dollarPathWithOtherTools == old(dollarPathWithOtherTools) &&
        environ == old(environ) && sysrootArchiveName == old(sysrootArchiveName))
      ensures clangPath == old(clangPath) && clangPlusPlusPath == old(clangPlusPlusPath)
      ensures cheriBits == old(cheriBits) && outputRoot == old(outputRoot) && sdkDir == old(sdkDir)
    {
      if path.None? {
        return Err("TypeError");
      }
      dollarPathWithOtherTools := Some(DollarPath(otherToolsDir.value, path.value));
      environ := environ["CHERI_BITS" := BitsText(cheriBits)];
      sysrootArchiveName := Some("cheri-sysroot" + BitsText(cheriBits) + ".tar.gz");
      r := Ok(true);
    }
  }

  /** Once the size is known, the archive name is `SysrootArchiveName`. */
  lemma ArchiveNameOfBits(bits: nat)
    ensures "cheri-sysroot" + BitsText(Some(bits)) + ".tar.gz" == SysrootArchiveName(bits)
  {
  }

  // ---------------------------------------------------------------------
  // DefaultCheriConfig (config/defaultconfig.py)
  // ---------------------------------------------------------------------

  /** The `CheribuildAction` members. */
  datatype Action = Build | Test | Benchmark | BuildAndTest | ListTargets | PrintChosenTargets | DumpConfiguration

  /** An entry of an action's `actions` list: the member itself, or (for the
      combined action, which cannot refer to the other members yet) a name. */
  datatype ActionStep = Itself(Action) | Named(string)

  /** The `actions` argument each member is declared with (empty when it is
      left out). */
  function DeclaredActions(a: Action): seq<ActionStep> {
    if a == BuildAndTest then [Named("build"), Named("test")] else []
  }

  /** `CheribuildAction.__init__`: no declared actions means the member
      stands for itself. */
  function Actions(a: Action): (r: seq<ActionStep>)
    ensures |r| > 0
  {
    var declared := DeclaredActions(a);
    if |declared| == 0 then [Itself(a)] else declared
  }

  /** Every action but "build and test" runs just itself; that one runs
      build, then test. */
  lemma ActionsOfEveryMember(a: Action)
    ensures a != BuildAndTest ==> Actions(a) == [Itself(a)]
    ensures a == BuildAndTest ==> Actions(a) == [Named("build"), Named("test")]
    ensures Itself(a) in Actions(a) <==> a != BuildAndTest
  {
  }

  /** The target choice in `DefaultCheriConfig.load` as written: with neither
      flag it reads `CrossCompileTarget.CHERIBSD_MIPS_PURECAP`, a member the
      enum of config/chericonfig.py does not have, so the attribute lookup
      raises; with both flags the assertion fails. */
  function ChooseTargetAsWritten(xhost: bool, xmips: bool): (r: Result<CrossTarget>)
    ensures r.Err? <==> xhost == xmips
    ensures r == Ok(Native) <==> xhost && !xmips
    ensures r == Ok(Mips) <==> xmips && !xhost
  {
    if xhost then
      if xmips then Err("AssertionError") else Ok(Native)
    else if xmips then Ok(Mips)
    else Err("AttributeError")
  }

  /** The default configuration, without either flag, cannot be loaded. */
  lemma DefaultTargetRaises()
    ensures ChooseTargetAsWritten(false, false).Err?
    ensures forall x, m :: ChooseTargetAsWritten(x, m) != Ok(Cheri)
  {
  }

  /** The target choice with the purecap default the code reaches for: the
      enum's CHERI member. */
  function ChooseTarget(xhost: bool, xmips: bool): (r: Result<CrossTarget>)
    ensures r.Err? <==> xhost && xmips
    ensures r == Ok(Cheri) <==> !xhost && !xmips
  {
    if xhost then
      if xmips then Err("AssertionError") else Ok(Native)
    else if xmips then Ok(Mips)
    else Ok(Cheri)
  }

  /** With exactly one flag the two choices agree; `--xhost` gives NATIVE and
      `--xmips` gives MIPS. */
  lemma ChooseTargetAgrees(xhost: bool, xmips: bool)
    requires xhost != xmips
    ensures ChooseTarget(xhost, xmips) == ChooseTargetAsWritten(xhost, xmips)
    ensures ChooseTarget(xhost, xmips) == Ok(if xhost then Native else Mips)
  {
  }

  /** The SDK and the bootstrap tools get different directories under the
      output root. */
  lemma DefaultRootsApart(outputRoot: string, unifiedSdk: bool, bits: nat)
    requires outputRoot != ""
    ensures PathJoin(outputRoot, SdkDirectoryName(unifiedSdk, bits)) != PathJoin(outputRoot, "bootstrap")
  {
    var s := SdkDirectoryName(unifiedSdk, bits);
    DigitsNoSlash(bits);
    assert '/' !in "sdk";
    JoinChild(outputRoot, s);
    JoinChild(outputRoot, "bootstrap");
    assert s[0] == 's';
  }

  /** The first attribute of `used` that the loader does not have. */
  function MissingGroup(used: seq<string>, groups: set<string>): (r: Option<string>)
    ensures r.None? <==> forall g :: g in used ==> g in groups
    ensures r.Some? ==> r.value in used && r.value !in groups
  {
    if used == [] then None
    else if used[0] !in groups then Some(used[0])
    else MissingGroup(used[1..], groups)
  }

  /** `DefaultCheriConfig.__init__` as written: the base constructor takes
      the loader alone, so any keyword argument raises `TypeError`; then
      every option group it names must be an attribute of the loader. */
  function DefaultInitAsWritten(keywords: set<string>, used: seq<string>, groups: set<string>): (r: Result<bool>)
    ensures r.Ok? <==> keywords == {} && forall g :: g in used ==> g in groups
    ensures keywords != {} ==> r == Err("TypeError")
  {
    if keywords != {} then Err("TypeError")
    else match MissingGroup(used, groups)
      case Some(g) => Err("AttributeError: " + g)
      case None => Ok(true)
  }

  /** The keyword arguments `DefaultCheriConfig.__init__` passes to the base
      constructor, the loader groups it names (in order of use), and the
      groups `JsonAndCommandLineConfigLoader` defines. */
  const DefaultInitKeywords: set<string> := {"action_class"}
  const DefaultInitGroups: seq<string> :=
    ["actionGroup", "configureGroup", "configureGroup", "cheriBitsGroup", "cheriBitsGroup", "cheriBitsGroup",
     "crossCompileGroup", "crossCompileGroup", "pathGroup", "pathGroup", "pathGroup"]
  const LoaderGroups: set<string> := {"cheriBitsGroup", "crossCompileGroup", "configureGroup"}

  /** As written the configuration cannot be built: the keyword raises
      `TypeError`, and without it the first group named, `actionGroup`,
      raises `AttributeError`. */
  lemma DefaultInitRaises()
    ensures DefaultInitAsWritten(DefaultInitKeywords, DefaultInitGroups, LoaderGroups) == Err("TypeError")
    ensures DefaultInitAsWritten({}, DefaultInitGroups, LoaderGroups) == Err("AttributeError: actionGroup")
  {
    assert DefaultInitGroups[0] !in LoaderGroups;
  }

  /** `DefaultCheriConfig`: the options it adds and the paths its `load`
      derives from the output root. The constructor is the one the code
      evidently intends: it succeeds, with the loaded option values as its
      parameters (see `DefaultInitAsWritten`). */
  class DefaultCheriConfig {
    const config: CheriConfig
    const xhost: bool
    const xmips: bool
    var cheribsdImageRoot: Option<string>

    constructor(config: CheriConfig, cheriBits: nat, outputRoot: string, xhost: bool, xmips: bool)
      modifies config
      ensures this.config == config && this.xhost == xhost && this.xmips == xmips
      ensures config.cheriBits == Some(cheriBits) && config.outputRoot == Some(outputRoot)
      ensures cheribsdImageRoot.None?
      ensures config.clangPath == old(config.clangPath) && config.clangPlusPlusPath == old(config.clangPlusPlusPath)
      ensures config.sdkDir == old(config.sdkDir) && config.otherToolsDir == old(config.otherToolsDir)
      ensures config.crossCompileTarget == old(config.crossCompileTarget) && config.environ == old(config.environ)
    {
      this.config := config;
      this.xhost := xhost;
      this.xmips := xmips;
      cheribsdImageRoot := None;
      config.cheriBits := Some(cheriBits);
      config.outputRoot := Some(outputRoot);
    }

    /** `load`: the shared load step, the cross-compile target, the SDK,
        bootstrap and image roots under the output root, the derived paths,
        and the required-property check over the other attributes `others`. */
    method Load(path: Option<string>, others: seq<Field>) returns (r: Result<bool>)
      requires config.cheriBits.Some? && config.outputRoot.Some?
      modifies this, config
      ensures config.cheriBits == old(config.cheriBits) && config.outputRoot == old(config.outputRoot)
      ensures config.clangPath.Some? && config.clangPlusPlusPath.Some?
      ensures ChooseTarget(xhost, xmips).Err? ==> (r.Err? && config.crossCompileTarget == old(config.crossCompileTarget) &&
        config.sdkDir == old(config.sdkDir) && config.otherToolsDir == old(config.otherToolsDir))
      ensures ChooseTarget(xhost, xmips).Ok? ==> (
        config.crossCompileTarget == Some(ChooseTarget(xhost, xmips).value) &&
        config.sdkDir == Some(PathJoin(config.outputRoot.value, SdkDirectoryName(config.unifiedSdk, config.cheriBits.value))) &&
        config.otherToolsDir == Some(PathJoin(config.outputRoot.value, "bootstrap")) &&
        cheribsdImageRoot == config.outputRoot)
      ensures r.Ok? <==> ChooseTarget(xhost, xmips).Ok? && path.Some? && AllSet(others)
      ensures r.Ok? ==> (config.sysrootArchiveName == Some(SysrootArchiveName(config.cheriBits.value)) &&
        config.environ == old(config.environ)["CHERI_BITS" := NatToString(config.cheriBits.value)] &&
        config.dollarPathWithOtherTools == Some(DollarPath(config.otherToolsDir.value, path.value)))
    {
      config.Load();
      var target := ChooseTarget(xhost, xmips);
      if target.Err? {
        return Err(target.msg);
      }
      config.crossCompileTarget := Some(target.value);
      var root := config.outputRoot.value;
      config.sdkDir := Some(PathJoin(root, SdkDirectoryName(config.unifiedSdk, config.cheriBits.value)));
      config.otherToolsDir := Some(PathJoin(root, "bootstrap"));
      cheribsdImageRoot := Some(root);
      var derived := config.InitializeDerivedPaths(path);
      if derived.Err? {
        return Err(derived.msg);
      }
      r := EnsureRequiredPropertiesSet(others, []);
    }
  }

  // ---------------------------------------------------------------------
  // JenkinsConfig (config/jenkinsconfig.py)
  // ---------------------------------------------------------------------

  /** Jenkins keeps its SDK in "cherisdk" whatever the size. */
  const JenkinsSdkDirectoryName := "cherisdk"

  /** The size and the MIPS cross-compile switch for a `$CPU` value; None
      for a value the mapping does not know. */
  function CpuSetting(cpu: Option<string>): (r: Option<(nat, bool)>)
    ensures r.Some? ==> (r.value.1 <==> cpu == Some("mips")) && (r.value.1 <==> r.value.0 == 0)
  {
    if cpu == Some("cheri128") then Some((128, false))
    else if cpu == Some("cheri256") then Some((256, false))
    else if cpu == Some("mips") then Some((0, true))
    else if cpu == Some("x86") || cpu == Some("x86_64") || cpu == Some("amd64") then Some((256, false))
    else None
  }

  /** The mapping: only plain MIPS cross-compiles for MIPS, with size 0;
      every other known CPU builds for 128 or 256 bits, and exactly six
      values are known. */
  lemma CpuSettings(cpu: Option<string>)
    ensures CpuSetting(cpu).Some? <==> cpu in {Some("cheri128"), Some("cheri256"), Some("mips"), Some("x86"), Some("x86_64"), Some("amd64")}
    ensures CpuSetting(cpu).Some? ==> (CpuSetting(cpu).value.1 <==> cpu == Some("mips"))
    ensures CpuSetting(cpu).Some? ==> (CpuSetting(cpu).value.0 == 0 <==> CpuSetting(cpu).value.1)
    ensures CpuSetting(cpu).Some? ==> CpuSetting(cpu).value.0 in {0, 128, 256}
    ensures cpu == Some("cheri128") <==> CpuSetting(cpu) == Some((128, false))
  {
  }

  /** The SDK archive name Jenkins infers: `{SDK_CPU}-{ISA or vanilla}`, which
      reads "None" for an unset SDK_CPU (reachable in pretend mode). */
  function InferredArchiveName(sdkCpu: Option<string>, isa: Option<string>): string
  {
    (if sdkCpu.Some? then sdkCpu.value else "None") + "-" + (if isa.Some? then isa.value else "vanilla") +
    "-jemalloc-sdk.tar.xz"
  }

  /** The archive name starts with the CPU and ends with the fixed
      "-jemalloc-sdk.tar.xz". */
  lemma InferredArchiveNameParts(sdkCpu: string, isa: Option<string>)
    ensures StartsWith(InferredArchiveName(Some(sdkCpu), isa), sdkCpu + "-")
    ensures EndsWith(InferredArchiveName(Some(sdkCpu), isa), "-jemalloc-sdk.tar.xz")
  {
    var tail := "-jemalloc-sdk.tar.xz";
    var mid := if isa.Some? then isa.value else "vanilla";
    var r := InferredArchiveName(Some(sdkCpu), isa);
    assert r == (sdkCpu + "-") + (mid + tail);
    assert r == (sdkCpu + "-" + mid) + tail;
  }

  /** `JenkinsConfig`: the fixed settings of a CI build and the roots derived
      from `$WORKSPACE`. */
  class JenkinsConfig {
    const config: CheriConfig
    const cpu: Option<string>
    const workspace: Option<string>
    const forceUpdate: bool
    const makeWithoutNice: bool
    const verbose: bool
    const quiet: bool
    const clean: bool
    const force: bool
    const noLogfile: bool
    const skipConfigure: bool
    const forceConfigure: bool
    const includeDependencies: bool
    var skipUpdate: bool
    var sdkArchiveName: Option<string>
    var sdkArchiveIsStr: bool
    var sourceRoot: Option<string>
    var buildRoot: Option<string>
    var sdkSysrootDir: Option<string>
    var sdkBinDir: Option<string>
    var crossCompileForMips: bool

    /** `__init__`: no user input, always clean, always reconfigure, never
        the dependencies, no updates, no nice, verbose with no log file. */
    constructor(config: CheriConfig, cpu: Option<string>, workspace: Option<string>,
                sdkArchiveName: Option<string>, forceUpdate: bool)
      ensures this.config == config && this.cpu == cpu && this.workspace == workspace
      ensures this.sdkArchiveName == sdkArchiveName && this.forceUpdate == forceUpdate
      ensures makeWithoutNice && skipUpdate && verbose && !quiet && clean && force && noLogfile
      ensures !skipConfigure && forceConfigure && !includeDependencies
      ensures sourceRoot.None? && buildRoot.None? && sdkSysrootDir.None? && sdkBinDir.None? && !crossCompileForMips
      ensures !sdkArchiveIsStr
    {
      this.config := config;
      this.cpu := cpu;
      this.workspace := workspace;
      this.sdkArchiveName := sdkArchiveName;
      // `--sdk-archive` is declared with `type=Path`
      sdkArchiveIsStr := false;
      this.forceUpdate := forceUpdate;
      makeWithoutNice := true;
      skipUpdate := true;
      verbose := true;
      quiet := false;
      clean := true;
      force := true;
      noLogfile := true;
      skipConfigure := false;
      forceConfigure := true;
      includeDependencies := false;
      sourceRoot := None;
      buildRoot := None;
      sdkSysrootDir := None;
      sdkBinDir := None;
      crossCompileForMips := false;
    }

    /** `sdkArchivePath` as the code evidently intends it: an unset name is
        inferred from SDK_CPU and ISA and stored; a missing or empty SDK_CPU
        is fatal outside pretend mode; the path is the name inside the
        workspace, whether the name was given or inferred. */
    method SdkArchivePath(sdkCpu: Option<string>, isa: Option<string>) returns (r: Result<string>)
      modifies this
      ensures old(sdkArchiveName).Some? ==> sdkArchiveName == old(sdkArchiveName) && sdkArchiveIsStr == old(sdkArchiveIsStr)
      ensures old(sdkArchiveName).None? && (sdkCpu.None? || sdkCpu == Some("")) && !config.pretend ==>
        r.Err? && sdkArchiveName == old(sdkArchiveName) && sdkArchiveIsStr == old(sdkArchiveIsStr)
      ensures old(sdkArchiveName).None? && ((sdkCpu.Some? && sdkCpu != Some("")) || config.pretend) ==>
        sdkArchiveName == Some(InferredArchiveName(sdkCpu, isa)) && sdkArchiveIsStr
      ensures r.Ok? <==> workspace.Some? && (old(sdkArchiveName).Some? || (sdkCpu.Some? && sdkCpu != Some("")) || config.pretend)
      ensures r.Ok? ==> sdkArchiveName.Some? && r.value == PathJoin(workspace.value, sdkArchiveName.value)
      ensures skipUpdate == old(skipUpdate) && sourceRoot == old(sourceRoot) && buildRoot == old(buildRoot)
      ensures sdkSysrootDir == old(sdkSysrootDir) && sdkBinDir == old(sdkBinDir) && crossCompileForMips == old(crossCompileForMips)
    {
      if sdkArchiveName.None? {
        if (sdkCpu.None? || sdkCpu == Some("")) && !config.pretend {
          return Err("SDK_CPU unset");
        }
        sdkArchiveName := Some(InferredArchiveName(sdkCpu, isa));
        sdkArchiveIsStr := true;
      }
      if workspace.None? {
        return Err("TypeError");
      }
      r := Ok(PathJoin(workspace.value, sdkArchiveName.value));
    }

    /** `sdkArchivePath` as written: the same, except that the assertion that
        the name is a `str` fails for a name given with `--sdk-archive`,
        which the loader has turned into a `Path`. */
    method SdkArchivePathAsWritten(sdkCpu: Option<string>, isa: Option<string>) returns (r: Result<string>)
      modifies this
      ensures old(sdkArchiveName).Some? && !old(sdkArchiveIsStr) ==> r == Err("AssertionError")
      ensures old(sdkArchiveName).Some? ==> sdkArchiveName == old(sdkArchiveName) && sdkArchiveIsStr == old(sdkArchiveIsStr)
      ensures old(sdkArchiveName).None? && (sdkCpu.None? || sdkCpu == Some("")) && !config.pretend ==>
        r.Err? && sdkArchiveName == old(sdkArchiveName)
      ensures old(sdkArchiveName).None? && ((sdkCpu.Some? && sdkCpu != Some("")) || config.pretend) ==>
        sdkArchiveName == Some(InferredArchiveName(sdkCpu, isa)) && sdkArchiveIsStr
      ensures r.Ok? <==> workspace.Some? && ((old(sdkArchiveName).Some? && old(sdkArchiveIsStr)) ||
                                             (old(sdkArchiveName).None? && ((sdkCpu.Some? && sdkCpu != Some("")) || config.pretend)))
      ensures r.Ok? ==> sdkArchiveName.Some? && r.value == PathJoin(workspace.value, sdkArchiveName.value)
    {
      if sdkArchiveName.None? {
        if (sdkCpu.None? || sdkCpu == Some("")) && !config.pretend {
          return Err("SDK_CPU unset");
        }
        sdkArchiveName := Some(InferredArchiveName(sdkCpu, isa));
        sdkArchiveIsStr := true;
      }
      if !sdkArchiveIsStr {
        return Err("AssertionError");
      }
      if workspace.None? {
        return Err("TypeError");
      }
      r := Ok(PathJoin(workspace.value, sdkArchiveName.value));
    }

    /** The roots every Jenkins build derives from the workspace. */
    method SetRoots(ws: string)
      modifies this, config
      ensures sourceRoot == Some(ws) && buildRoot == Some(ws)
      ensures config.outputRoot == Some(PathJoin(ws, "tarball"))
      ensures config.otherToolsDir == Some(PathJoin(ws, "bootstrap"))
      ensures skipUpdate == old(skipUpdate) && sdkArchiveName == old(sdkArchiveName)
      ensures sdkSysrootDir == old(sdkSysrootDir) && sdkBinDir == old(sdkBinDir) && crossCompileForMips == old(crossCompileForMips)
      ensures config.cheriBits == old(config.cheriBits) && config.sdkDir == old(config.sdkDir)
      ensures config.clangPath == old(config.clangPath) && config.clangPlusPlusPath == old(config.clangPlusPlusPath)
      ensures config.dollarPathWithOtherTools == old(config.dollarPathWithOtherTools)
      ensures config.sysrootArchiveName == old(config.sysrootArchiveName) && config.environ == old(config.environ)
      ensures config.crossCompileTarget == old(config.crossCompileTarget)
    {
      sourceRoot := Some(ws);
      buildRoot := Some(ws);
      config.outputRoot := Some(PathJoin(ws, "tarball"));
      config.otherToolsDir := Some(PathJoin(ws, "bootstrap"));
    }

    /** `load` as written, after the shared load step: the assignment to
        `sdkSysrootDir`, a read-only property of `CheriConfig`, raises, so
        loading never completes. */
    method LoadAsWritten(isDir: bool, path: Option<string>) returns (r: Result<bool>)
      modifies this, config
      ensures r.Err?
      ensures workspace.None? || (!isDir && !config.pretend) ==> sourceRoot == old(sourceRoot) && config.outputRoot == old(config.outputRoot)
    {
      if workspace.None? {
        return Err("AttributeError");
      }
      if !isDir && !config.pretend {
        return Err("bad WORKSPACE");
      }
      var ws := workspace.value;
      SetRoots(ws);
      if path.None? {
        return Err("TypeError");
      }
      config.dollarPathWithOtherTools := Some(DollarPath(config.otherToolsDir.value, path.value));
      config.sdkDir := Some(PathJoin(ws, JenkinsSdkDirectoryName));
      return Err("AttributeError");
    }

    /** The SDK paths under the workspace, with the sysroot and bin
        directories kept in fields of Jenkins' own. */
    method LocateSdk(ws: string, path: string)
      requires config.otherToolsDir.Some?
      modifies this, config
      ensures config.otherToolsDir == old(config.otherToolsDir)
      ensures config.dollarPathWithOtherTools == Some(DollarPath(config.otherToolsDir.value, path))
      ensures config.sdkDir == Some(PathJoin(ws, JenkinsSdkDirectoryName))
      ensures sdkSysrootDir == Some(PathJoin(config.sdkDir.value, "sysroot"))
      ensures sdkBinDir == Some(SdkBinDir(config.sdkDir.value))
      ensures skipUpdate == old(skipUpdate) && sourceRoot == old(sourceRoot) && buildRoot == old(buildRoot)
      ensures crossCompileForMips == old(crossCompileForMips) && sdkArchiveName == old(sdkArchiveName)
      ensures config.cheriBits == old(config.cheriBits) && config.outputRoot == old(config.outputRoot)
      ensures config.environ == old(config.environ)
      ensures config.clangPath == old(config.clangPath) && config.clangPlusPlusPath == old(config.clangPlusPlusPath)
      ensures config.sysrootArchiveName == old(config.sysrootArchiveName)
      ensures config.crossCompileTarget == old(config.crossCompileTarget)
    {
      config.dollarPathWithOtherTools := Some(DollarPath(config.otherToolsDir.value, path));
      config.sdkDir := Some(PathJoin(ws, JenkinsSdkDirectoryName));
      sdkSysrootDir := Some(PathJoin(config.sdkDir.value, "sysroot"));
      sdkBinDir := Some(SdkBinDir(config.sdkDir.value));
    }

    /** The CPU mapping: the size and the MIPS switch for a known CPU; an
        unknown one is fatal outside pretend mode and otherwise leaves the
        size as it was. */
    method ApplyCpu() returns (fatal: bool)
      modifies this, config
      ensures fatal <==> CpuSetting(cpu).None? && !config.pretend
      ensures CpuSetting(cpu).Some? ==> (config.cheriBits == Some(CpuSetting(cpu).value.0) &&
        crossCompileForMips == CpuSetting(cpu).value.1)
      ensures CpuSetting(cpu).None? ==> (config.cheriBits == old(config.cheriBits) && !crossCompileForMips)
      ensures skipUpdate == old(skipUpdate) && sourceRoot == old(sourceRoot) && buildRoot == old(buildRoot)
      ensures sdkSysrootDir == old(sdkSysrootDir) && sdkBinDir == old(sdkBinDir) && sdkArchiveName == old(sdkArchiveName)
      ensures config.outputRoot == old(config.outputRoot) && config.otherToolsDir == old(config.otherToolsDir)
      ensures config.sdkDir == old(config.sdkDir) && config.environ == old(config.environ)
      ensures config.dollarPathWithOtherTools == old(config.dollarPathWithOtherTools)
    {
      crossCompileForMips := false;
      var setting := CpuSetting(cpu);
      if setting.None? {
        return !config.pretend;
      }
      config.cheriBits := Some(setting.value.0);
      crossCompileForMips := setting.value.1;
      return false;
    }

    /** The first half of `load`: the workspace check, the roots, and the
        SDK paths. */
    method Prepare(isDir: bool, path: Option<string>) returns (r: Result<bool>)
      modifies this, config
      ensures r.Ok? <==> workspace.Some? && (isDir || config.pretend) && path.Some?
      ensures r.Ok? ==> config.otherToolsDir.Some?
      ensures workspace.None? || (!isDir && !config.pretend) ==> sourceRoot == old(sourceRoot)
      ensures workspace.Some? && (isDir || config.pretend) ==> (sourceRoot == workspace && buildRoot == workspace &&
        config.outputRoot == Some(PathJoin(workspace.value, "tarball")) &&
        config.otherToolsDir == Some(PathJoin(workspace.value, "bootstrap")))
      ensures r.Ok? ==> (
        config.sdkDir == Some(PathJoin(workspace.value, JenkinsSdkDirectoryName)) &&
        sdkSysrootDir == Some(PathJoin(config.sdkDir.value, "sysroot")) &&
        sdkBinDir == Some(SdkBinDir(config.sdkDir.value)))
      ensures config.cheriBits == old(config.cheriBits) && config.environ == old(config.environ)
      ensures skipUpdate == old(skipUpdate)
    {
      if workspace.None? {
        return Err("AttributeError");
      }
      if !isDir && !config.pretend {
        return Err("bad WORKSPACE");
      }
      var ws := workspace.value;
      SetRoots(ws);
      if path.None? {
        return Err("TypeError");
      }
      LocateSdk(ws, path.value);
      r := Ok(true);
    }

    /** The second half of `load`: the CPU mapping, `force_update`, the
        derived paths and the required-property check over the size and the
        other attributes, in attribute order `before`, the size, `after`. */
    method Finish(path: string, before: seq<Field>, after: seq<Field>) returns (r: Result<bool>)
      requires config.otherToolsDir.Some?
      modifies this, config
      ensures r.Ok? <==> ((CpuSetting(cpu).Some? || (config.pretend && old(config.cheriBits).Some?)) &&
        AllSet(before) && AllSet(after))
      ensures CpuSetting(cpu).Some? ==>
        (config.cheriBits == Some(CpuSetting(cpu).value.0) && crossCompileForMips == CpuSetting(cpu).value.1)
      ensures r.Ok? ==> (forceUpdate ==> !skipUpdate) && (!forceUpdate ==> skipUpdate == old(skipUpdate))
      ensures r.Ok? ==> (config.cheriBits.Some? &&
        config.sysrootArchiveName == Some(SysrootArchiveName(config.cheriBits.value)) &&
        config.environ == old(config.environ)["CHERI_BITS" := NatToString(config.cheriBits.value)])
      ensures sourceRoot == old(sourceRoot) && buildRoot == old(buildRoot)
      ensures sdkSysrootDir == old(sdkSysrootDir) && sdkBinDir == old(sdkBinDir)
      ensures config.outputRoot == old(config.outputRoot) && config.otherToolsDir == old(config.otherToolsDir)
      ensures config.sdkDir == old(config.sdkDir)
    {
      var fatal := ApplyCpu();
      if fatal {
        return Err("bad CPU");
      }
      if forceUpdate {
        skipUpdate := false;
      }
      var derived := config.InitializeDerivedPaths(Some(path));
      var size := Field("cheriBits", config.cheriBits.None?);
      r := EnsureRequiredPropertiesSet(before + [size] + after, []);
      if config.cheriBits.None? {
        assert Missing((before + [size] + after)[|before|], []);
      } else {
        AllSetAround(before, size, after);
      }
    }

    /** `load`, with the Jenkins SDK layout kept in fields of its own. */
    method Load(isDir: bool, path: Option<string>, before: seq<Field>, after: seq<Field>) returns (r: Result<bool>)
      modifies this, config
      ensures workspace.None? || (!isDir && !config.pretend) ==>
        (r.Err? && sourceRoot == old(sourceRoot) && config.cheriBits == old(config.cheriBits))
      ensures workspace.Some? && (isDir || config.pretend) ==> (sourceRoot == workspace && buildRoot == workspace &&
        config.outputRoot == Some(PathJoin(workspace.value, "tarball")) &&
        config.otherToolsDir == Some(PathJoin(workspace.value, "bootstrap")))
      ensures workspace.Some? && (isDir || config.pretend) && path.Some? ==> (
        config.sdkDir == Some(PathJoin(workspace.value, JenkinsSdkDirectoryName)) &&
        sdkSysrootDir == Some(PathJoin(config.sdkDir.value, "sysroot")) &&
        sdkBinDir == Some(SdkBinDir(config.sdkDir.value)))
      ensures workspace.Some? && (isDir || config.pretend) && path.Some? && CpuSetting(cpu).Some? ==>
        (config.cheriBits == Some(CpuSetting(cpu).value.0) && crossCompileForMips == CpuSetting(cpu).value.1)
      ensures r.Ok? <==> (workspace.Some? && (isDir || config.pretend) && path.Some? &&
        (CpuSetting(cpu).Some? || (config.pretend && old(config.cheriBits).Some?)) && AllSet(before) && AllSet(after))
      ensures r.Ok? ==> (forceUpdate ==> !skipUpdate) && (!forceUpdate ==> skipUpdate == old(skipUpdate))
      ensures r.Ok? ==> (config.cheriBits.Some? &&
        config.sysrootArchiveName == Some(SysrootArchiveName(config.cheriBits.value)) &&
        config.environ == old(config.environ)["CHERI_BITS" := NatToString(config.cheriBits.value)])
    {
      r := Prepare(isDir, path);
      if r.Err? {
        return;
      }
      r := Finish(path.value, before, after);
    }
  }

  /** The Jenkins sysroot is the SDK's "sysroot" directory, beside "bin". */
  lemma JenkinsSdkLayout(ws: string)
    requires ws != ""
    ensures Name(PathJoin(ws, JenkinsSdkDirectoryName)) == JenkinsSdkDirectoryName
    ensures Dir(PathJoin(PathJoin(ws, JenkinsSdkDirectoryName), "sysroot")) ==
      Dir(SdkBinDir(PathJoin(ws, JenkinsSdkDirectoryName)))
  {
    JoinChild(ws, JenkinsSdkDirectoryName);
    var sdk := PathJoin(ws, JenkinsSdkDirectoryName);
    JoinChild(sdk, "sysroot");
    JoinChild(sdk, "bin");
  }

  // ---------------------------------------------------------------------
  // The older single-class configuration (chericonfig.py)
  // ---------------------------------------------------------------------

  /** The versions the older `defaultClangTool` tries, newest first (its
      search is `Utils.LatestClangTool` over these). */
  const LegacyClangVersions: seq<(nat, nat)> := [(4, 0), (3, 9), (3, 8), (3, 7)]

  /** The fields the older `CheriConfig.__init__` derives. */
  datatype LegacyDerived = LegacyDerived(
    makeJFlag: string, cheriBitsStr: string, environ: map<string, string>,
    sdkDirectoryName: string, sdkDir: string, otherToolsDir: string,
    dollarPathWithOtherTools: string, sdkSysrootDir: string, sysrootArchiveName: string)

  /** `CheriConfig.__init__` of the older configuration; an unset PATH makes
      the concatenation raise. */
  function LegacyDerive(outputRoot: string, bits: nat, jobs: nat, environ: map<string, string>,
                        path: Option<string>): (r: Result<LegacyDerived>)
    ensures r.Ok? <==> path.Some?
  {
    if path.None? then Err("TypeError")
    else
      var bitsStr := NatToString(bits);
      var sdkName := "sdk" + bitsStr;
      var sdkDir := PathJoin(outputRoot, sdkName);
      var tools := PathJoin(outputRoot, "bootstrap");
      Ok(LegacyDerived(MakeJFlag(jobs), bitsStr, environ["CHERI_BITS" := bitsStr], sdkName, sdkDir, tools,
                       DollarPath(tools, path.value), PathJoin(sdkDir, "sysroot"), "cheri-sysroot.tar.gz"))
  }

  /** The older configuration agrees with the current one on the job flag,
      the per-size SDK directory and the tool path, but its sysroot and
      archive carry no size. */
  lemma LegacyAgreesWithCurrent(outputRoot: string, bits: nat, jobs: nat, environ: map<string, string>, path: string)
    ensures var d := LegacyDerive(outputRoot, bits, jobs, environ, Some(path)).value;
      d.makeJFlag == MakeJFlag(jobs) &&
      d.sdkDirectoryName == SdkDirectoryName(false, bits) &&
      d.sdkDir == PathJoin(outputRoot, SdkDirectoryName(false, bits)) &&
      d.dollarPathWithOtherTools == DollarPath(PathJoin(outputRoot, "bootstrap"), path) &&
      d.environ["CHERI_BITS"] == NatToString(bits) &&
      d.sysrootArchiveName != SysrootArchiveName(bits)
  {
    var d := LegacyDerive(outputRoot, bits, jobs, environ, Some(path)).value;
    var a := SysrootArchiveName(bits);
    assert |a| > |d.sysrootArchiveName|;
  }
}
