/** The LLVM project of `pycheribuild/projects/llvm.py`: its tool
    repositories, the CMake options its constructor adds, and the check of
    the host compiler that builds it. */
module LLVM {

  import opened Wrappers
  import opened Strs
  import PB = ProjectBase
  import Utils

  // ---------------------------------------------------------------------
  // Configuration options
  // ---------------------------------------------------------------------

  const GithubBaseUrl := "https://github.com/CTSRD-CHERI/"

  /** The options `addToolOptions` registers for one tool: its revision
      option, its repository option and the repository's default. */
  datatype ToolOptions = ToolOptions(revisionOption: string, repositoryOption: string, defaultRepository: string)

  /** `addToolOptions(name)`. */
  function AddToolOptions(name: string): (r: ToolOptions)
    ensures StartsWith(r.revisionOption, name) && StartsWith(r.repositoryOption, name)
    ensures StartsWith(r.defaultRepository, GithubBaseUrl) && EndsWith(r.defaultRepository, ".git")
  {
    ToolOptions(name + "-git-revision", name + "-repository", GithubBaseUrl + name + ".git")
  }

  /** The tools that get options, in the order `setupConfigOptions`
      registers them. */
  function ToolsWithOptions(includeClang: bool, includeLldb: bool, includeLld: bool): (r: seq<string>)
    ensures |r| <= 3
  {
    (if includeClang then ["clang"] else []) + (if includeLld then ["lld"] else []) +
    (if includeLldb then ["lldb"] else [])
  }

  /** The default repository of a tool names the tool between the CHERI
      project's GitHub URL and ".git", so distinct tools get distinct
      repositories, and its two options are distinct. */
  lemma ToolRepositoriesDistinct(a: string, b: string)
    ensures AddToolOptions(a).defaultRepository[|GithubBaseUrl|..|GithubBaseUrl| + |a|] == a
    ensures AddToolOptions(a).defaultRepository == AddToolOptions(b).defaultRepository ==> a == b
    ensures AddToolOptions(a).revisionOption != AddToolOptions(a).repositoryOption
  {
    var ra, rb := AddToolOptions(a).defaultRepository, AddToolOptions(b).defaultRepository;
    assert ra[|GithubBaseUrl|..|GithubBaseUrl| + |a|] == a;
    if ra == rb {
      assert |a| == |b|;
      assert rb[|GithubBaseUrl|..|GithubBaseUrl| + |b|] == b;
    }
    CharAfter(a, "-git-revision", 1);
    CharAfter(a, "-repository", 1);
  }

  lemma CharAfter(a: string, rest: string, k: nat)
    requires k < |rest|
    ensures (a + rest)[|a| + k] == rest[k]
  {
  }

  /** Without a default sysroot option, `no_default_sysroot` is forced on;
      an unset `appendCheriBitsToBuildDir` becomes true. */
  function NoDefaultSysroot(useDefaultSysroot: bool, option: bool): (r: bool)
    ensures !useDefaultSysroot ==> r
  {
    if useDefaultSysroot then option else true
  }

  function AppendCheriBitsToBuildDir(declared: Option<bool>): (r: bool)
    ensures declared.Some? ==> r == declared.value
  {
    if declared.None? then true else declared.value
  }

  // ---------------------------------------------------------------------
  // The CMake options of the constructor
  // ---------------------------------------------------------------------

  /** What the constructor reads: the compilers, the option values, whether
      the compiler links with lld, the sysroot, the user's CMake options and
      the capability size. */
  datatype Settings = Settings(
    cCompiler: string, cppCompiler: string, skipLld: bool, canUseLld: bool, noDefaultSysroot: bool,
    sdkSysrootDir: string, enableAssertions: bool, userCMakeOptions: seq<string>, cheriBits: nat,
    appendCheriBitsToBuildDir: bool)

  /** The options every build gets first. */
  function BaseOptions(s: Settings): seq<(string, PB.CMakeValue)> {
    [("CMAKE_CXX_COMPILER", PB.Text(s.cppCompiler)), ("CMAKE_C_COMPILER", PB.Text(s.cCompiler)),
     ("LLVM_TOOL_LLDB_BUILD", PB.Flag(false)), ("LLVM_TOOL_LLD_BUILD", PB.Flag(!s.skipLld)),
     ("LLVM_PARALLEL_LINK_JOBS", PB.Text("4"))]
  }

  function LldOptions(s: Settings): seq<(string, PB.CMakeValue)> {
    if s.canUseLld then [("LLVM_ENABLE_LLD", PB.Flag(true))] else []
  }

  function SysrootOptions(s: Settings): seq<(string, PB.CMakeValue)> {
    if !s.noDefaultSysroot then
      [("DEFAULT_SYSROOT", PB.Text(s.sdkSysrootDir)), ("LLVM_DEFAULT_TARGET_TRIPLE", PB.Text("cheri-unknown-freebsd"))]
    else []
  }

  /** The assertions switch is left to the user when their CMake options
      mention it. */
  function AssertionOptions(s: Settings): seq<(string, PB.CMakeValue)> {
    if !Contains(Concat(s.userCMakeOptions), "LLVM_ENABLE_ASSERTIONS") then
      [("LLVM_ENABLE_ASSERTIONS", PB.Flag(s.enableAssertions))]
    else []
  }

  function Cheri128Options(s: Settings): seq<(string, PB.CMakeValue)> {
    if s.cheriBits == 128 && s.appendCheriBitsToBuildDir then [("LLVM_CHERI_IS_128", PB.Flag(true))] else []
  }

  /** All options the constructor adds, in order. */
  function LLVMOptions(s: Settings): (r: seq<(string, PB.CMakeValue)>)
  {
    BaseOptions(s) + LldOptions(s) + SysrootOptions(s) + [("LLVM_OPTIMIZED_TABLEGEN", PB.Flag(false))] +
    AssertionOptions(s) + Cheri128Options(s)
  }

  /** Whether `opts` sets `name` to `v`. */
  predicate Sets(opts: seq<(string, PB.CMakeValue)>, name: string, v: PB.CMakeValue) {
    (name, v) in opts
  }

  /** The names of the options, in order. */
  function Names(opts: seq<(string, PB.CMakeValue)>): (r: seq<string>)
    ensures |r| == |opts|
  {
    seq(|opts|, i requires 0 <= i < |opts| => opts[i].0)
  }

  lemma NamesAppend(a: seq<(string, PB.CMakeValue)>, b: seq<(string, PB.CMakeValue)>)
    ensures Names(a + b) == Names(a) + Names(b)
  {
  }

  /** lld is built unless skipped, lldb never. */
  lemma ToolBuildOptions(s: Settings)
    ensures Sets(LLVMOptions(s), "LLVM_TOOL_LLD_BUILD", PB.Flag(!s.skipLld))
    ensures Sets(LLVMOptions(s), "LLVM_TOOL_LLDB_BUILD", PB.Flag(false))
  {
    assert LLVMOptions(s)[3] == ("LLVM_TOOL_LLD_BUILD", PB.Flag(!s.skipLld));
    assert LLVMOptions(s)[2] == ("LLVM_TOOL_LLDB_BUILD", PB.Flag(false));
  }

  /** The option names, group by group. */
  lemma NamesOfOptions(s: Settings)
    ensures Names(LLVMOptions(s)) ==
      ["CMAKE_CXX_COMPILER", "CMAKE_C_COMPILER", "LLVM_TOOL_LLDB_BUILD", "LLVM_TOOL_LLD_BUILD",
       "LLVM_PARALLEL_LINK_JOBS"] +
      (if s.canUseLld then ["LLVM_ENABLE_LLD"] else []) +
      (if !s.noDefaultSysroot then ["DEFAULT_SYSROOT", "LLVM_DEFAULT_TARGET_TRIPLE"] else []) +
      ["LLVM_OPTIMIZED_TABLEGEN"] +
      (if !Contains(Concat(s.userCMakeOptions), "LLVM_ENABLE_ASSERTIONS") then ["LLVM_ENABLE_ASSERTIONS"] else []) +
      (if s.cheriBits == 128 && s.appendCheriBitsToBuildDir then ["LLVM_CHERI_IS_128"] else [])
  {
    var g1, g2, g3 := BaseOptions(s), LldOptions(s), SysrootOptions(s);
    var g4, g5, g6 := [("LLVM_OPTIMIZED_TABLEGEN", PB.Flag(false))], AssertionOptions(s), Cheri128Options(s);
    assert Names(g1) == ["CMAKE_CXX_COMPILER", "CMAKE_C_COMPILER", "LLVM_TOOL_LLDB_BUILD", "LLVM_TOOL_LLD_BUILD",
                         "LLVM_PARALLEL_LINK_JOBS"];
    assert Names(g2) == if s.canUseLld then ["LLVM_ENABLE_LLD"] else [];
    assert Names(g3) == if !s.noDefaultSysroot then ["DEFAULT_SYSROOT", "LLVM_DEFAULT_TARGET_TRIPLE"] else [];
    assert Names(g4) == ["LLVM_OPTIMIZED_TABLEGEN"];
    assert Names(g5) ==
      if !Contains(Concat(s.userCMakeOptions), "LLVM_ENABLE_ASSERTIONS") then ["LLVM_ENABLE_ASSERTIONS"] else [];
    assert Names(g6) == if s.cheriBits == 128 && s.appendCheriBitsToBuildDir then ["LLVM_CHERI_IS_128"] else [];
    NamesAppend(g1, g2);
    NamesAppend(g1 + g2, g3);
    NamesAppend(g1 + g2 + g3, g4);
    NamesAppend(g1 + g2 + g3 + g4, g5);
    NamesAppend(g1 + g2 + g3 + g4 + g5, g6);
  }

  /** The default sysroot and triple are set exactly when the default
      sysroot is not switched off, the sysroot to the SDK's. */
  lemma SysrootOptionsSet(s: Settings)
    ensures "DEFAULT_SYSROOT" in Names(LLVMOptions(s)) <==> !s.noDefaultSysroot
    ensures "LLVM_DEFAULT_TARGET_TRIPLE" in Names(LLVMOptions(s)) <==> !s.noDefaultSysroot
  {
    NamesOfOptions(s);
  }

  lemma SysrootValue(s: Settings)
    requires !s.noDefaultSysroot
    ensures Sets(LLVMOptions(s), "DEFAULT_SYSROOT", PB.Text(s.sdkSysrootDir))
  {
    assert LLVMOptions(s)[|BaseOptions(s) + LldOptions(s)|] == SysrootOptions(s)[0];
  }

  /** The assertions switch is set exactly when the user's CMake options do
      not mention it. */
  lemma AssertionsOptionSet(s: Settings)
    ensures "LLVM_ENABLE_ASSERTIONS" in Names(LLVMOptions(s)) <==>
      !Contains(Concat(s.userCMakeOptions), "LLVM_ENABLE_ASSERTIONS")
  {
    NamesOfOptions(s);
  }

  /** lld links LLVM exactly when the compiler can use it. */
  lemma LldOptionSet(s: Settings)
    ensures "LLVM_ENABLE_LLD" in Names(LLVMOptions(s)) <==> s.canUseLld
  {
    NamesOfOptions(s);
  }

  /** `LLVM_CHERI_IS_128` is set only for 128-bit builds in per-size build
      directories. */
  lemma Cheri128Option(s: Settings)
    ensures "LLVM_CHERI_IS_128" in Names(LLVMOptions(s)) <==> s.cheriBits == 128 && s.appendCheriBitsToBuildDir
  {
    NamesOfOptions(s);
  }

  /** The flags of the options added so far, then those of one more group. */
  lemma Extend(a0: seq<string>, done: seq<(string, PB.CMakeValue)>, g: seq<(string, PB.CMakeValue)>)
    ensures a0 + PB.CMakeFlags(done) + PB.CMakeFlags(g) == a0 + PB.CMakeFlags(done + g)
  {
    PB.CMakeFlagsAppend(done, g);
  }

  /** The constructor's option additions on the project's CMake arguments. */
  method AddLLVMOptions(cmake: PB.CMakeProject, s: Settings)
    modifies cmake
    ensures cmake.configureArgs == old(cmake.configureArgs) + PB.CMakeFlags(LLVMOptions(s))
    ensures cmake.makeCommand == old(cmake.makeCommand)
  {
    ghost var a0 := cmake.configureArgs;
    cmake.AddCMakeOptions(BaseOptions(s));
    ghost var d1 := BaseOptions(s);
    AddPart(cmake, a0, d1, LldOptions(s), s.canUseLld);
    ghost var d2 := d1 + LldOptions(s);
    AddPart(cmake, a0, d2, SysrootOptions(s), !s.noDefaultSysroot);
    ghost var d3 := d2 + SysrootOptions(s);
    AddPart(cmake, a0, d3, [("LLVM_OPTIMIZED_TABLEGEN", PB.Flag(false))], true);
    ghost var d4 := d3 + [("LLVM_OPTIMIZED_TABLEGEN", PB.Flag(false))];
    AddPart(cmake, a0, d4, AssertionOptions(s), !Contains(Concat(s.userCMakeOptions), "LLVM_ENABLE_ASSERTIONS"));
    ghost var d5 := d4 + AssertionOptions(s);
    AddPart(cmake, a0, d5, Cheri128Options(s), s.cheriBits == 128 && s.appendCheriBitsToBuildDir);
    assert d5 + Cheri128Options(s) == LLVMOptions(s);
  }

  /** One guarded `add_cmake_options` call of the constructor: the options
      are added when the guard holds, and are empty when it does not. */
  method AddPart(cmake: PB.CMakeProject, ghost a0: seq<string>, ghost done: seq<(string, PB.CMakeValue)>,
                 part: seq<(string, PB.CMakeValue)>, add: bool)
    requires add || part == []
    requires cmake.configureArgs == a0 + PB.CMakeFlags(done)
    modifies cmake
    ensures cmake.configureArgs == a0 + PB.CMakeFlags(done + part)
    ensures cmake.makeCommand == old(cmake.makeCommand)
  {
    if add {
      cmake.AddCMakeOptions(part);
    } else {
      assert done + part == done;
    }
    Extend(a0, done, part);
  }

  // ---------------------------------------------------------------------
  // checkClangVersion
  // ---------------------------------------------------------------------

  /** Python's ordering of version triples. */
  predicate VersionLess(a: (nat, nat, nat), b: (nat, nat, nat)) {
    a.0 < b.0 || (a.0 == b.0 && (a.1 < b.1 || (a.1 == b.1 && a.2 < b.2)))
  }

  /** The version order is a strict total order. */
  lemma VersionOrder(a: (nat, nat, nat), b: (nat, nat, nat), c: (nat, nat, nat))
    ensures !VersionLess(a, a)
    ensures VersionLess(a, b) && VersionLess(b, c) ==> VersionLess(a, c)
    ensures a != b ==> VersionLess(a, b) != VersionLess(b, a)
  {
  }

  /** The outcome of `checkClangVersion`. */
  datatype ClangCheck = Accepted | Warned | DependencyError(reason: string)

  /** `checkClangVersion`: missing compilers and compilers other than
      Apple's clang, GCC and a recent enough clang are a dependency error;
      GCC older than 5.0.0 only draws a warning. */
  function CheckClangVersion(haveCCompiler: bool, haveCppCompiler: bool, info: Utils.CompilerInfo,
                             required: (nat, nat, nat)): (r: ClangCheck)
    ensures !haveCCompiler || !haveCppCompiler ==> r.DependencyError?
  {
    if !haveCCompiler || !haveCppCompiler then DependencyError("Could not find clang")
    else if info.compiler == "apple-clang" then Accepted
    else if info.compiler == "gcc" then (if VersionLess(info.version, (5, 0, 0)) then Warned else Accepted)
    else if info.compiler != "clang" || VersionLess(info.version, required) then
      DependencyError("version is not supported")
    else Accepted
  }

  /** With both compilers present: Apple's clang is always accepted, GCC is
      never rejected and is warned about exactly below 5.0.0, and clang is
      accepted exactly from the required version; any other compiler is
      rejected. */
  lemma ClangVersionVerdicts(info: Utils.CompilerInfo, required: (nat, nat, nat))
    ensures info.compiler == "apple-clang" ==> CheckClangVersion(true, true, info, required) == Accepted
    ensures info.compiler == "gcc" ==>
      (CheckClangVersion(true, true, info, required) == Warned <==> VersionLess(info.version, (5, 0, 0))) &&
      !CheckClangVersion(true, true, info, required).DependencyError?
    ensures info.compiler == "clang" ==>
      (CheckClangVersion(true, true, info, required) == Accepted <==> !VersionLess(info.version, required))
    ensures info.compiler !in {"apple-clang", "gcc", "clang"} ==>
      CheckClangVersion(true, true, info, required).DependencyError?
  {
  }
}
