/** The `Project` base classes of `pycheribuild/project.py`: the transitive
    dependency names of a project class, the yes/no prompt, the default
    build directory, the command line `runMake` runs, the install
    environment and root, and the CMake options a `CMakeProject` passes. */
module ProjectBase {

  import opened Wrappers
  import opened Strs
  import opened Paths
  import opened Graphs
  import CombinedConfig

  /** The `dependencies` list of each project class, by target name. */
  type DepLists = map<string, seq<string>>

  function Elems(s: seq<string>): set<string> {
    set x | x in s
  }

  /** The dependency graph the lists describe. */
  function DepGraph(deps: DepLists): Graph {
    map n | n in deps :: Elems(deps[n])
  }

  /** `allDependencyNames`: each listed dependency and, recursively, the
      names of its own dependencies. The recursion only ends when no cycle
      is reachable, and each name must be a registered target. */
  method AllDependencyNames(deps: DepLists, n: string) returns (r: set<string>)
    requires Closed(DepGraph(deps)) && Acyclic(DepGraph(deps)) && n in deps
    ensures r == AllDeps(DepGraph(deps), n)
    decreases |AllDeps(DepGraph(deps), n)|
  {
    var g := DepGraph(deps);
    var list := deps[n];
    assert forall x :: x in list <==> x in g[n];
    r := {};
    var i := 0;
    assert list[..0] == [];
    while i < |list|
      invariant 0 <= i <= |list|
      invariant r == Covered(g, list[..i])
    {
      var d := list[i];
      DirectDep(g, n, d);
      CoveredNext(g, list, i);
      r := r + {d};
      var sub := AllDependencyNames(deps, d);
      r := r + sub;
      UnionAssoc(Covered(g, list[..i]), {d}, sub);
      i := i + 1;
    }
    assert list[..i] == list;
    CoveredAllDeps(g, n, list);
  }

  /** `queryYesNo`: the forced result in pretend or force mode, the default
      without a terminal; otherwise, with a yes default, any answer that does
      not start with a lower-case "n", and with a no default, an answer
      starting with "y" or "Y". */
  function QueryYesNo(c: CombinedConfig.Console, defaultResult: bool, forceResult: bool): (r: bool)
    ensures c.pretend || c.force ==> r == forceResult
    ensures !c.pretend && !c.force && !c.isatty ==> r == defaultResult
  {
    if c.pretend || c.force then forceResult
    else if !c.isatty then defaultResult
    else if defaultResult then !StartsWith(c.answer, "n")
    else StartsWith(Lower(c.answer), "y")
  }

  /** At an interactive prompt an answer starting with "y" is a yes, one
      starting with "n" a no, and an empty answer the default. */
  lemma InteractiveAnswers(c: CombinedConfig.Console, defaultResult: bool, forceResult: bool)
    requires !c.pretend && !c.force && c.isatty
    ensures StartsWith(c.answer, "y") ==> QueryYesNo(c, defaultResult, forceResult)
    ensures StartsWith(c.answer, "n") ==> !QueryYesNo(c, defaultResult, forceResult)
    ensures c.answer == "" ==> QueryYesNo(c, defaultResult, forceResult) == defaultResult
  {
    if StartsWith(c.answer, "y") {
      assert Lower(c.answer)[0] == 'y';
    }
    if StartsWith(c.answer, "n") {
      assert Lower(c.answer)[0] == 'n';
    }
  }

  /** With a yes default, the answer "No" is taken as a yes, while with a no
      default "Yes" is a yes: only the no-default branch ignores case. */
  lemma CapitalNoAccepted(forceResult: bool)
    ensures QueryYesNo(CombinedConfig.Console(false, false, true, "No"), true, forceResult)
    ensures !QueryYesNo(CombinedConfig.Console(false, false, true, "no"), true, forceResult)
    ensures QueryYesNo(CombinedConfig.Console(false, false, true, "Yes"), false, forceResult)
  {
    assert "No"[0] == 'N';
    assert Lower("Yes")[0] == 'y';
  }

  /** The prompt with the answer compared case-insensitively under both
      defaults. */
  function QueryYesNoCaseless(c: CombinedConfig.Console, defaultResult: bool, forceResult: bool): (r: bool)
    ensures c.pretend || c.force ==> r == forceResult
    ensures !c.pretend && !c.force && !c.isatty ==> r == defaultResult
  {
    if c.pretend || c.force then forceResult
    else if !c.isatty then defaultResult
    else if defaultResult then !StartsWith(Lower(c.answer), "n")
    else StartsWith(Lower(c.answer), "y")
  }

  /** With case ignored, an answer starting with "y" or "Y" is a yes and one
      starting with "n" or "N" is a no, whatever the default; the prompt
      differs from `QueryYesNo` only on answers starting with "N". */
  lemma CaselessAnswers(c: CombinedConfig.Console, defaultResult: bool, forceResult: bool)
    requires !c.pretend && !c.force && c.isatty && |c.answer| > 0
    ensures LowerChar(c.answer[0]) == 'y' ==> QueryYesNoCaseless(c, defaultResult, forceResult)
    ensures LowerChar(c.answer[0]) == 'n' ==> !QueryYesNoCaseless(c, defaultResult, forceResult)
    ensures c.answer[0] != 'N' ==>
      QueryYesNoCaseless(c, defaultResult, forceResult) == QueryYesNo(c, defaultResult, forceResult)
  {
    var l := Lower(c.answer);
    assert l[0] == LowerChar(c.answer[0]);
    if defaultResult && c.answer[0] != 'N' {
      assert StartsWith(l, "n") <==> StartsWith(c.answer, "n");
    }
  }

  /** The architecture a configuration builds for. */
  datatype CrossTarget = Native | Mips | Cheri

  /** The suffix `_defaultBuildDir` gives the build directory name, so that
      builds for different targets and capability sizes are kept apart. */
  function BuildDirSuffix(target: CrossTarget, cheriBitsStr: string): (r: string)
    ensures EndsWith(r, "-build") && StartsWith(r, "-")
  {
    match target
    case Native => "-build"
    case Mips => "-mips-build"
    case Cheri => "-" + cheriBitsStr + "-build"
  }

  /** Two configurations get the same suffix only when they are the same
      target and, for CHERI, the same capability size written in digits. */
  lemma BuildDirSuffixDistinct(t1: CrossTarget, b1: string, t2: CrossTarget, b2: string)
    requires forall i :: 0 <= i < |b1| ==> IsDigit(b1[i])
    requires forall i :: 0 <= i < |b2| ==> IsDigit(b2[i])
    requires |b1| > 0 && |b2| > 0
    ensures BuildDirSuffix(t1, b1) == BuildDirSuffix(t2, b2) ==> t1 == t2 && (t1 == Cheri ==> b1 == b2)
  {
    var s1, s2 := BuildDirSuffix(t1, b1), BuildDirSuffix(t2, b2);
    if t1 == Cheri && t2 == Cheri && s1 == s2 {
      assert b1 == s1[1..|s1| - 6] && b2 == s2[1..|s2| - 6];
    } else if t1 != t2 {
      assert |s1| != |s2| || s1[1] != s2[1];
    }
  }

  /** `_defaultBuildDir`: the lower-cased project name with the target's
      suffix, under the build root. */
  function DefaultBuildDir(buildRoot: string, projectName: string, target: CrossTarget, cheriBitsStr: string): (r: string)
    ensures EndsWith(r, BuildDirSuffix(target, cheriBitsStr))
    ensures buildRoot != "" && !IsAbsolute(projectName) ==> StartsWith(r, buildRoot)
  {
    var s := BuildDirSuffix(target, cheriBitsStr);
    var name := Lower(projectName) + s;
    EndsWithAppend(Lower(projectName), s);
    assert |projectName| > 0 ==> name[0] == LowerChar(projectName[0]);
    var r := PathJoin(buildRoot, name);
    assert !IsAbsolute(name) && buildRoot != "" ==> EndsWith(r, s) by {
      if !IsAbsolute(name) && buildRoot != "" {
        EndsWithTrans(r, name, s);
      }
    }
    r
  }

  lemma EndsWithAppend(a: string, s: string)
    ensures EndsWith(a + s, s)
  {
    assert (a + s)[|a|..] == s;
  }

  lemma EndsWithTrans(a: string, b: string, c: string)
    requires EndsWith(a, b) && EndsWith(b, c)
    ensures EndsWith(a, c)
  {
    assert a[|a| - |c|..] == a[|a| - |b|..][|b| - |c|..];
  }

  /** The configuration settings `runMake` consults. */
  datatype MakeConfig = MakeConfig(createCompilationDB: bool, compileDBRequiresBear: bool,
                                   makeWithoutNice: bool, verbose: bool, passDashKToMake: bool)

  /** "nice" unless make is to run without it. */
  function NicePrefix(c: MakeConfig): seq<string> {
    if c.makeWithoutNice then [] else ["nice"]
  }

  /** The `bear` invocation that records a compilation database, when one is
      wanted and the build system cannot write it itself. */
  function BearPrefix(c: MakeConfig, bear: string, buildDir: string, dbName: string): seq<string> {
    if c.createCompilationDB && c.compileDBRequiresBear then [bear, "--cdb", PathJoin(buildDir, dbName), "--append"]
    else []
  }

  /** The make target, if one is given. */
  function TargetArgs(target: string): seq<string> {
    if target == "" then [] else [target]
  }

  /** The flags after the target: "-v" for a verbose ninja build, then "-k"
      to keep going, which ninja wants followed by the number of failures. */
  function TrailingFlags(c: MakeConfig, make: string): seq<string> {
    (if c.verbose && make == "ninja" then ["-v"] else [])
    + (if c.passDashKToMake then ["-k"] + (if make == "ninja" then ["50"] else []) else [])
  }

  /** The command line of a make run, piece by piece. */
  function MakeArgv(c: MakeConfig, bear: string, buildDir: string, dbName: string,
                    make: string, args: seq<string>, target: string): (r: seq<string>)
    ensures make in r && (target != "" ==> target in r)
    ensures forall a :: a in args ==> a in r
  {
    NicePrefix(c) + (BearPrefix(c, bear, buildDir, dbName) + ([make] + (args + TargetArgs(target)))) + TrailingFlags(c, make)
  }

  /** Where the leading pieces sit: "nice" first unless disabled, the make
      command after the optional `bear` prefix, the arguments right after it,
      then the target. */
  lemma MakeArgvFront(c: MakeConfig, bear: string, buildDir: string, dbName: string,
                      make: string, args: seq<string>, target: string)
    ensures var argv := MakeArgv(c, bear, buildDir, dbName, make, args, target);
      !c.makeWithoutNice ==> argv[0] == "nice"
    ensures var argv := MakeArgv(c, bear, buildDir, dbName, make, args, target);
      var k := |NicePrefix(c)| + |BearPrefix(c, bear, buildDir, dbName)|;
      k + 1 + |args| <= |argv| && argv[k] == make && argv[k + 1..k + 1 + |args|] == args
    ensures var argv := MakeArgv(c, bear, buildDir, dbName, make, args, target);
      var k := |NicePrefix(c)| + |BearPrefix(c, bear, buildDir, dbName)| + 1 + |args|;
      target != "" ==> k < |argv| && argv[k] == target
  {
    Pieces(NicePrefix(c), BearPrefix(c, bear, buildDir, dbName), make, args, TargetArgs(target), TrailingFlags(c, make));
  }

  /** The positions of the pieces of a command line laid out like `MakeArgv`. */
  lemma Pieces(nice: seq<string>, bear: seq<string>, make: string, args: seq<string>, t: seq<string>, f: seq<string>)
    ensures var argv := nice + (bear + ([make] + (args + t))) + f;
      var k := |nice| + |bear|;
      k + 1 + |args| <= |argv| && argv[k] == make && argv[k + 1..k + 1 + |args|] == args
      && (|nice| > 0 ==> argv[0] == nice[0])
      && (|t| > 0 ==> k + 1 + |args| < |argv| && argv[k + 1 + |args|] == t[0])
  {
    var argv := nice + (bear + ([make] + (args + t))) + f;
    var k := |nice| + |bear|;
    assert argv == (nice + bear) + [make] + args + t + f;
    assert argv[k + 1..k + 1 + |args|] == args;
  }

  /** The pieces at the end: "-k" last, or "-k" then "50" for ninja, and
      with neither "-k" nor "-v" the target last. */
  lemma MakeArgvEnd(c: MakeConfig, bear: string, buildDir: string, dbName: string,
                    make: string, args: seq<string>, target: string)
    ensures var argv := MakeArgv(c, bear, buildDir, dbName, make, args, target);
      c.passDashKToMake && make == "ninja" ==> |argv| >= 2 && argv[|argv| - 2..] == ["-k", "50"]
    ensures var argv := MakeArgv(c, bear, buildDir, dbName, make, args, target);
      c.passDashKToMake && make != "ninja" ==> argv[|argv| - 1] == "-k"
    ensures var argv := MakeArgv(c, bear, buildDir, dbName, make, args, target);
      !c.passDashKToMake && !(c.verbose && make == "ninja") && target != "" ==> argv[|argv| - 1] == target
  {
    var front := NicePrefix(c) + (BearPrefix(c, bear, buildDir, dbName) + ([make] + (args + TargetArgs(target))));
    TrailingEnd(c, make, front);
  }

  /** What a command line followed by the trailing flags ends with. */
  lemma TrailingEnd(c: MakeConfig, make: string, front: seq<string>)
    ensures var argv := front + TrailingFlags(c, make);
      c.passDashKToMake && make == "ninja" ==> |argv| >= 2 && argv[|argv| - 2..] == ["-k", "50"]
    ensures var argv := front + TrailingFlags(c, make);
      c.passDashKToMake && make != "ninja" ==> argv[|argv| - 1] == "-k"
    ensures var argv := front + TrailingFlags(c, make);
      !c.passDashKToMake && !(c.verbose && make == "ninja") && |front| > 0 ==> argv[|argv| - 1] == front[|front| - 1]
  {
    var tail := TrailingFlags(c, make);
    var argv := front + tail;
    assert |tail| > 0 ==> argv[|argv| - 1] == tail[|tail| - 1];
    if c.passDashKToMake && make == "ninja" {
      assert argv[|argv| - 2..] == tail[|tail| - 2..];
    }
    if !c.passDashKToMake && !(c.verbose && make == "ninja") {
      assert tail == [];
    }
  }

  /** `runMake` as far as the command it runs and its log file: an empty
      `makeCommand` or `logfileName` stands for the project's make command
      and the name derived from it. */
  method RunMake(c: MakeConfig, projectMake: string, bear: string, buildDir: string, args: seq<string>,
                 makeTarget: string, makeCommand: string, logfileName: string, compilationDbName: string)
    returns (argv: seq<string>, logName: string)
    ensures argv == MakeArgv(c, bear, buildDir, compilationDbName,
                             if makeCommand == "" then projectMake else makeCommand, args, makeTarget)
    ensures logName == LogName(if makeCommand == "" then projectMake else makeCommand, makeTarget, logfileName)
  {
    var make := if makeCommand == "" then projectMake else makeCommand;
    logName := LogFileName(make, makeTarget, logfileName);
    var allArgs: seq<string>;
    if makeTarget != "" {
      allArgs := args + [makeTarget];
    } else {
      allArgs := args;
      assert allArgs == args + [];
    }
    allArgs := [make] + allArgs;
    if c.createCompilationDB && c.compileDBRequiresBear {
      allArgs := [bear, "--cdb", PathJoin(buildDir, compilationDbName), "--append"] + allArgs;
    } else {
      assert allArgs == [] + allArgs;
    }
    if !c.makeWithoutNice {
      allArgs := ["nice"] + allArgs;
    } else {
      assert allArgs == [] + allArgs;
    }
    argv := AppendTrailingFlags(c, make, allArgs);
  }

  /** The flags `runMake` appends after the target. */
  method AppendTrailingFlags(c: MakeConfig, make: string, front: seq<string>) returns (allArgs: seq<string>)
    ensures allArgs == front + TrailingFlags(c, make)
  {
    allArgs := front;
    if c.verbose && make == "ninja" {
      allArgs := allArgs + ["-v"];
    }
    ghost var mid := allArgs;
    if c.passDashKToMake {
      allArgs := allArgs + ["-k"];
      if make == "ninja" {
        allArgs := allArgs + ["50"];
      }
    }
    assert allArgs == mid + (if c.passDashKToMake then ["-k"] + (if make == "ninja" then ["50"] else []) else []);
  }

  /** The log file name `runMake` picks when none is given. */
  method LogFileName(make: string, makeTarget: string, logfileName: string) returns (logName: string)
    ensures logName == LogName(make, makeTarget, logfileName)
  {
    logName := logfileName;
    if makeTarget != "" {
      if logName == "" {
        logName := Name(make) + "." + makeTarget;
      }
    } else if logName == "" {
      logName := Name(make);
    }
  }

  /** The log file of a make run: the one asked for, else the base name of
      the make command with the target after a dot. */
  function LogName(make: string, target: string, logfileName: string): (r: string)
    ensures logfileName != "" ==> r == logfileName
    ensures logfileName == "" && '/' !in target ==> '/' !in r
    ensures logfileName == "" ==> StartsWith(r, Name(make))
  {
    if logfileName != "" then logfileName
    else if target != "" then
      var r := Name(make) + "." + target;
      assert forall i :: |Name(make)| + 1 <= i < |r| ==> r[i] == target[i - |Name(make)| - 1];
      r
    else Name(make)
  }

  /** `makeInstallEnv`: with a destination directory (a `Path`, so any value
      but `None` is set) a copy of the environment with DESTDIR set to it,
      otherwise `None`. */
  function MakeInstallEnv(environ: map<string, string>, destdir: Option<string>): (r: Option<map<string, string>>)
    ensures r.Some? <==> destdir.Some?
    ensures r.Some? ==> r.value.Keys == environ.Keys + {"DESTDIR"} && r.value["DESTDIR"] == destdir.value
    ensures r.Some? ==> forall k :: k in environ && k != "DESTDIR" ==> r.value[k] == environ[k]
  {
    if destdir.Some? then Some(environ["DESTDIR" := destdir.value]) else None
  }

  /** `real_install_root_dir`: the install prefix re-rooted under the
      destination directory when there is one (the prefix must be set and
      absolute, or the assertion or `relative_to` fails), else the install
      directory. */
  function RealInstallRootDir(destdir: Option<string>, installPrefix: Option<string>, installDir: string): (r: Result<string>)
    ensures destdir.None? ==> r == Ok(installDir)
    ensures destdir.Some? ==> (r.Ok? <==> installPrefix.Some? && IsAbsolute(installPrefix.value))
  {
    if destdir.None? then Ok(installDir)
    else if installPrefix.None? then Err("assertion: installPrefix is not set")
    else if !IsAbsolute(installPrefix.value) then Err("the install prefix is not relative to /")
    else
      var rel := installPrefix.value[1..];
      if rel == "" then Ok(destdir.value) else Ok(PathJoin(destdir.value, rel))
  }

  /** A destination directory written without a trailing slash, and an
      install prefix like "/usr/local", give the destination directory
      followed by the prefix. */
  lemma ReRootedPrefix(destdir: string, prefix: string, installDir: string)
    requires destdir != "" && !EndsWith(destdir, "/")
    requires IsAbsolute(prefix) && |prefix| > 1 && prefix[1] != '/'
    ensures RealInstallRootDir(Some(destdir), Some(prefix), installDir) == Ok(destdir + prefix)
  {
    var rel := prefix[1..];
    assert !IsAbsolute(rel);
    assert PathJoin(destdir, rel) == destdir + "/" + rel;
    assert destdir + "/" + rel == destdir + prefix;
  }

  /** A value passed to `add_cmake_options`: booleans are written ON/OFF,
      anything else as its `str()`. */
  datatype CMakeValue = Flag(b: bool) | Text(s: string)

  function Render(v: CMakeValue): (r: string)
    ensures v.Flag? ==> (r == "ON" <==> v.b) && (r == "OFF" <==> !v.b)
    ensures v.Text? ==> r == v.s
  {
    match v
    case Flag(b) => if b then "ON" else "OFF"
    case Text(s) => s
  }

  /** The "-D" definition of one CMake option. */
  function Define(option: string, v: CMakeValue): string {
    "-D" + option + "=" + Render(v)
  }

  /** The definitions of the options, in the order the keyword arguments are given. */
  function CMakeFlags(opts: seq<(string, CMakeValue)>): seq<string>
    decreases |opts|
  {
    if |opts| == 0 then [] else [Define(opts[0].0, opts[0].1)] + CMakeFlags(opts[1..])
  }

  /** One definition per option, each in its position. */
  lemma {:induction false} CMakeFlagsAt(opts: seq<(string, CMakeValue)>)
    ensures |CMakeFlags(opts)| == |opts|
    ensures forall i :: 0 <= i < |opts| ==> CMakeFlags(opts)[i] == Define(opts[i].0, opts[i].1)
    decreases |opts|
  {
    if |opts| > 0 {
      CMakeFlagsAt(opts[1..]);
    }
  }

  /** The flags of two batches of options are the flags of the first then the second. */
  lemma {:induction false} CMakeFlagsAppend(a: seq<(string, CMakeValue)>, b: seq<(string, CMakeValue)>)
    ensures CMakeFlags(a + b) == CMakeFlags(a) + CMakeFlags(b)
    decreases |a|
  {
    if |a| > 0 {
      assert (a + b)[1..] == a[1..] + b;
      CMakeFlagsAppend(a[1..], b);
    } else {
      assert a + b == b;
    }
  }

  /** The CMake generator a project uses. */
  datatype Generator = DefaultGenerator | Ninja | Makefiles

  /** The arguments of a CMake project's configure step and its make command. */
  class CMakeProject {
    var configureArgs: seq<string>
    var makeCommand: string

    /** `CMakeProject.__init__`: the source directory, the generator, the
        build type and, for a compilation database, the CMake switch that
        writes it. */
    constructor(sourceDir: string, generator: Generator, buildType: string, createCompilationDB: bool, make: string)
      ensures configureArgs == [sourceDir]
        + (if generator == Ninja then ["-GNinja"] else if generator == Makefiles then ["-GUnix Makefiles"] else [])
        + ["-DCMAKE_BUILD_TYPE=" + buildType]
        + (if createCompilationDB then ["-DCMAKE_EXPORT_COMPILE_COMMANDS=ON"] else [])
      ensures makeCommand == if generator == Ninja then "ninja" else make
    {
      configureArgs := [sourceDir];
      makeCommand := make;
      if generator == Ninja {
        configureArgs := configureArgs + ["-GNinja"];
        makeCommand := "ninja";
      }
      if generator == Makefiles {
        configureArgs := configureArgs + ["-GUnix Makefiles"];
      }
      configureArgs := configureArgs + ["-DCMAKE_BUILD_TYPE=" + buildType];
      if createCompilationDB {
        configureArgs := configureArgs + ["-DCMAKE_EXPORT_COMPILE_COMMANDS=ON"];
      }
    }

    /** `add_cmake_options`: one definition per option appended, in order. */
    method AddCMakeOptions(opts: seq<(string, CMakeValue)>)
      modifies this
      ensures configureArgs == old(configureArgs) + CMakeFlags(opts)
      ensures makeCommand == old(makeCommand)
    {
      var i := 0;
      while i < |opts|
        invariant 0 <= i <= |opts|
        invariant configureArgs == old(configureArgs) + CMakeFlags(opts[..i])
        invariant makeCommand == old(makeCommand)
      {
        CMakeFlagsAppend(opts[..i], [opts[i]]);
        assert opts[..i + 1] == opts[..i] + [opts[i]];
        configureArgs := configureArgs + ["-D" + opts[i].0 + "=" + Render(opts[i].1)];
        i := i + 1;
      }
      assert opts[..i] == opts;
    }
  }
}
