/** The early stand-alone script that builds QEMU, binutils, LLVM and CheriBSD,
    makes a disk image and starts the emulator: its command runner, the
    directory cleaner, the fatal-error handler, the per-project build steps,
    the target selection and the `-j` flag. */
module BuildForQemu {
  import opened Wrappers
  import opened Strs
  import Shlex
  import Paths

  /** The command-line options the script reads. */
  datatype Options = Options(clean: bool, pretend: bool, skipUpdate: bool, skipConfigure: bool,
                             makeJobs: Option<int>, targets: seq<string>)

  /** One positional argument of `runCmd`: one word (a `str` or a `Path`) or a whole list. */
  datatype Arg = Word(text: string) | WordList(items: seq<string>)

  /** A command line and the directory it runs in. */
  datatype Command = Command(argv: seq<string>, cwd: string)

  function Texts(args: seq<Arg>): (r: seq<string>)
    requires forall i :: 0 <= i < |args| ==> args[i].Word?
    ensures |r| == |args| && forall i :: 0 <= i < |args| ==> r[i] == args[i].text
  {
    seq(|args|, i requires 0 <= i < |args| => args[i].text)
  }

  /** `runCmd(*args)`: separate words are the command line themselves, a list
      passed first is the command line and the other arguments are ignored. */
  function CommandLine(args: seq<Arg>): (r: seq<string>)
    requires |args| > 0
    requires args[0].Word? ==> forall i :: 0 <= i < |args| ==> args[i].Word?
    ensures args[0].WordList? ==> r == args[0].items
    ensures args[0].Word? ==> |r| == |args| && forall i :: 0 <= i < |args| ==> r[i] == args[i].text
  {
    if args[0].WordList? then args[0].items else Texts(args)
  }

  /** Passing the words one by one and passing them as one list run the same command. */
  lemma WordsOrList(words: seq<string>, rest: seq<Arg>)
    requires |words| > 0
    ensures CommandLine(Words(words)) == CommandLine([WordList(words)] + rest) == words
  {
  }

  const Yellow := "\U{1b}[1;33m"
  const Reset := "\U{1b}[0m"

  function QuoteAll(words: seq<string>): (r: seq<string>)
    ensures |r| == |words| && forall i :: 0 <= i < |words| ==> r[i] == Shlex.Quote(words[i])
  {
    seq(|words|, i requires 0 <= i < |words| => Shlex.Quote(words[i]))
  }

  /** The line `runCmd` prints: the directory and the shell-quoted command in bold yellow. */
  function EchoLine(c: Command): (r: string)
    ensures StartsWith(r, Yellow + "cd " + Shlex.Quote(c.cwd) + " && ")
    ensures EndsWith(r, Reset)
  {
    var pre := Yellow + "cd " + Shlex.Quote(c.cwd) + " && ";
    var line := pre + Join(" ", QuoteAll(c.argv)) + Reset;
    assert line[..|pre|] == pre;
    assert line[|line| - |Reset|..] == Reset;
    line
  }

  /** The printed line names the directory the command runs in, quoted so that a
      shell reads it back unchanged. */
  lemma EchoNamesDirectory(c: Command)
    ensures var pre := Yellow + "cd " + Shlex.Quote(c.cwd) + " && ";
      StartsWith(EchoLine(c), pre) && Shlex.Unquote(EchoLine(c)[|pre| - 4 - |Shlex.Quote(c.cwd)|..|pre| - 4], false, false) == c.cwd
  {
    Shlex.QuoteRoundTrip(c.cwd);
    var q := Shlex.Quote(c.cwd);
    var pre := Yellow + "cd " + q + " && ";
    assert EchoLine(c)[..|pre|] == pre;
    assert pre[|pre| - 4 - |q|..|pre| - 4] == q;
    assert EchoLine(c)[|pre| - 4 - |q|..|pre| - 4] == pre[|pre| - 4 - |q|..|pre| - 4];
  }

  /** "rm -rf" on `path`: the directories under it, and it, are gone. */
  function Under(dirs: set<string>, path: string): (r: set<string>)
    ensures r <= dirs
    ensures forall d :: d in r <==> d in dirs && (d == path || StartsWith(d, path + "/"))
  {
    set d | d in dirs && (d == path || StartsWith(d, path + "/"))
  }

  /** The commands that really run: none when only pretending. */
  function Executed(pretend: bool, cmds: seq<Command>): seq<Command> {
    if pretend then [] else cmds
  }

  lemma Assoc3<T>(x: seq<T>, a: seq<T>, b: seq<T>, c: seq<T>)
    ensures x + (a + b + c) == x + a + b + c
  {
  }

  /** Separate words, as in `runCmd("git", "pull")`. */
  function Words(ws: seq<string>): (r: seq<Arg>)
    ensures |r| == |ws| && forall i :: 0 <= i < |ws| ==> r[i] == Word(ws[i])
  {
    seq(|ws|, i requires 0 <= i < |ws| => Word(ws[i]))
  }

  /** The process the script runs in: its options, its working directory and
      environment, what it has printed, every command it issued, the commands
      that really ran, the directories and regular files that exist and the
      files it wrote with their contents. */
  class Shell {
    const options: Options
    var workDir: string
    var environ: map<string, string>
    var echoed: seq<string>
    var issued: seq<Command>
    var executed: seq<Command>
    var dirs: set<string>
    var files: set<string>
    var written: map<string, string>

    /** Every issued command really runs, unless the script only pretends. */
    ghost predicate Valid()
      reads this
    {
      executed == Executed(options.pretend, issued)
    }

    constructor(options: Options, workDir: string, environ: map<string, string>, dirs: set<string>,
                files: set<string>)
      ensures Valid()
      ensures this.options == options && this.workDir == workDir && this.environ == environ
      ensures this.dirs == dirs && this.files == files
      ensures echoed == [] && issued == [] && executed == [] && written == map[]
    {
      this.options := options;
      this.workDir := workDir;
      this.environ := environ;
      this.dirs := dirs;
      this.files := files;
      echoed := [];
      issued := [];
      executed := [];
      written := map[];
    }

    /** The command `runCmd` runs for `args` with the `cwd` keyword, or in the
        current directory when no keyword is given. */
    function CommandFor(args: seq<Arg>, cwd: Option<string>): (c: Command)
      requires |args| > 0
      requires args[0].Word? ==> forall i :: 0 <= i < |args| ==> args[i].Word?
      reads this`workDir
      ensures cwd.Some? ==> c.cwd == cwd.value
      ensures cwd.None? ==> c.cwd == workDir
      ensures args[0].WordList? ==> c.argv == args[0].items
      ensures args[0].Word? ==> c.argv == Texts(args)
    {
      Command(CommandLine(args), if cwd.Some? then cwd.value else workDir)
    }

    /** `runCmd`: print the command, and run it unless pretending. */
    method RunCmd(args: seq<Arg>, cwd: Option<string>)
      requires |args| > 0
      requires args[0].Word? ==> forall i :: 0 <= i < |args| ==> args[i].Word?
      requires Valid()
      modifies this`echoed, this`issued, this`executed
      ensures Valid()
      ensures issued == old(issued) + [CommandFor(args, cwd)]
      ensures echoed == old(echoed) + [EchoLine(CommandFor(args, cwd))]
      ensures options.pretend ==> executed == old(executed)
    {
      var c := CommandFor(args, cwd);
      echoed := echoed + [EchoLine(c)];
      issued := issued + [c];
      if !options.pretend {
        executed := executed + [c];
      }
    }

    /** `cleanDir`: with --clean (or `force`) an existing directory is removed
        with "rm -rf" first; the directory exists afterwards in every case,
        even when only pretending. */
    method CleanDir(path: string, force: bool)
      requires Valid()
      modifies this`echoed, this`issued, this`executed, this`dirs
      ensures Valid()
      ensures var removes := (options.clean || force) && path in old(dirs);
        && issued == old(issued) + (if removes then [Command(["rm", "-rf", path], workDir)] else [])
        && dirs == Cleaned(old(dirs), path, removes && !options.pretend)
      ensures path in dirs
      ensures |echoed| == |old(echoed)| + (if (options.clean || force) && path in old(dirs) then 1 else 0)
    {
      if (options.clean || force) && path in dirs {
        RunCmd([WordList(["rm", "-rf", path])], None);
        if !options.pretend {
          dirs := dirs - Under(dirs, path);
        }
      }
      dirs := dirs + {path};
    }

    /** `fatalError`: when pretending, the message is printed and the run goes
        on (`exit` is None); otherwise the script exits with the message. */
    method FatalError(message: string) returns (exit: Option<string>)
      modifies this`echoed
      ensures options.pretend ==> exit == None && echoed == old(echoed) + ["Potential fatal error: " + message]
      ensures !options.pretend ==> exit == Some(message) && echoed == old(echoed)
    {
      if options.pretend {
        echoed := echoed + ["Potential fatal error: " + message];
        exit := None;
      } else {
        exit := Some(message);
      }
    }
  }

  /** The directories after `path` is made, having been removed with its
      subtree first when `removed`. */
  function Cleaned(dirs: set<string>, path: string, removed: bool): (r: set<string>)
    ensures path in r
    ensures !removed ==> r == dirs + {path}
  {
    (if removed then dirs - Under(dirs, path) else dirs) + {path}
  }

  /** Removing `path` leaves every directory outside it in place. */
  lemma CleanedKeepsOthers(dirs: set<string>, path: string, removed: bool, d: string)
    requires d in dirs && d != path && !StartsWith(d, path + "/")
    ensures d in Cleaned(dirs, path, removed)
  {
  }

  /** The projects the script builds. */
  datatype Kind = QEMU | Binutils | LLVM | CheriBSD

  /** The directories of `CheriPaths` the build steps use: the output root
      (LLVM's build directory is below it), the host tools and CheriBSD's root
      file system. */
  datatype CheriPaths = CheriPaths(outputRoot: string, hostToolsDir: string, rootfs: string)

  /** The make program of each project. */
  function MakeCommand(kind: Kind): string {
    match kind
    case QEMU => "gmake"
    case LLVM => "ninja"
    case _ => "make"
  }

  /** The configure command of each project; CheriBSD has none. */
  function ConfigureCommand(kind: Kind, srcDir: string): Option<string> {
    match kind
    case QEMU => Some(Paths.PathJoin(srcDir, "configure"))
    case Binutils => Some(Paths.PathJoin(srcDir, "configure"))
    case LLVM => Some("cmake")
    case CheriBSD => None
  }

  /** The configure arguments of each project. `sysroot` is the default
      sysroot LLVM is configured with. */
  function ConfigureArgs(kind: Kind, srcDir: string, installDir: string, sysroot: string): seq<string> {
    match kind
    case QEMU =>
      ["--target-list=cheri-softmmu", "--disable-linux-user", "--disable-linux-aio", "--disable-kvm",
       "--disable-xen", "--extra-cflags=-g", "--prefix=" + installDir]
    case Binutils => ["--target=mips64", "--disable-werror", "--prefix=" + installDir]
    case LLVM =>
      [srcDir, "-G", "Ninja", "-DCMAKE_BUILD_TYPE=Release", "-DCMAKE_CXX_COMPILER=clang++37",
       "-DCMAKE_C_COMPILER=clang37", "-DLLVM_DEFAULT_TARGET_TRIPLE=cheri-unknown-freebsd",
       "-DCMAKE_INSTALL_PREFIX=" + installDir, "-DDEFAULT_SYSROOT=" + sysroot]
    case CheriBSD => []
  }

  /** Every configured project installs into its install directory. */
  lemma ConfiguredPrefix(kind: Kind, srcDir: string, installDir: string, sysroot: string)
    requires kind != CheriBSD
    ensures ConfigureCommand(kind, srcDir).Some?
    ensures var a := ConfigureArgs(kind, srcDir, installDir, sysroot);
      exists i :: 0 <= i < |a| && EndsWith(a[i], "=" + installDir)
  {
    var a := ConfigureArgs(kind, srcDir, installDir, sysroot);
    var i := match kind case QEMU => 6 case Binutils => 2 case _ => 7;
    var pre := a[i][..|a[i]| - |installDir| - 1];
    assert a[i] == pre + ("=" + installDir);
    assert a[i][|a[i]| - |"=" + installDir|..] == "=" + installDir;
  }

  /** The commands of the update step: "git pull --rebase" in the sources,
      after resetting QEMU's po/ directory, and followed by a pull of LLVM's
      clang checkout (run in the current directory). */
  function UpdateCommands(kind: Kind, srcDir: string, workDir: string): (r: seq<Command>)
    ensures PullCommand(srcDir) in r
    ensures |r| == if kind == QEMU || kind == LLVM then 2 else 1
    ensures forall x :: x in r ==> |x.argv| >= 4 && x.argv[0] == "git"
  {
    ResetPo(kind, srcDir) + [PullCommand(srcDir)] + PullClang(kind, srcDir, workDir)
  }

  function PullCommand(srcDir: string): Command {
    Command(["git", "-C", srcDir, "pull", "--rebase"], srcDir)
  }

  function ResetPo(kind: Kind, srcDir: string): seq<Command> {
    if kind == QEMU then [Command(["git", "checkout", "HEAD", "po/"], srcDir)] else []
  }

  function PullClang(kind: Kind, srcDir: string, workDir: string): seq<Command> {
    if kind == LLVM then [Command(["git", "-C", Paths.PathJoin(srcDir, "tools/clang"), "pull", "--rebase"], workDir)]
    else []
  }

  lemma NotPull(x: Command, srcDir: string)
    requires |x.argv| < 4 || x.argv[0] != "git" || x.argv[3] != "pull"
    ensures x != PullCommand(srcDir)
  {
  }

  lemma Assoc2<T>(x: seq<T>, a: seq<T>, b: seq<T>)
    ensures x + a + b == x + (a + b)
  {
  }

  lemma Snoc2<T>(x: seq<T>, a: T, b: T)
    ensures x + [a] + [b] == x + [a, b]
  {
  }

  lemma Snoc3<T>(x: seq<T>, a: T, b: T, c: T)
    ensures x + [a] + [b] + [c] == x + [a, b, c]
  {
  }

  /** The last five elements of `q + ([a, b] + [c, d, e])`. */
  lemma LastFive<T>(q: seq<T>, a: T, b: T, c: T, d: T, e: T)
    ensures var r := q + ([a, b] + [c, d, e]);
      |r| >= 5 && r[|r| - 5] == a && r[|r| - 4] == b && r[|r| - 3] == c && r[|r| - 2] == d && r[|r| - 1] == e
  {
  }

  /** An element missing from all but the first of four parts is in their
      concatenation exactly when it is in the first, where it has its index. */
  lemma OnlyInFirst<T>(x: T, a: seq<T>, b: seq<T>, c: seq<T>, d: seq<T>)
    requires x !in b && x !in c && x !in d
    ensures x in a + b + c + d <==> x in a
    ensures forall i :: 0 <= i < |a| ==> (a + b + c + d)[i] == a[i]
  {
  }

  /** An element missing from the other parts is in the concatenation exactly
      when the one-element-or-empty third part holds it, right after the
      first two parts. */
  lemma OnlyInMiddle<T>(x: T, a: seq<T>, b: seq<T>, c: seq<T>, d: seq<T>)
    requires x !in a && x !in b && x !in d
    requires c == [] || c == [x]
    ensures x in a + b + c + d <==> c == [x]
    ensures c == [x] ==> (a + b + c + d)[|a| + |b|] == x
  {
  }

  /** The configure program is never "git" or "rm". */
  lemma ConfigureNotGit(srcDir: string)
    ensures |Paths.PathJoin(srcDir, "configure")| >= 9
  {
  }

  /** The `fstab` CheriBSD's `install` writes into the root file system. */
  const FstabContents := "/dev/ada0 / ufs rw 1 1\n"

  /** The line printed instead of writing `contents` to `path`: the `echo`
      command that would, with each newline written as a backslash and `n`. */
  function WriteEcho(contents: string, path: string): (r: string)
    ensures StartsWith(r, "executing: echo ")
  {
    "executing: echo " + Shlex.Quote(Replace(contents, "\n", "\\n")) + " > " + Shlex.Quote(path)
  }

  /** What LLVM's `install` reports when the build tree holds no clang headers
      it could delete. */
  const NoHeadersMessage := "Could not find incompatible builtin includes. Build system changed?"

  /** The files below `dir` named by the relative `paths`. */
  function Below(dir: string, paths: seq<string>): (r: set<string>)
    ensures forall p :: p in paths ==> Paths.PathJoin(dir, p) in r
    ensures forall f :: f in r ==> exists p :: p in paths && f == Paths.PathJoin(dir, p)
  {
    set p | p in paths :: Paths.PathJoin(dir, p)
  }

  lemma BelowSnoc(dir: string, paths: seq<string>, p: string)
    ensures Below(dir, paths + [p]) == Below(dir, paths) + {Paths.PathJoin(dir, p)}
  {
    var l := Below(dir, paths + [p]);
    var r := Below(dir, paths) + {Paths.PathJoin(dir, p)};
    forall f | f in l ensures f in r {
      var q :| q in paths + [p] && f == Paths.PathJoin(dir, q);
      if q != p {
        assert q in paths;
      }
    }
    forall f | f in r ensures f in l {
      if f != Paths.PathJoin(dir, p) {
        var q :| q in paths && f == Paths.PathJoin(dir, q);
        assert q in paths + [p];
      }
    }
  }

  /** One more deleted header: its file is gone too, and its line is printed. */
  lemma RemoveStep(files: set<string>, dir: string, paths: seq<string>, p: string)
    ensures (files - Below(dir, paths)) - {Paths.PathJoin(dir, p)} == files - Below(dir, paths + [p])
    ensures RemovingLines(paths) + ["removing incompatible header " + p] == RemovingLines(paths + [p])
  {
    BelowSnoc(dir, paths, p);
  }

  /** The lines LLVM's `install` prints for the headers it deletes. */
  function RemovingLines(headers: seq<string>): (r: seq<string>)
    ensures |r| == |headers| && forall i :: 0 <= i < |headers| ==> r[i] == "removing incompatible header " + headers[i]
  {
    seq(|headers|, i requires 0 <= i < |headers| => "removing incompatible header " + headers[i])
  }

  /** A project of the script: where it lives and how it is configured and built.
      `commonMakeArgs` is the attribute CheriBSD's `compile` creates and its
      `install` reads. */
  class Project {
    const kind: Kind
    const paths: CheriPaths
    const srcDir: string
    const buildDir: string
    const installDir: string
    const makeCommand: string
    const configureCommand: Option<string>
    const configureArgs: seq<string>
    const sysroot: string
    var commonMakeArgs: Option<seq<string>>

    /** The make and configure settings are those of the project's kind. */
    predicate Configured() {
      makeCommand == MakeCommand(kind) && configureCommand == ConfigureCommand(kind, srcDir)
      && configureArgs == ConfigureArgs(kind, srcDir, installDir, sysroot)
    }

    constructor(kind: Kind, paths: CheriPaths, srcDir: string, buildDir: string, installDir: string,
                sysroot: string)
      ensures Configured()
      ensures this.kind == kind && this.paths == paths && this.srcDir == srcDir && this.buildDir == buildDir
      ensures this.installDir == installDir && this.sysroot == sysroot
      ensures commonMakeArgs == None
    {
      this.kind := kind;
      this.paths := paths;
      this.srcDir := srcDir;
      this.buildDir := buildDir;
      this.installDir := installDir;
      this.sysroot := sysroot;
      makeCommand := MakeCommand(kind);
      configureCommand := ConfigureCommand(kind, srcDir);
      configureArgs := ConfigureArgs(kind, srcDir, installDir, sysroot);
      commonMakeArgs := None;
    }

    /** The CHERI compiler CheriBSD is built with: clang in LLVM's build tree. */
    function CheriCC(): string {
      Paths.PathJoin(paths.outputRoot, "llvm-build/bin/clang")
    }

    /** The make invocation every CheriBSD build and install step starts with. */
    function CommonMakeArgs(): (r: seq<string>)
      ensures |r| == 8 && r[0] == "make" && r[2] == "CHERI_CC=" + CheriCC() && r[6] == "DESTDIR=" + installDir
    {
      ["make", "CHERI=256", "CHERI_CC=" + CheriCC(), "-DDB_FROM_SRC", "-DNO_ROOT", "-DNO_WERROR",
       "DESTDIR=" + installDir, "KERNCONF=CHERI_MALTA64"]
    }

    /** Where CheriBSD's `install` writes the `fstab`. */
    function FstabPath(): string {
      Paths.PathJoin(paths.rootfs, "etc/fstab")
    }

    /** How `compile` stops the script, if it does: CheriBSD's reads `PATH`
        from the environment (a `KeyError` when it is unset) and, when the CHERI
        compiler is not a file, builds its error message by adding a `Path`
        to a string, which raises a `TypeError` before `fatalError` is reached,
        whether pretending or not. */
    function CompileError(environ: map<string, string>, files: set<string>): (r: Option<string>)
      ensures r.Some? <==> kind == CheriBSD && ("PATH" !in environ || CheriCC() !in files)
    {
      if kind != CheriBSD then None
      else if "PATH" !in environ then Some("KeyError: 'PATH'")
      else if CheriCC() !in files then Some("TypeError")
      else None
    }

    /** The environment after `compile`: CheriBSD's sets `MAKEOBJDIRPREFIX` to
        its build directory and puts the host tools' `bin` first on `PATH`
        unless `PATH` already starts with the host tools directory. */
    function CompileEnviron(environ: map<string, string>): (r: map<string, string>)
      ensures kind != CheriBSD ==> r == environ
      ensures kind == CheriBSD ==> "MAKEOBJDIRPREFIX" in r && r["MAKEOBJDIRPREFIX"] == buildDir
      ensures kind == CheriBSD && "PATH" in environ ==>
        "PATH" in r && StartsWith(r["PATH"], if StartsWith(environ["PATH"], paths.hostToolsDir) then environ["PATH"]
                                             else Paths.PathJoin(paths.hostToolsDir, "bin") + ":")
    {
      if kind != CheriBSD then environ
      else
        var e := environ["MAKEOBJDIRPREFIX" := buildDir];
        if "PATH" in e && !StartsWith(e["PATH"], paths.hostToolsDir) then
          e["PATH" := Paths.PathJoin(paths.hostToolsDir, "bin") + ":" + e["PATH"]]
        else e
    }

    /** CheriBSD's `compile` leaves every other variable of the environment alone. */
    lemma CompileEnvironKeepsOthers(environ: map<string, string>, k: string)
      requires k in environ && k != "MAKEOBJDIRPREFIX" && k != "PATH"
      ensures k in CompileEnviron(environ) && CompileEnviron(environ)[k] == environ[k]
    {
    }

    /** The commands of `compile` when it goes through; `installIsDir` says
        whether CheriBSD's install directory exists by then. */
    function CompileCommands(jFlag: string, workDir: string, installIsDir: bool): seq<Command> {
      if kind == CheriBSD then
        (if installIsDir then [Command(["rm", "-rf", installDir], workDir)] else []) + WorldAndKernel(jFlag)
      else [CompileCommand(jFlag)]
    }

    /** CheriBSD's buildworld and buildkernel, in the sources. */
    function WorldAndKernel(jFlag: string): seq<Command> {
      var m := CommonMakeArgs();
      [Command(m + ["buildworld", jFlag], srcDir), Command(m + ["buildkernel", jFlag], srcDir)]
    }

    /** The commands of `install`: LLVM's only deletes headers, CheriBSD's
        installs world and kernel and the distribution files with the make
        arguments `compile` recorded, and none when there are none. */
    function InstallCommands(makeArgs: Option<seq<string>>): seq<Command> {
      match kind
      case LLVM => []
      case CheriBSD =>
        if makeArgs.None? then []
        else
          var m := makeArgs.value;
          [Command(m + ["installworld"], srcDir), Command(m + ["installkernel"], srcDir),
           Command(m + ["distribution"], srcDir)]
      case _ => [InstallCommand()]
    }

    /** The directories when `compile` starts: after the clean step and the
        creation of the build directory. */
    function BuildDirs(o: Options, dirs: set<string>): (r: set<string>)
      ensures buildDir in r
    {
      if !o.clean || Paths.PathJoin(buildDir, ".git") in dirs then dirs + {buildDir}
      else Cleaned(dirs, buildDir, buildDir in dirs && !o.pretend)
    }

    /** The commands of `process` for options `o`, the `-j` flag, the current
        directory and the directories, environment and files it starts from. */
    function ProcessCommands(o: Options, jFlag: string, workDir: string, dirs: set<string>,
                             environ: map<string, string>, files: set<string>): (r: seq<Command>)
      ensures CompileError(environ, files).Some? ==> r == PrepareCommands(o, workDir, dirs)
      ensures CompileError(environ, files).None? ==> |r| > |PrepareCommands(o, workDir, dirs)|
    {
      PrepareCommands(o, workDir, dirs) + BuildCommands(o, jFlag, workDir, dirs, environ, files)
    }

    /** The update, clean and configure commands `process` starts with. */
    function PrepareCommands(o: Options, workDir: string, dirs: set<string>): seq<Command> {
      (if o.skipUpdate then [] else UpdateCommands(kind, srcDir, workDir))
      + CleanCommands(o, workDir, buildDir in dirs, Paths.PathJoin(buildDir, ".git") in dirs)
      + (if o.skipConfigure then [] else ConfigureCommands())
    }

    /** The compile and install commands of `process`, none when `compile` stops the script. */
    function BuildCommands(o: Options, jFlag: string, workDir: string, dirs: set<string>,
                           environ: map<string, string>, files: set<string>): seq<Command>
    {
      if CompileError(environ, files).Some? then []
      else CompileCommands(jFlag, workDir, installDir in BuildDirs(o, dirs)) + InstallCommands(Some(CommonMakeArgs()))
    }

    /** How `process` stops the script: at CheriBSD's `compile`, or at LLVM's
        `install` when it finds no header to delete and is not pretending. */
    function ProcessExit(o: Options, environ: map<string, string>, files: set<string>, headers: seq<string>)
      : Option<string>
    {
      if CompileError(environ, files).Some? then CompileError(environ, files)
      else if kind == LLVM && |headers| == 0 && !o.pretend then Some(NoHeadersMessage)
      else None
    }

    /** The directories after `process`: CheriBSD's `compile` also empties and
        recreates its install directory. */
    function ProcessDirs(o: Options, dirs: set<string>, environ: map<string, string>, files: set<string>)
      : set<string>
    {
      var b := BuildDirs(o, dirs);
      if kind == CheriBSD && CompileError(environ, files).None? then Cleaned(b, installDir, installDir in b && !o.pretend)
      else b
    }

    /** `process` leaves the build directory in place, unless CheriBSD's
        `compile` removes it as part of its install directory; CheriBSD's
        install directory exists afterwards when compiling went through. */
    lemma ProcessKeepsBuildDir(o: Options, dirs: set<string>, environ: map<string, string>, files: set<string>)
      ensures buildDir != installDir && !StartsWith(buildDir, installDir + "/") ==>
        buildDir in ProcessDirs(o, dirs, environ, files)
      ensures kind == CheriBSD && CompileError(environ, files).None? ==> installDir in ProcessDirs(o, dirs, environ, files)
    {
      var b := BuildDirs(o, dirs);
      if buildDir != installDir && !StartsWith(buildDir, installDir + "/") {
        CleanedKeepsOthers(b, installDir, installDir in b && !o.pretend, buildDir);
      }
    }

    /** When `compile` goes through, `process` ends with the build commands of
        its kind: `make -jN` and `make install` for QEMU and binutils, `ninja
        -jN` alone for LLVM (next lemma for CheriBSD). */
    lemma ProcessEndsWithBuild(o: Options, jFlag: string, workDir: string, dirs: set<string>,
                               environ: map<string, string>, files: set<string>)
      requires kind != CheriBSD
      ensures var r := ProcessCommands(o, jFlag, workDir, dirs, environ, files);
        (kind == QEMU || kind == Binutils ==>
           |r| >= 2 && r[|r| - 2] == Command([makeCommand, jFlag], buildDir)
           && r[|r| - 1] == Command([makeCommand, "install"], buildDir))
        && (kind == LLVM ==> |r| >= 1 && r[|r| - 1] == Command([makeCommand, jFlag], buildDir))
    {
      var p := PrepareCommands(o, workDir, dirs);
      var b := BuildCommands(o, jFlag, workDir, dirs, environ, files);
      assert ProcessCommands(o, jFlag, workDir, dirs, environ, files) == p + b;
      if kind == LLVM {
        assert b == [CompileCommand(jFlag)];
      } else {
        assert b == [CompileCommand(jFlag), InstallCommand()];
      }
    }

    /** When `compile` goes through, CheriBSD's `process` ends with
        buildworld, buildkernel, installworld, installkernel and distribution. */
    lemma CheriBSDProcessEndsWithBuild(o: Options, jFlag: string, workDir: string, dirs: set<string>,
                                       environ: map<string, string>, files: set<string>)
      requires kind == CheriBSD && CompileError(environ, files).None?
      ensures var r := ProcessCommands(o, jFlag, workDir, dirs, environ, files);
        var m := CommonMakeArgs();
        |r| >= 5 && r[|r| - 5] == Command(m + ["buildworld", jFlag], srcDir)
        && r[|r| - 4] == Command(m + ["buildkernel", jFlag], srcDir) && r[|r| - 3] == Command(m + ["installworld"], srcDir)
        && r[|r| - 2] == Command(m + ["installkernel"], srcDir) && r[|r| - 1] == Command(m + ["distribution"], srcDir)
    {
      var p := PrepareCommands(o, workDir, dirs);
      var i := InstallCommands(Some(CommonMakeArgs()));
      var pre := if installDir in BuildDirs(o, dirs) then [Command(["rm", "-rf", installDir], workDir)] else [];
      var w := WorldAndKernel(jFlag);
      assert ProcessCommands(o, jFlag, workDir, dirs, environ, files) == p + (pre + w + i);
      Assoc2(p, pre, w + i);
      var m := CommonMakeArgs();
      LastFive(p + pre, Command(m + ["buildworld", jFlag], srcDir), Command(m + ["buildkernel", jFlag], srcDir),
               Command(m + ["installworld"], srcDir), Command(m + ["installkernel"], srcDir),
               Command(m + ["distribution"], srcDir));
    }

    /** With --skip-update and --skip-configure and without --clean, only the
        compile and install commands are issued. */
    lemma ProcessOnlyBuilds(o: Options, jFlag: string, workDir: string, dirs: set<string>,
                            environ: map<string, string>, files: set<string>)
      requires o.skipUpdate && o.skipConfigure && !o.clean
      ensures ProcessCommands(o, jFlag, workDir, dirs, environ, files)
           == if CompileError(environ, files).Some? then []
              else CompileCommands(jFlag, workDir, installDir in dirs + {buildDir}) + InstallCommands(Some(CommonMakeArgs()))
    {
    }

    /** The make and configure programs are neither "git" nor "rm" nor "make", and differ. */
    lemma Programs()
      requires Configured()
      ensures makeCommand != "git" && makeCommand != "rm"
      ensures configureCommand.Some? ==>
        var p := configureCommand.value; p != "git" && p != "rm" && p != "make" && p != makeCommand
    {
      if configureCommand.Some? {
        ConfigureNotGit(srcDir);
      }
    }

    lemma PullNotAfterUpdate(o: Options, jFlag: string, workDir: string, dirs: set<string>,
                             environ: map<string, string>, files: set<string>)
      requires makeCommand != "git"
      requires configureCommand.Some? ==> configureCommand.value != "git"
      ensures PullCommand(srcDir) !in CleanCommands(o, workDir, buildDir in dirs, Paths.PathJoin(buildDir, ".git") in dirs)
      ensures PullCommand(srcDir) !in ConfigureCommands()
      ensures PullCommand(srcDir) !in BuildCommands(o, jFlag, workDir, dirs, environ, files)
    {
      assert PullCommand(srcDir).argv[0] == "git" && PullCommand(srcDir).argv[3] == "pull";
      if configureCommand.Some? {
        assert ConfigureCommands()[0].argv[0] == configureCommand.value;
      }
      var b := BuildCommands(o, jFlag, workDir, dirs, environ, files);
      forall x | x in b ensures x.argv[0] != "git" {
      }
    }

    /** The sources are pulled exactly when --skip-update is not given, and
        then before anything else but QEMU's po/ reset. */
    lemma PullIffNotSkipped(o: Options, jFlag: string, workDir: string, dirs: set<string>,
                            environ: map<string, string>, files: set<string>)
      requires Configured()
      ensures var r := ProcessCommands(o, jFlag, workDir, dirs, environ, files);
        (PullCommand(srcDir) in r <==> !o.skipUpdate)
        && (!o.skipUpdate ==> r[|ResetPo(kind, srcDir)|] == PullCommand(srcDir))
    {
      Programs();
      PullNotAfterUpdate(o, jFlag, workDir, dirs, environ, files);
      var u := if o.skipUpdate then [] else UpdateCommands(kind, srcDir, workDir);
      var clean := CleanCommands(o, workDir, buildDir in dirs, Paths.PathJoin(buildDir, ".git") in dirs);
      var k := if o.skipConfigure then [] else ConfigureCommands();
      var b := BuildCommands(o, jFlag, workDir, dirs, environ, files);
      assert ProcessCommands(o, jFlag, workDir, dirs, environ, files) == u + clean + k + b;
      OnlyInFirst(PullCommand(srcDir), u, clean, k, b);
      if !o.skipUpdate {
        assert u[|ResetPo(kind, srcDir)|] == PullCommand(srcDir);
      }
    }

    lemma ConfigureNotElsewhere(o: Options, jFlag: string, workDir: string, dirs: set<string>,
                                environ: map<string, string>, files: set<string>)
      requires Configured() && configureCommand.Some?
      ensures var conf := Command([configureCommand.value] + configureArgs, buildDir);
        conf !in UpdateCommands(kind, srcDir, workDir)
        && conf !in CleanCommands(o, workDir, buildDir in dirs, Paths.PathJoin(buildDir, ".git") in dirs)
        && conf !in BuildCommands(o, jFlag, workDir, dirs, environ, files)
    {
      Programs();
      var conf := Command([configureCommand.value] + configureArgs, buildDir);
      assert conf.argv[0] == configureCommand.value;
      forall x | x in UpdateCommands(kind, srcDir, workDir) ensures x.argv[0] == "git" {
      }
      assert kind != CheriBSD;
      assert BuildCommands(o, jFlag, workDir, dirs, environ, files)
          == [CompileCommand(jFlag)] + (if kind == LLVM then [] else [InstallCommand()]);
    }

    /** A project with a configure command is configured exactly when
        --skip-configure is not given, and then right after the update and
        clean commands, before it is compiled. */
    lemma ConfigureIffNotSkipped(o: Options, jFlag: string, workDir: string, dirs: set<string>,
                                 environ: map<string, string>, files: set<string>)
      requires Configured() && kind != CheriBSD
      ensures var r := ProcessCommands(o, jFlag, workDir, dirs, environ, files);
        var conf := Command([configureCommand.value] + configureArgs, buildDir);
        var before := (if o.skipUpdate then [] else UpdateCommands(kind, srcDir, workDir))
                      + CleanCommands(o, workDir, buildDir in dirs, Paths.PathJoin(buildDir, ".git") in dirs);
        (conf in r <==> !o.skipConfigure)
        && (!o.skipConfigure ==> |r| > |before| && r[|before|] == conf)
    {
      ConfigureNotElsewhere(o, jFlag, workDir, dirs, environ, files);
      var conf := Command([configureCommand.value] + configureArgs, buildDir);
      var update := if o.skipUpdate then [] else UpdateCommands(kind, srcDir, workDir);
      var clean := CleanCommands(o, workDir, buildDir in dirs, Paths.PathJoin(buildDir, ".git") in dirs);
      var b := BuildCommands(o, jFlag, workDir, dirs, environ, files);
      var k := if o.skipConfigure then [] else [conf];
      if o.skipConfigure {
        assert PrepareCommands(o, workDir, dirs) == update + clean + [];
      } else {
        assert ConfigureCommands() == [conf];
        assert PrepareCommands(o, workDir, dirs) == update + clean + [conf];
      }
      assert ProcessCommands(o, jFlag, workDir, dirs, environ, files) == update + clean + k + b;
      OnlyInMiddle(conf, update, clean, k, b);
    }

    /** The configure command with its arguments, run in the build directory, if the project has one. */
    function ConfigureCommands(): seq<Command> {
      if configureCommand.Some? then [Command([configureCommand.value] + configureArgs, buildDir)] else []
    }

    /** The base `compile`: the make program with the `-j` flag, in the build directory. */
    function CompileCommand(jFlag: string): (c: Command)
      ensures c.cwd == buildDir && |c.argv| == 2 && c.argv[0] == makeCommand && c.argv[1] == jFlag
    {
      Command([makeCommand, jFlag], buildDir)
    }

    /** The base `install`: `make install` with the project's make program, in the build directory. */
    function InstallCommand(): (c: Command)
      ensures c.cwd == buildDir && |c.argv| == 2 && c.argv[0] == makeCommand && c.argv[1] == "install"
    {
      Command([makeCommand, "install"], buildDir)
    }

    /** The clean step: "git clean" when the build directory is a git checkout,
        otherwise `cleanDir` on it. */
    function CleanCommands(o: Options, workDir: string, buildIsDir: bool, buildHasGit: bool): (r: seq<Command>)
      ensures |r| <= 1
      ensures r != [] <==> o.clean && (buildHasGit || buildIsDir)
      ensures forall x :: x in r ==> (|x.argv| == 3 && x.argv[0] == "rm" && x.argv[2] == buildDir)
                                     || (|x.argv| == 5 && x.argv[0] == "git" && x.argv[3] == "clean")
    {
      if !o.clean then []
      else if buildHasGit then [Command(["git", "-C", buildDir, "clean", "-dfx"], buildDir)]
      else if buildIsDir then [Command(["rm", "-rf", buildDir], workDir)]
      else []
    }

    /** The base class's `update`: "git pull --rebase" in the sources. */
    method PullSources(shell: Shell)
      requires shell.Valid()
      modifies shell`echoed, shell`issued, shell`executed
      ensures shell.Valid()
      ensures shell.issued == old(shell.issued) + [PullCommand(srcDir)]
    {
      var pull := ["git", "-C", srcDir, "pull", "--rebase"];
      WordsOrList(pull, []);
      shell.RunCmd(Words(pull), Some(srcDir));
    }

    /** `update` with QEMU's and LLVM's overrides. */
    method Update(shell: Shell)
      requires shell.Valid()
      modifies shell`echoed, shell`issued, shell`executed
      ensures shell.Valid()
      ensures shell.issued == old(shell.issued) + UpdateCommands(kind, srcDir, shell.workDir)
    {
      ghost var i0 := shell.issued;
      if kind == QEMU {
        var reset := ["git", "checkout", "HEAD", "po/"];
        WordsOrList(reset, []);
        shell.RunCmd(Words(reset), Some(srcDir));
      }
      assert shell.issued == i0 + ResetPo(kind, srcDir);
      PullSources(shell);
      ghost var i1 := shell.issued;
      if kind == LLVM {
        var clang := ["git", "-C", Paths.PathJoin(srcDir, "tools/clang"), "pull", "--rebase"];
        assert shell.CommandFor([WordList(clang)], None) == Command(clang, shell.workDir);
        shell.RunCmd([WordList(clang)], None);
      }
      assert shell.issued == i1 + PullClang(kind, srcDir, shell.workDir);
      Assoc3(i0, ResetPo(kind, srcDir), [PullCommand(srcDir)], PullClang(kind, srcDir, shell.workDir));
    }

    /** `clean`, which only `process` calls, and only with --clean. */
    method Clean(shell: Shell)
      requires shell.Valid() && shell.options.clean
      modifies shell`echoed, shell`issued, shell`executed, shell`dirs
      ensures shell.Valid()
      ensures shell.issued == old(shell.issued)
        + CleanCommands(shell.options, shell.workDir, buildDir in old(shell.dirs),
                        Paths.PathJoin(buildDir, ".git") in old(shell.dirs))
      ensures shell.dirs == BuildDirs(shell.options, old(shell.dirs))
    {
      if Paths.PathJoin(buildDir, ".git") in shell.dirs {
        var gitClean := ["git", "-C", buildDir, "clean", "-dfx"];
        WordsOrList(gitClean, []);
        shell.RunCmd(Words(gitClean), Some(buildDir));
        shell.dirs := shell.dirs + {buildDir};
      } else {
        shell.CleanDir(buildDir, false);
      }
    }

    method Configure(shell: Shell)
      requires shell.Valid()
      modifies shell`echoed, shell`issued, shell`executed
      ensures shell.Valid()
      ensures shell.issued == old(shell.issued) + ConfigureCommands()
    {
      if configureCommand.Some? {
        shell.RunCmd([WordList([configureCommand.value] + configureArgs)], Some(buildDir));
      }
    }

    /** `compile`: the make command with the `-j` flag in the build directory;
        CheriBSD's override is `CompileCheriBSD`. */
    method Compile(shell: Shell, jFlag: string) returns (exit: Option<string>)
      requires shell.Valid()
      modifies shell`echoed, shell`issued, shell`executed, shell`dirs, shell`environ, this`commonMakeArgs
      ensures shell.Valid()
      ensures exit == CompileError(old(shell.environ), shell.files)
      ensures shell.environ == CompileEnviron(old(shell.environ))
      ensures shell.issued == old(shell.issued)
        + (if exit.Some? then [] else CompileCommands(jFlag, shell.workDir, installDir in old(shell.dirs)))
      ensures shell.dirs == if kind == CheriBSD && exit.None?
                            then Cleaned(old(shell.dirs), installDir, installDir in old(shell.dirs) && !shell.options.pretend)
                            else old(shell.dirs)
      ensures commonMakeArgs == if kind == CheriBSD && exit.None? then Some(CommonMakeArgs()) else old(commonMakeArgs)
    {
      if kind == CheriBSD {
        exit := CompileCheriBSD(shell, jFlag);
      } else {
        WordsOrList([makeCommand, jFlag], []);
        shell.RunCmd(Words([makeCommand, jFlag]), Some(buildDir));
        exit := None;
      }
    }

    /** CheriBSD's `compile`: set up the environment, check for the CHERI
        compiler, record the common make arguments, empty the install
        directory and build world and kernel in the sources. */
    method CompileCheriBSD(shell: Shell, jFlag: string) returns (exit: Option<string>)
      requires kind == CheriBSD && shell.Valid()
      modifies shell`echoed, shell`issued, shell`executed, shell`dirs, shell`environ, this`commonMakeArgs
      ensures shell.Valid()
      ensures exit == CompileError(old(shell.environ), shell.files)
      ensures shell.environ == CompileEnviron(old(shell.environ))
      ensures shell.issued == old(shell.issued)
        + (if exit.Some? then [] else CompileCommands(jFlag, shell.workDir, installDir in old(shell.dirs)))
      ensures shell.dirs == if exit.None?
                            then Cleaned(old(shell.dirs), installDir, installDir in old(shell.dirs) && !shell.options.pretend)
                            else old(shell.dirs)
      ensures commonMakeArgs == if exit.None? then Some(CommonMakeArgs()) else old(commonMakeArgs)
    {
      var hasPath := SetEnvironment(shell);
      if !hasPath {
        return Some("KeyError: 'PATH'");
      }
      if CheriCC() !in shell.files {
        return Some("TypeError");
      }
      commonMakeArgs := Some(CommonMakeArgs());
      BuildWorldAndKernel(shell, jFlag);
      exit := None;
    }

    /** The commands CheriBSD's `compile` ends with: empty the install
        directory, then build world and kernel. */
    method BuildWorldAndKernel(shell: Shell, jFlag: string)
      requires kind == CheriBSD && shell.Valid()
      modifies shell`echoed, shell`issued, shell`executed, shell`dirs
      ensures shell.Valid()
      ensures shell.issued == old(shell.issued) + CompileCommands(jFlag, shell.workDir, installDir in old(shell.dirs))
      ensures shell.dirs == Cleaned(old(shell.dirs), installDir, installDir in old(shell.dirs) && !shell.options.pretend)
    {
      ghost var i0 := shell.issued;
      ghost var pre := if installDir in shell.dirs then [Command(["rm", "-rf", installDir], shell.workDir)] else [];
      assert CompileCommands(jFlag, shell.workDir, installDir in shell.dirs) == pre + WorldAndKernel(jFlag);
      shell.CleanDir(installDir, true);
      ghost var i1 := shell.issued;
      assert i1 == i0 + pre;
      BuildTargets(shell, jFlag);
      assert shell.issued == i0 + (pre + WorldAndKernel(jFlag));
    }

    /** buildworld and buildkernel in the sources. */
    method BuildTargets(shell: Shell, jFlag: string)
      requires kind == CheriBSD && shell.Valid()
      modifies shell`echoed, shell`issued, shell`executed
      ensures shell.Valid()
      ensures shell.issued == old(shell.issued) + WorldAndKernel(jFlag)
    {
      ghost var i0 := shell.issued;
      var m := CommonMakeArgs();
      shell.RunCmd([WordList(m + ["buildworld", jFlag])], Some(srcDir));
      shell.RunCmd([WordList(m + ["buildkernel", jFlag])], Some(srcDir));
      Snoc2(i0, Command(m + ["buildworld", jFlag], srcDir), Command(m + ["buildkernel", jFlag], srcDir));
    }

    /** The environment CheriBSD's `compile` sets up; `hasPath` says whether
        `PATH` was set, without which the script stops with a `KeyError`. */
    method SetEnvironment(shell: Shell) returns (hasPath: bool)
      requires kind == CheriBSD
      modifies shell`environ, shell`echoed
      ensures hasPath <==> "PATH" in old(shell.environ)
      ensures shell.environ == CompileEnviron(old(shell.environ))
      ensures shell.echoed == old(shell.echoed)
        + if "PATH" in old(shell.environ) && !StartsWith(old(shell.environ)["PATH"], paths.hostToolsDir)
          then ["Set PATH to " + shell.environ["PATH"]] else []
    {
      shell.environ := shell.environ["MAKEOBJDIRPREFIX" := buildDir];
      hasPath := "PATH" in shell.environ;
      if hasPath && !StartsWith(shell.environ["PATH"], paths.hostToolsDir) {
        shell.environ := shell.environ["PATH" := Paths.PathJoin(paths.hostToolsDir, "bin") + ":" + shell.environ["PATH"]];
        shell.echoed := shell.echoed + ["Set PATH to " + shell.environ["PATH"]];
      }
    }

    /** `install`: `make install` in the build directory; LLVM's and
        CheriBSD's overrides are `InstallLLVM` and `InstallCheriBSD`. */
    method Install(shell: Shell, headers: seq<string>) returns (exit: Option<string>)
      requires shell.Valid()
      modifies shell`echoed, shell`issued, shell`executed, shell`workDir, shell`files, shell`written
      ensures shell.Valid()
      ensures exit == if kind == LLVM && |headers| == 0 && !shell.options.pretend then Some(NoHeadersMessage)
                      else if kind == CheriBSD && commonMakeArgs.None? then Some("AttributeError")
                      else None
      ensures shell.issued == old(shell.issued) + InstallCommands(commonMakeArgs)
      ensures shell.workDir == if kind == LLVM then buildDir else old(shell.workDir)
      ensures shell.files == if kind == LLVM && !shell.options.pretend then old(shell.files) - Below(buildDir, headers)
                             else old(shell.files)
      ensures shell.written == if kind == CheriBSD && commonMakeArgs.Some? && !shell.options.pretend
                               then old(shell.written)[FstabPath() := FstabContents]
                               else old(shell.written)
    {
      match kind
      case LLVM =>
        exit := InstallLLVM(shell, headers);
      case CheriBSD =>
        exit := InstallCheriBSD(shell);
      case _ =>
        WordsOrList([makeCommand, "install"], []);
        shell.RunCmd(Words([makeCommand, "install"]), Some(buildDir));
        exit := None;
    }

    /** LLVM's `install`: change into the build directory and delete the clang
        headers that clash with CheriBSD's, `headers` being what its glob finds
        there; finding none is a fatal error. Nothing is installed. */
    method InstallLLVM(shell: Shell, headers: seq<string>) returns (exit: Option<string>)
      requires shell.Valid()
      modifies shell`echoed, shell`workDir, shell`files
      ensures exit == if |headers| == 0 && !shell.options.pretend then Some(NoHeadersMessage) else None
      ensures shell.workDir == buildDir
      ensures shell.files == if !shell.options.pretend then old(shell.files) - Below(buildDir, headers)
                             else old(shell.files)
      ensures |headers| > 0 ==> shell.echoed == old(shell.echoed) + RemovingLines(headers)
      ensures |headers| == 0 ==>
        shell.echoed == old(shell.echoed) + (if shell.options.pretend then ["Potential fatal error: " + NoHeadersMessage] else [])
    {
      shell.workDir := buildDir;
      exit := None;
      if |headers| == 0 {
        exit := shell.FatalError(NoHeadersMessage);
      }
      var i := 0;
      ghost var e0 := shell.echoed;
      while i < |headers|
        invariant 0 <= i <= |headers|
        invariant shell.workDir == buildDir
        invariant shell.files == if !shell.options.pretend then old(shell.files) - Below(buildDir, headers[..i])
                                 else old(shell.files)
        invariant shell.echoed == e0 + RemovingLines(headers[..i])
      {
        assert headers[..i + 1] == headers[..i] + [headers[i]];
        RemoveStep(old(shell.files), buildDir, headers[..i], headers[i]);
        shell.echoed := shell.echoed + ["removing incompatible header " + headers[i]];
        if !shell.options.pretend {
          shell.files := shell.files - {Paths.PathJoin(buildDir, headers[i])};
        }
        i := i + 1;
      }
      assert headers[..i] == headers;
    }

    /** CheriBSD's `install`: world, kernel and distribution files with the
        make arguments `compile` recorded (an `AttributeError` when it has not
        run), then the `fstab`, whose writing is only printed when pretending. */
    method InstallCheriBSD(shell: Shell) returns (exit: Option<string>)
      requires kind == CheriBSD && shell.Valid()
      modifies shell`echoed, shell`issued, shell`executed, shell`written
      ensures shell.Valid()
      ensures exit == if commonMakeArgs.None? then Some("AttributeError") else None
      ensures shell.issued == old(shell.issued) + InstallCommands(commonMakeArgs)
      ensures shell.written == if commonMakeArgs.Some? && !shell.options.pretend
                               then old(shell.written)[FstabPath() := FstabContents]
                               else old(shell.written)
    {
      if commonMakeArgs.None? {
        return Some("AttributeError");
      }
      InstallTargets(shell, commonMakeArgs.value);
      WriteFstab(shell);
      exit := None;
    }

    /** installworld, installkernel and distribution with the make arguments `m`. */
    method InstallTargets(shell: Shell, m: seq<string>)
      requires kind == CheriBSD && shell.Valid()
      modifies shell`echoed, shell`issued, shell`executed
      ensures shell.Valid()
      ensures shell.issued == old(shell.issued) + InstallCommands(Some(m))
    {
      ghost var i0 := shell.issued;
      shell.RunCmd([WordList(m + ["installworld"])], Some(srcDir));
      shell.RunCmd([WordList(m + ["installkernel"])], Some(srcDir));
      shell.RunCmd([WordList(m + ["distribution"])], Some(srcDir));
      Snoc3(i0, Command(m + ["installworld"], srcDir), Command(m + ["installkernel"], srcDir),
            Command(m + ["distribution"], srcDir));
    }

    /** The `fstab` of the root file system, written, or printed as the
        command that would write it when pretending. */
    method WriteFstab(shell: Shell)
      modifies shell`echoed, shell`written
      ensures shell.written == if !shell.options.pretend then old(shell.written)[FstabPath() := FstabContents]
                               else old(shell.written)
      ensures shell.echoed == if shell.options.pretend then old(shell.echoed) + [WriteEcho(FstabContents, FstabPath())]
                              else old(shell.echoed)
    {
      if shell.options.pretend {
        shell.echoed := shell.echoed + [WriteEcho(FstabContents, FstabPath())];
      } else {
        shell.written := shell.written[FstabPath() := FstabContents];
      }
    }

    /** Only CheriBSD's install commands depend on the recorded make arguments. */
    lemma InstallSameCommands(makeArgs: Option<seq<string>>)
      requires kind == CheriBSD ==> makeArgs == Some(CommonMakeArgs())
      ensures InstallCommands(makeArgs) == InstallCommands(Some(CommonMakeArgs()))
    {
    }

    /** The first part of `process`: update unless --skip-update, clean with
        --clean, make the build directory and configure unless --skip-configure. */
    method Prepare(shell: Shell)
      requires shell.Valid()
      modifies shell`echoed, shell`issued, shell`executed, shell`dirs
      ensures shell.Valid()
      ensures shell.issued == old(shell.issued) + PrepareCommands(shell.options, shell.workDir, old(shell.dirs))
      ensures shell.dirs == BuildDirs(shell.options, old(shell.dirs))
    {
      var o := shell.options;
      ghost var i0 := shell.issued;
      assert PrepareCommands(o, shell.workDir, shell.dirs)
          == (if o.skipUpdate then [] else UpdateCommands(kind, srcDir, shell.workDir))
             + CleanCommands(o, shell.workDir, buildDir in shell.dirs, Paths.PathJoin(buildDir, ".git") in shell.dirs)
             + (if o.skipConfigure then [] else ConfigureCommands());
      ghost var u := if o.skipUpdate then [] else UpdateCommands(kind, srcDir, shell.workDir);
      ghost var c := CleanCommands(o, shell.workDir, buildDir in shell.dirs, Paths.PathJoin(buildDir, ".git") in shell.dirs);
      ghost var k := if o.skipConfigure then [] else ConfigureCommands();
      if !o.skipUpdate {
        Update(shell);
      }
      assert shell.issued == i0 + u;
      if o.clean {
        Clean(shell);
      }
      assert shell.issued == i0 + u + c;
      shell.dirs := shell.dirs + {buildDir};
      if !o.skipConfigure {
        Configure(shell);
      }
      assert shell.issued == i0 + u + c + k;
      Assoc3(i0, u, c, k);
    }

    /** The second part of `process`: compile and, unless compiling stopped
        the script, install. */
    method Build(shell: Shell, jFlag: string, headers: seq<string>) returns (exit: Option<string>)
      requires shell.Valid()
      modifies shell`echoed, shell`issued, shell`executed, shell`dirs, shell`environ, shell`workDir
      modifies shell`files, shell`written, this`commonMakeArgs
      ensures shell.Valid()
      ensures var e := CompileError(old(shell.environ), old(shell.files));
        exit == (if e.Some? then e else if kind == LLVM && |headers| == 0 && !shell.options.pretend
                                         then Some(NoHeadersMessage) else None)
      ensures shell.issued == old(shell.issued)
        + (if CompileError(old(shell.environ), old(shell.files)).Some? then []
           else CompileCommands(jFlag, old(shell.workDir), installDir in old(shell.dirs))
                + InstallCommands(Some(CommonMakeArgs())))
      ensures shell.dirs == if kind == CheriBSD && CompileError(old(shell.environ), old(shell.files)).None?
                            then Cleaned(old(shell.dirs), installDir, installDir in old(shell.dirs) && !shell.options.pretend)
                            else old(shell.dirs)
      ensures shell.environ == CompileEnviron(old(shell.environ))
      ensures shell.workDir == if kind == LLVM then buildDir else old(shell.workDir)
      ensures shell.files == if kind == LLVM && !shell.options.pretend then old(shell.files) - Below(buildDir, headers)
                             else old(shell.files)
      ensures shell.written == if kind == CheriBSD && CompileError(old(shell.environ), old(shell.files)).None?
                                  && !shell.options.pretend
                               then old(shell.written)[FstabPath() := FstabContents]
                               else old(shell.written)
    {
      ghost var i0 := shell.issued;
      ghost var c := CompileCommands(jFlag, shell.workDir, installDir in shell.dirs);
      exit := Compile(shell, jFlag);
      if exit.None? {
        ghost var i1 := shell.issued;
        InstallSameCommands(commonMakeArgs);
        exit := Install(shell, headers);
        assert shell.issued == i1 + InstallCommands(Some(CommonMakeArgs()));
        Assoc2(i0, c, InstallCommands(Some(CommonMakeArgs())));
      }
    }

    /** `process`: `Prepare`, then `Build`. */
    method Process(shell: Shell, jFlag: string, headers: seq<string>) returns (exit: Option<string>)
      requires shell.Valid()
      modifies shell`echoed, shell`issued, shell`executed, shell`dirs, shell`environ, shell`workDir
      modifies shell`files, shell`written, this`commonMakeArgs
      ensures shell.Valid()
      ensures exit == ProcessExit(shell.options, old(shell.environ), old(shell.files), headers)
      ensures shell.issued == old(shell.issued)
        + ProcessCommands(shell.options, jFlag, old(shell.workDir), old(shell.dirs), old(shell.environ), old(shell.files))
      ensures shell.dirs == ProcessDirs(shell.options, old(shell.dirs), old(shell.environ), old(shell.files))
      ensures shell.environ == CompileEnviron(old(shell.environ))
      ensures shell.workDir == if kind == LLVM then buildDir else old(shell.workDir)
      ensures shell.files == if kind == LLVM && !shell.options.pretend then old(shell.files) - Below(buildDir, headers)
                             else old(shell.files)
      ensures shell.written == if kind == CheriBSD && CompileError(old(shell.environ), old(shell.files)).None?
                                  && !shell.options.pretend
                               then old(shell.written)[FstabPath() := FstabContents]
                               else old(shell.written)
    {
      ghost var i0 := shell.issued;
      ghost var p := PrepareCommands(shell.options, shell.workDir, shell.dirs);
      ghost var b := BuildCommands(shell.options, jFlag, shell.workDir, shell.dirs, shell.environ, shell.files);
      assert ProcessCommands(shell.options, jFlag, shell.workDir, shell.dirs, shell.environ, shell.files) == p + b;
      ghost var e0, f0, w0 := shell.environ, shell.files, shell.written;
      Prepare(shell);
      assert shell.environ == e0 && shell.files == f0 && shell.written == w0;
      ghost var i1 := shell.issued;
      assert i1 == i0 + p;
      exit := Build(shell, jFlag, headers);
      assert shell.issued == i1 + b;
      Assoc2(i0, p, b);
    }
  }

  /** The targets, in the order they are built. */
  const AllTargets: seq<string> := ["qemu", "binutils", "llvm", "cheribsd", "disk-image", "run"]

  function LowerAll(names: seq<string>): (r: seq<string>)
    ensures |r| == |names| && forall i :: 0 <= i < |names| ==> r[i] == Lower(names[i])
  {
    seq(|names|, i requires 0 <= i < |names| => Lower(names[i]))
  }

  /** The first name that is not a target, if any. */
  function FirstUnknown(names: seq<string>): (r: Option<string>)
    ensures r.None? <==> forall i :: 0 <= i < |names| ==> names[i] in AllTargets
    ensures r.Some? ==> r.value in names && r.value !in AllTargets
    decreases |names|
  {
    if |names| == 0 then None
    else if names[0] !in AllTargets then Some(names[0])
    else FirstUnknown(names[1..])
  }

  /** The targets to build: every target when "all" is among the arguments,
      otherwise the arguments in lower case; the first unknown one ends the
      script with an error. */
  function SelectTargets(args: seq<string>): (r: Result<seq<string>>)
    ensures r.Ok? ==> forall t :: t in r.value ==> t in AllTargets
    ensures r.Ok? <==> "all" in args || forall a :: a in args ==> Lower(a) in AllTargets
    ensures r.Ok? && "all" in args ==> r.value == AllTargets
    ensures r.Ok? && "all" !in args ==> r.value == LowerAll(args)
    ensures r.Err? ==> exists a :: a in args && Lower(a) !in AllTargets
                          && r.msg == "Unknown target " + Lower(a) + " see --list-targets"
  {
    if "all" in args then Ok(AllTargets)
    else
      var targets := LowerAll(args);
      LoweredKnown(args);
      match FirstUnknown(targets)
      case None => Ok(targets)
      case Some(t) => Err("Unknown target " + t + " see --list-targets")
  }

  lemma LoweredKnown(args: seq<string>)
    ensures FirstUnknown(LowerAll(args)).None? <==> forall a :: a in args ==> Lower(a) in AllTargets
    ensures FirstUnknown(LowerAll(args)).Some? ==>
      exists a :: a in args && Lower(a) !in AllTargets && Lower(a) == FirstUnknown(LowerAll(args)).value
  {
    var targets := LowerAll(args);
    match FirstUnknown(targets)
    case None =>
      forall a | a in args ensures Lower(a) in AllTargets {
        var i :| 0 <= i < |args| && args[i] == a;
        assert targets[i] == Lower(a);
      }
    case Some(t) =>
      var i :| 0 <= i < |targets| && targets[i] == t;
      assert Lower(args[i]) == t;
  }

  /** "all" is looked for before the names are lowered, so "ALL" is an unknown
      target while "QEMU" selects QEMU (next lemma). */
  lemma UpperCaseAllIsUnknown()
    ensures SelectTargets(["ALL"]) == Err("Unknown target " + "all" + " see --list-targets")
  {
    assert Lower("ALL") == "all";
    assert "all" !in AllTargets;
    var r := SelectTargets(["ALL"]);
    assert !(forall a :: a in ["ALL"] ==> Lower(a) in AllTargets);
    assert r.Err?;
    var a :| a in ["ALL"] && r.msg == "Unknown target " + Lower(a) + " see --list-targets";
    assert a == "ALL";
  }

  lemma UpperCaseTargetSelected()
    ensures SelectTargets(["QEMU"]) == Ok(["qemu"])
  {
    assert Lower("QEMU") == "qemu";
    assert LowerAll(["QEMU"]) == ["qemu"];
  }

  /** What the script does for each selected target. */
  datatype Step = BuildQemu | BuildBinutils | BuildLLVM | BuildCheriBSD | MakeDiskImage | StartEmulator

  function StepOf(i: nat): (s: Step)
    requires i < 6
  {
    if i == 0 then BuildQemu else if i == 1 then BuildBinutils else if i == 2 then BuildLLVM
    else if i == 3 then BuildCheriBSD else if i == 4 then MakeDiskImage else StartEmulator
  }

  /** The position of a step in the fixed order. */
  function Rank(s: Step): (r: nat)
    ensures r < 6 && StepOf(r) == s
  {
    match s
    case BuildQemu => 0
    case BuildBinutils => 1
    case BuildLLVM => 2
    case BuildCheriBSD => 3
    case MakeDiskImage => 4
    case StartEmulator => 5
  }

  lemma RankOfStep(i: nat)
    requires i < 6
    ensures Rank(StepOf(i)) == i
  {
  }

  /** For each position of the fixed order, whether its target is among the arguments. */
  function Selection(targets: seq<string>): (sel: seq<bool>)
    ensures |sel| == 6 && forall i :: 0 <= i < 6 ==> (sel[i] <==> AllTargets[i] in targets)
  {
    seq(6, i requires 0 <= i < 6 => AllTargets[i] in targets)
  }

  /** The selected steps from position `i` on, in the fixed order. */
  function StepsFrom(sel: seq<bool>, i: nat): (r: seq<Step>)
    requires |sel| == 6 && i <= 6
    ensures forall k :: 0 <= k < |r| ==> i <= Rank(r[k])
    decreases 6 - i
  {
    if i == 6 then []
    else (if sel[i] then [StepOf(i)] else []) + StepsFrom(sel, i + 1)
  }

  /** The steps the script runs for the selected targets. */
  function Steps(targets: seq<string>): seq<Step> {
    StepsFrom(Selection(targets), 0)
  }

  /** Each step comes before every step later in the fixed order. */
  predicate InOrder(r: seq<Step>) {
    forall a, b :: 0 <= a < b < |r| ==> Rank(r[a]) < Rank(r[b])
  }

  lemma InOrderCons(h: Step, rest: seq<Step>)
    requires InOrder(rest) && forall k :: 0 <= k < |rest| ==> Rank(h) < Rank(rest[k])
    ensures InOrder([h] + rest)
  {
    var r := [h] + rest;
    forall a, b | 0 <= a < b < |r| ensures Rank(r[a]) < Rank(r[b]) {
      assert r[b] == rest[b - 1];
      if a > 0 {
        assert r[a] == rest[a - 1];
      }
    }
  }

  lemma {:induction false} StepsFromOrdered(sel: seq<bool>, i: nat)
    requires |sel| == 6 && i <= 6
    ensures InOrder(StepsFrom(sel, i))
    decreases 6 - i
  {
    if i < 6 {
      StepsFromOrdered(sel, i + 1);
      var rest := StepsFrom(sel, i + 1);
      if sel[i] {
        RankOfStep(i);
        InOrderCons(StepOf(i), rest);
        assert StepsFrom(sel, i) == [StepOf(i)] + rest;
      } else {
        assert StepsFrom(sel, i) == rest;
      }
    }
  }

  lemma {:induction false} StepsFromSelected(sel: seq<bool>, i: nat, j: nat)
    requires |sel| == 6 && i <= j < 6
    ensures StepOf(j) in StepsFrom(sel, i) <==> sel[j]
    decreases 6 - i
  {
    var rest := StepsFrom(sel, i + 1);
    var head := if sel[i] then [StepOf(i)] else [];
    assert StepsFrom(sel, i) == head + rest;
    if j > i {
      StepsFromSelected(sel, i + 1, j);
      StepOfDistinct(i, j);
      assert StepOf(j) !in head;
    } else {
      NotBefore(sel, i + 1, j);
    }
  }

  /** Different positions of the fixed order are different steps. */
  lemma StepOfDistinct(i: nat, j: nat)
    requires i < 6 && j < 6 && i != j
    ensures StepOf(i) != StepOf(j)
  {
    RankOfStep(i);
    RankOfStep(j);
  }

  /** A step never appears among the steps from a later position on. */
  lemma NotBefore(sel: seq<bool>, i: nat, j: nat)
    requires |sel| == 6 && j < i <= 6
    ensures StepOf(j) !in StepsFrom(sel, i)
  {
    RankOfStep(j);
    var r := StepsFrom(sel, i);
    forall k | 0 <= k < |r| ensures r[k] != StepOf(j) {
    }
  }

  /** The selected steps run in the fixed order qemu, binutils, llvm, cheribsd,
      disk-image, run, each exactly when its target is selected, whatever the
      order of the arguments. */
  lemma StepsInFixedOrder(targets: seq<string>)
    ensures InOrder(Steps(targets))
    ensures forall j :: 0 <= j < 6 ==> (StepOf(j) in Steps(targets) <==> AllTargets[j] in targets)
  {
    var sel := Selection(targets);
    var r := StepsFrom(sel, 0);
    assert Steps(targets) == r;
    StepsFromOrdered(sel, 0);
    forall j | 0 <= j < 6 ensures StepOf(j) in r <==> AllTargets[j] in targets {
      StepsFromSelected(sel, 0, j);
      assert sel[j] <==> AllTargets[j] in targets;
    }
  }

  /** Arguments naming the same targets, in any order or repeated, run the same steps. */
  lemma StepsIgnoreArgumentOrder(t1: seq<string>, t2: seq<string>)
    requires forall x :: x in t1 <==> x in t2
    ensures Steps(t1) == Steps(t2)
  {
    assert Selection(t1) == Selection(t2);
  }

  /** The number of jobs without -j: the CPU count, but 16 above 24 CPUs. */
  function Jobs(cpuCount: nat): (r: nat)
    ensures r <= 24 && r <= cpuCount
    ensures cpuCount <= 24 ==> r == cpuCount
    ensures cpuCount > 24 ==> r == 16
  {
    if cpuCount > 24 then 16 else cpuCount
  }

  /** The make flag: the explicit --make-jobs value unless it is missing or
      zero, otherwise the capped CPU count. */
  function MakeJFlag(makeJobs: Option<int>, cpuCount: nat): (r: string)
    ensures StartsWith(r, "-j") && |r| > 2
  {
    if makeJobs.Some? && makeJobs.value != 0 then "-j" + IntToString(makeJobs.value)
    else "-j" + NatToString(Jobs(cpuCount))
  }

  /** The number after "-j" reads back as the number of jobs chosen; "-j 0"
      counts as not given. */
  lemma MakeJFlagValue(makeJobs: Option<int>, cpuCount: nat)
    ensures var f := MakeJFlag(makeJobs, cpuCount);
      StartsWith(f, "-j") && |f| > 2
    ensures makeJobs.Some? && makeJobs.value > 0 ==>
      var d := MakeJFlag(makeJobs, cpuCount)[2..];
      (forall i :: 0 <= i < |d| ==> IsDigit(d[i])) && DigitsValue(d) == makeJobs.value
    ensures makeJobs.None? || makeJobs.value == 0 ==>
      var d := MakeJFlag(makeJobs, cpuCount)[2..];
      (forall i :: 0 <= i < |d| ==> IsDigit(d[i])) && DigitsValue(d) == Jobs(cpuCount)
    ensures MakeJFlag(Some(0), cpuCount) == MakeJFlag(None, cpuCount)
  {
    var f := MakeJFlag(makeJobs, cpuCount);
    var n: nat := if makeJobs.Some? && makeJobs.value > 0 then makeJobs.value else Jobs(cpuCount);
    if makeJobs.Some? && makeJobs.value < 0 {
      assert f == "-j" + ("-" + NatToString(-makeJobs.value));
    } else {
      assert f == "-j" + NatToString(n);
      assert f[2..] == NatToString(n);
      DigitsValueOfNatToString(n);
    }
  }
}
