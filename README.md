# A verified model of cheribuild's core

cheribuild builds the CHERI toolchain and CheriBSD and then boots them in
QEMU, in Arm's FVP or on a VCU118 FPGA board. Almost all of its own logic
decides things: which targets to build and in which order, which command
lines to hand to make, CMake, configure, QEMU and the FPGA tools, how
options are resolved from the command line, a JSON file and defaults, and
how a scripted console session is read. This project states that logic in
Dafny and proves what it promises.

One Dafny module stands for each source file (or for one part of it):

| module | source |
|---|---|
| `Targets` | `pycheribuild/targets.py`: `Target`, `TargetManager`, `__lt__`, `topologicalSort`, `run` |
| `CombinedTargets`, `CombinedConfig` | `combined.py`: `Target`/`PseudoTarget`/`AllTargets`, `ConfigLoader._loadOption`, `Project`, `coloured`, defaults |
| `ProjectBase` | `pycheribuild/project.py` |
| `Projects` | `pycheribuild/projects/project.py`: `MakeOptions`, `recursive_dependencies`, `_get_make_commandline`, `add_cmake_options` |
| `FreeBSD` | `pycheribuild/projects/cheribsd.py` |
| `CrossCheriBSD` | `pycheribuild/projects/cross/cheribsd.py` |
| `CrossCompile` | `pycheribuild/projects/cross/crosscompileproject.py` |
| `LLVM`, `Snmalloc` | `pycheribuild/projects/llvm.py`, `pycheribuild/projects/cross/snmalloc.py` |
| `ConfigOptions`, `ConfigLoader`, `Json` | `pycheribuild/config/loader.py`, `pycheribuild/configloader.py` |
| `CheriConfigs` | `pycheribuild/config/chericonfig.py`, `defaultconfig.py`, `jenkinsconfig.py`, `pycheribuild/chericonfig.py` |
| `TargetInfo` | `pycheribuild/config/target_info.py` |
| `QemuUtils`, `RunQemu`, `RunFvp` | `pycheribuild/qemu_utils.py`, `projects/run_qemu.py`, `projects/run_fvp.py` |
| `DiskImage` | `pycheribuild/projects/disk_image.py` |
| `Utils`, `Shlex` | `pycheribuild/utils.py` |
| `CombineFiles`, `Colour`, `SshUtils` | `combine-files.py`, `cheribuild/colour.py`, `pycheribuild/ssh_utils.py` |
| `BuildForQemu` | `build_cheribsd_for_qemu.py` |
| `BodiagSuite` | `test-scripts/run_bodiagsuite.py` |
| `Expect`, `BootCheribsd`, `Vcu118` | scripted console sessions, `test-scripts/boot_cheribsd.py`, `vcu118-run.py` |
| `Wrappers`, `Strs`, `StrOrder`, `OrderedMaps`, `Paths`, `Graphs` | shared helpers: `Option`/`Result`, Python string methods, code-point string order, insertion-ordered dicts, `pathlib` on "/"-separated strings, dependency closure |

How the host appears in the model:

- Objects whose methods update their fields (`Target`, `TargetManager`,
  `MakeOptions`, the configuration classes, the option caches, the
  `combine-files.py` accumulators, the disk-image manifest, expect sessions)
  are classes with `modifies` clauses; pure helpers are functions.
- `shutil.which`, file existence, the uid, `os.cpu_count()`, the
  environment, terminal answers and directory listings are parameters.
- `sys.exit`, `fatalError` and a failing `assert` are `Result` or
  `Status` error values, so their paths are part of each contract.
- A console session is the list of lines its program prints, each with
  the seconds that pass before it; `expect` reads lines until a pattern
  matches, the timeout passes or the output ends.
- Python dicts keep insertion order (`OrderedMaps`); a Python set whose
  iteration order the program does not fix is read in sorted order.

Several functions appear in more than one file with the same body; each
is modelled once: `defaultNumberOfMakeJobs` in `pycheribuild/chericonfig.py`
and `pycheribuild/utils.py` is `CombinedConfig.DefaultMakeJobs`
(`combined.py`), `defaultClangTool` in `pycheribuild/chericonfig.py` is
`Utils.LatestClangTool` over `CheriConfigs.LegacyClangVersions`, and the
`__setattr__` guard of `pycheribuild/project.py:482-493` is
`CombinedConfig.Project.SetAttr`.

Some of the code fails on inputs it evidently means to handle: with neither
`--xhost` nor `--xmips` the configuration raises instead of picking CHERI,
a blank line in `os-release` raises, a Jenkins load cannot complete, and a
stripped user file is not taken off the pending list. For each such place
a member named `…AsWritten` computes what the code does and a lemma
exhibits the failure; the rest of the model uses a corrected twin
(`ChooseTarget`, `OsRelease`, `JenkinsConfig.Load`, `AddFile` and the
others listed in "## Findings").

## Model

| member | source | states |
|---|---|---|
| Targets.Target.constructor | pycheribuild/targets.py:39-44 | a new target has its name and dependency set, no project instance and is not completed |
| Targets.Target.CheckSystemDeps | pycheribuild/targets.py:46-52 | a completed target does nothing; otherwise the project is instantiated and exactly one dependency check is recorded; the completion flag never changes |
| Targets.Target.Execute | pycheribuild/targets.py:54-64 | a completed target only warns; otherwise the project is processed exactly once and the target is completed afterwards |
| Targets.RunLast | pycheribuild/targets.py:66-68 | every target other than `run` sorts before `run` |
| Targets.DependencyFirst | pycheribuild/targets.py:69-72 | a (transitive) dependency sorts before the target that needs it and never after it |
| Targets.PrecedesIsKeyLess | pycheribuild/targets.py:66-78 | away from `run` and without cycles, `__lt__` is the order by number of transitive dependencies, then by name |
| Targets.PrecedesIrreflexive | pycheribuild/targets.py:66-78 | without cycles no target sorts before itself |
| Targets.PrecedesStrictTotal | pycheribuild/targets.py:66-78 | away from `run` and without cycles, `__lt__` is total, asymmetric and transitive |
| Targets.InsertTarget | pycheribuild/targets.py:159 | inserting into a sorted list adds exactly the one target (multiset) and keeps every element a registered target |
| Targets.SortTargets | pycheribuild/targets.py:159 | `sorted(chosenTargets)` is a permutation of its input |
| Targets.SortTargetsSorted | pycheribuild/targets.py:159 | without cycles and without `run`, the sorted list is in `__lt__` order |
| Targets.CheckEvents | pycheribuild/targets.py:171-172 | at most one dependency check per chosen target |
| Targets.ExecEvents | pycheribuild/targets.py:174-175 | one execute event per chosen target |
| Targets.PhasesApart | pycheribuild/targets.py:170-175 | all dependency checks come before any execution: the first phase only checks, the second never checks |
| Targets.ProcessedOnce | pycheribuild/targets.py:54-64 | a target is processed exactly once if it was chosen and not completed before, otherwise never (also lines 174-175) |
| Targets.TargetManager.constructor | pycheribuild/targets.py:82-83 | a new manager has no targets |
| Targets.TargetManager.AddTarget | pycheribuild/targets.py:85-86 | registers or replaces the target under its name and changes no other entry |
| Targets.TargetManager.DepsRegistered | pycheribuild/targets.py:126-129 | once every dependency is validated, the dependencies of a registered target are registered |
| Targets.TargetManager.AliasDeps | pycheribuild/targets.py:151-157 | an alias that must build its dependencies brings all transitive dependencies, any other alias its direct ones, a non-alias nothing |
| Targets.TargetManager.Expand | pycheribuild/targets.py:149-158 | every target chosen without `--include-dependencies` is registered |
| Targets.TargetManager.ExpandContents | pycheribuild/targets.py:149-158 | what is chosen without `--include-dependencies` is exactly the named targets plus what their aliases bring |
| Targets.TargetManager.DecidesDetermined | pycheribuild/targets.py:126-166 | which error `run` stops with depends only on the graph and names: invalid dependency first, then unknown name, then a cycle (only with `--include-dependencies`) |
| Targets.TargetManager.Run | pycheribuild/targets.py:124-175 | on an error nothing is checked or executed; otherwise every chosen target is checked before any is executed, and the chosen targets end up completed |
| Targets.TargetManager.Resolve | pycheribuild/targets.py:126-166 | the decision part of `run` changes nothing and only chooses registered targets |
| Targets.TargetManager.Lookup | pycheribuild/targets.py:139-143 | reports no unknown name iff all names are targets; otherwise the first unknown name |
| Targets.TargetManager.Choose | pycheribuild/targets.py:145-166 | reports a cycle exactly when dependencies are included and the reachable graph is cyclic; otherwise the chosen list |
| Targets.TargetManager.ExpandAll | pycheribuild/targets.py:149-158 | the loop over the named targets builds exactly `Expand(names)` |
| Targets.TargetManager.CheckAndExecute | pycheribuild/targets.py:171-175 | the events are the checks followed by the executions, and the chosen targets are completed |
| Targets.TargetManager.CheckAll | pycheribuild/targets.py:171-172 | checks every chosen target not completed before, instantiating its project, and completes nothing |
| Targets.TargetManager.ExecuteAll | pycheribuild/targets.py:174-175 | executes the chosen targets in order and completes exactly them |
| Targets.TargetManager.ExecuteNext | pycheribuild/targets.py:174-175 | one turn of the execute loop extends the events by that target's event and completes it |
| Targets.TopologicalSort | pycheribuild/targets.py:103-122 | closes the input under dependencies; each level is sorted and holds names whose dependencies lie on earlier levels; no name is placed twice; it places everything iff the reachable graph is acyclic (the final assertion) |
| Targets.FlattenLevels | pycheribuild/targets.py:163-166 | the chosen list is the levels one after the other |
| Targets.FlattenLevelled | pycheribuild/targets.py:163-166 | laid out level after level, the sort lists each name once and after all its dependencies |
| Targets.SortOutcome | pycheribuild/targets.py:114-122 | the rounds stop with levels covering a subset; nothing remains iff the names are acyclic |
| Targets.LayerStep | pycheribuild/targets.py:114-121 | one round keeps the level bookkeeping and strictly shrinks what is pending |
| Targets.RankedDeps | pycheribuild/targets.py:115-121 | the names placed by a round have all their dependencies on lower levels |
| Targets.StuckCyclic | pycheribuild/targets.py:116-122 | when names remain and none is ready, some name needs itself |
| Targets.RankedAcyclicOn | pycheribuild/targets.py:114-122 | when everything is placed, no name needs itself |
| Targets.TargetManager.CheckDependencies | pycheribuild/targets.py:126-129 | the validation loop finds no invalid dependency exactly when every target's dependencies are registered; otherwise it stops at the first invalid dependency in iteration order |
| Targets.TargetManager.FirstBadIsBad | pycheribuild/targets.py:126-129 | the dependency reported is unregistered, and every target iterated before its owner has only registered dependencies |
| Targets.TargetManager.FirstMissing | pycheribuild/targets.py:127-129 | the inner loop stops at the first unregistered dependency, all before it being registered |
| Targets.TargetManager.FirstInvalid | pycheribuild/targets.py:126-129 | the outer loop stops at the first target with an unregistered dependency, all before it having only registered ones |
| Targets.TargetManager.ClosedIffNoInvalid | pycheribuild/targets.py:126-129 | the dependencies are closed under registration exactly when no target in iteration order has an invalid one |
| Targets.Rounds | pycheribuild/targets.py:115-122 | the rounds of the sort from a set of placed names are empty exactly when no further name is ready |
| Targets.RoundsStep | pycheribuild/targets.py:116-121 | one round of the while loop appends the sorted ready set as the next level, so the levels so far followed by the remaining rounds stay the rounds from nothing placed |
| Targets.RoundsDone | pycheribuild/targets.py:117-119 | when no name is ready, the levels built are exactly the rounds from nothing placed, so every level is as large as the sort makes it |
| Graphs.Saturate | pycheribuild/targets.py:108-113 | the names chosen for sorting grow to a superset of the input that holds every dependency of its members |
| Graphs.SaturateLeast | pycheribuild/targets.py:108-113 | the closure adds nothing beyond what every dependency-closed superset already holds |
| Graphs.AllDeps | pycheribuild/project.py:114-120 | `allDependencyNames` holds at least the direct dependencies |
| Graphs.AllDepsUnfold | pycheribuild/project.py:114-120 | `allDependencyNames` is the direct dependencies together with each one's own `allDependencyNames`, and nothing more |
| Graphs.AllDepsOfMember | pycheribuild/project.py:114-120 | a transitive dependency's transitive dependencies are transitive dependencies of the target |
| Graphs.AllDepsInGraph | pycheribuild/project.py:114-120 | when every dependency is a registered target, so is every transitive dependency |
| Graphs.Reach | pycheribuild/targets.py:105-113 | the sorted names include the named targets |
| Graphs.ReachClosed | pycheribuild/targets.py:105-113 | the targets reached from the named ones are registered and hold their own dependencies |
| Graphs.FewerDeps | pycheribuild/targets.py:73-77 | without cycles a transitive dependency has strictly fewer transitive dependencies than the target needing it, the fact `__lt__` relies on |
| Graphs.NoSinkHasCycle | pycheribuild/targets.py:116-122 | a non-empty set in which every target waits on another member contains a target that needs itself |
| Graphs.NoSinkNotAcyclic | pycheribuild/targets.py:116-122 | such a set is not free of cycles, so the final assertion of the sort fails only on a real cycle |
| Graphs.RankedAcyclic | pycheribuild/targets.py:114-121 | ranking each dependency on a lower level than its dependants rules out cycles among the ranked names |
| Graphs.CoveredMembers | pycheribuild/project.py:114-120 | the names the loop over a dependency list covers are exactly those dependencies and their transitive dependencies |
| Graphs.CoveredAllDeps | pycheribuild/project.py:114-120 | the loop over the direct dependencies of a target covers exactly its transitive dependencies |
| Graphs.DirectDep | pycheribuild/project.py:114-120 | a direct dependency is a transitive one with strictly fewer transitive dependencies of its own |
| CombinedTargets.Table | combined.py:2052-2083 | every dependency in `targetMap` is itself a target; "all" and "sdk" are the only pseudo targets, and each has a non-empty ordered dependency list naming exactly its dependencies |
| CombinedTargets.TableGraph | combined.py:2083 | the dependency graph of `targetMap` has the table's names and each target's dependency set |
| CombinedTargets.ExecSpec | combined.py:2004-2014 | `execute()` completes the target (and what it runs), never un-completes anything, and each event processes a distinct, previously pending plain target (also lines 2037-2048) |
| CombinedTargets.ExecDeps | combined.py:2041-2046 | the pseudo target's loop completes nothing it did not run and processes each plain target at most once |
| CombinedTargets.ExecDepsStep | combined.py:2041-2046 | one round of the loop skips a completed dependency and otherwise executes it before the rest |
| CombinedTargets.CheckDepsStep | combined.py:2031-2035 | one round of the check loop skips a completed dependency and otherwise checks it before the rest |
| CombinedTargets.NearerDep | combined.py:2061-2083 | in the table a dependency has fewer transitive dependencies than its dependant, which bounds the recursion of pseudo targets |
| CombinedTargets.ExecIdempotent | combined.py:2004-2008 | a second `execute()` of the same target does nothing (also lines 2037-2039) |
| CombinedTargets.ExecWithin | combined.py:2004-2048 | executing a target completes only it and targets it depends on |
| CombinedTargets.ExecDepsWithin | combined.py:2041-2046 | the pseudo target's loop completes only dependencies of the pseudo target |
| CombinedTargets.CheckSpec | combined.py:1996-2002 | `checkSystemDeps()` only checks registered plain targets that have not completed (also lines 2028-2035) |
| CombinedTargets.CheckDepsSpec | combined.py:2031-2035 | the pseudo target's check loop only checks registered plain targets that have not completed |
| CombinedTargets.ExecAllSpec | combined.py:2139-2140 | the execute loop of `run` completes every chosen target and processes each plain target at most once |
| CombinedTargets.CheckAllStep | combined.py:2136-2137 | the check loop of `run` appends one target's checks per round |
| CombinedTargets.ExecAllStep | combined.py:2139-2140 | the execute loop of `run` appends one target's events per round |
| CombinedTargets.AllTargets.constructor | combined.py:2052-2083 | the table is the fixed `targetMap` for FreeBSD or another host, nothing is completed and nothing has happened |
| CombinedTargets.AllTargets.Execute | combined.py:2004-2014 | `execute()` records exactly the events of `ExecSpec` and completes what it says (also lines 2037-2048) |
| CombinedTargets.AllTargets.ExecuteDeps | combined.py:2041-2046 | the pseudo target's execute loop records exactly the events of `ExecDeps` |
| CombinedTargets.AllTargets.CheckSystemDeps | combined.py:1996-2002 | `checkSystemDeps()` records exactly the checks of `CheckSpec` and completes nothing (also lines 2028-2035) |
| CombinedTargets.AllTargets.CheckSystemDepsOfDeps | combined.py:2031-2035 | the pseudo target's check loop records exactly the checks of `CheckDepsSpec` |
| CombinedTargets.AllTargets.Run | combined.py:2116-2140 | an unknown name is reported iff some name is not a target, and it is the first such name; then nothing happens; otherwise the chosen targets are the names as given, or (with dependencies) the levels of the topological sort one after the other, which hold every reachable target once, after its dependencies; all checks come before all executions |
| CombinedTargets.AllTargets.CheckAll | combined.py:2136-2137 | the check loop records `CheckAllSpec` and completes nothing |
| CombinedTargets.AllTargets.ExecuteAll | combined.py:2139-2140 | the execute loop records and completes what `ExecAllSpec` says |
| CombinedTargets.RecursiveDependencyNames | combined.py:2087-2093 | `recursiveDependencyNames` returns `existing` with every transitive dependency added |
| CombinedTargets.AcyclicReach | combined.py:2095-2114 | without cycles in the table there are none among the targets the sort sees |
| ProjectBase.AllDependencyNames | pycheribuild/project.py:116-120 | `allDependencyNames` returns exactly the transitive dependency names of the project's target |
| ProjectBase.QueryYesNo | pycheribuild/project.py:186-200 | pretend and force modes return the forced result, a run without a terminal the default |
| ProjectBase.InteractiveAnswers | pycheribuild/project.py:197-200 | at a terminal an answer starting with "y" is a yes, one starting with "n" a no, and an empty answer the default |
| ProjectBase.CapitalNoAccepted | pycheribuild/project.py:198-200 | with a yes default the answer "No" counts as yes while "no" does not; with a no default "Yes" counts as yes |
| ProjectBase.QueryYesNoCaseless | pycheribuild/project.py:186-200 | the prompt with case ignored keeps the forced and the default results |
| ProjectBase.CaselessAnswers | pycheribuild/project.py:197-200 | with case ignored, "y"/"Y" answers are yes and "n"/"N" answers no under both defaults; it differs from the prompt as written only on answers starting with "N" |
| ProjectBase.BuildDirSuffix | pycheribuild/project.py:364-369 | the build directory suffix starts with "-" and ends with "-build" |
| ProjectBase.BuildDirSuffixDistinct | pycheribuild/project.py:363-369 | native, MIPS and CHERI builds, and CHERI builds of different capability sizes, get different build directories |
| ProjectBase.DefaultBuildDir | pycheribuild/project.py:362-370 | the default build directory lies under the build root and ends with the target's suffix |
| ProjectBase.MakeArgvFront | pycheribuild/project.py:541-559 | "nice" comes first unless disabled, then the optional `bear` prefix, the make command, the arguments and the target |
| ProjectBase.MakeArgvEnd | pycheribuild/project.py:569-575 | with `-k` the command line ends in "-k", or "-k" "50" for ninja; with neither `-k` nor `-v` it ends with the target |
| ProjectBase.RunMake | pycheribuild/project.py:538-577 | the command `runMake` runs and its log file name, with the project's make command standing in for an empty one |
| ProjectBase.AppendTrailingFlags | pycheribuild/project.py:569-575 | the flags appended after the target are those of `TrailingFlags` |
| ProjectBase.LogFileName | pycheribuild/project.py:546-553 | the log file name picked when none is given is the one `LogName` describes |
| ProjectBase.LogName | pycheribuild/project.py:546-553 | a given log file name is kept; otherwise the name starts with the make command's base name and has no directory part |
| ProjectBase.MakeInstallEnv | pycheribuild/project.py:626-631 | an environment exists iff a destination directory is set, and is the process environment with DESTDIR set to it |
| ProjectBase.RealInstallRootDir | pycheribuild/project.py:634-642 | without a destination directory the install directory; with one, a result exactly when the prefix is set and absolute |
| ProjectBase.ReRootedPrefix | pycheribuild/project.py:635-641 | destination "/tmp/benchdir" and prefix "/usr/local" give "/tmp/benchdir/usr/local" |
| ProjectBase.Render | pycheribuild/project.py:728-730 | a boolean CMake value is written ON or OFF, any other as its text |
| ProjectBase.CMakeFlagsAt | pycheribuild/project.py:726-730 | one "-Dname=value" definition per option, each at its option's position |
| ProjectBase.CMakeFlagsAppend | pycheribuild/project.py:726-730 | adding two batches of options gives the definitions of the first then the second |
| ProjectBase.CMakeProject.constructor | pycheribuild/project.py:706-722 | the configure arguments are the source directory, the generator switch, the build type and, for a compilation database, its switch; ninja is the make command for the Ninja generator |
| ProjectBase.CMakeProject.AddCMakeOptions | pycheribuild/project.py:726-730 | appends one definition per option in order and leaves the make command alone |
| ProjectBase.MakeArgv | pycheribuild/project.py:541-575 | the command line of `runMake` holds the make command, every argument and the target when one is given (the positions are MakeArgvFront and MakeArgvEnd) |
| Projects.RecursiveDependencies | pycheribuild/projects/project.py:250-266 | the list has no duplicates, holds exactly the transitive dependencies, and starts with the first direct dependency |
| Projects.AppendNew | pycheribuild/projects/project.py:256-264 | appending the names not yet listed keeps the list duplicate-free, keeps it as a prefix and adds exactly the missing names |
| Projects.SettingValue | pycheribuild/projects/project.py:850-853 | a boolean is stored as "1" or "0", a string as itself |
| Projects.Rendered | pycheribuild/projects/project.py:850-853 | each keyword argument keeps its name and gets its stored value, in order |
| Projects.DoSet | pycheribuild/projects/project.py:849-853 | the loop stores every keyword argument in turn |
| Projects.SetEffect | pycheribuild/projects/project.py:849-856 | after `set` each given key holds its stored value, other keys keep theirs, and earlier keys keep their order |
| Projects.DefinedVar | pycheribuild/projects/project.py:877-883 | a variable can be defined only for BSD make and GNU make; any other kind fails the assertion |
| Projects.WithArgBsd | pycheribuild/projects/project.py:950-951 | for BSD make the WITH_ option as written equals the intended "-DWITH_K" |
| Projects.WithArgGnuMake | pycheribuild/projects/project.py:950-951 | for GNU make `MAN=True` is written "WITH_=1MAN", not "WITH_MAN=1" |
| Projects.CollectAt | pycheribuild/projects/project.py:939-954 | the argument list is produced exactly when every piece is, and then holds each piece in order |
| Projects.CommandLineArgsOk | pycheribuild/projects/project.py:939-954 | for BSD and GNU make the arguments always render; for other kinds exactly when no variable is "1" and no WITH_ option is set |
| Projects.VarResultsOk | pycheribuild/projects/project.py:943-948 | the variables render exactly when the kind can define variables or none of them is "1" |
| Projects.WithResultsOk | pycheribuild/projects/project.py:950-951 | the WITH_ options render exactly when the kind can define variables or there are none |
| Projects.CommandLineArgsOrder | pycheribuild/projects/project.py:939-954 | one argument per variable, then per WITH_ option, then the flags unchanged |
| Projects.CommandLineArgsVars | pycheribuild/projects/project.py:943-948 | a variable "1" is "-DK" for BSD make and "K=1" for GNU make; any other value is "K=V" |
| Projects.KeptFlags | pycheribuild/projects/project.py:961-963 | only flags of the list that do not set the variable are kept |
| Projects.KeptFlagsKeeps | pycheribuild/projects/project.py:961-963 | every flag that does not set the variable is kept |
| Projects.RemoveVarFlags | pycheribuild/projects/project.py:961-963 | the loop over a copy removing each flag that sets the variable leaves exactly the kept flags |
| Projects.PutEach | pycheribuild/projects/project.py:867-869 | the loop of `set_with_options` puts every entry in turn |
| Projects.Dropped | pycheribuild/projects/project.py:969-973 | removing by predicate keeps exactly the keys it does not match, with their values |
| Projects.RemoveAllVars | pycheribuild/projects/project.py:970-973 | the loop over a snapshot of the keys removes exactly the matching ones |
| Projects.MakeOptions.constructor | pycheribuild/projects/project.py:832-843 | the variables hold the keyword arguments, everything else is empty and no command is set |
| Projects.MakeOptions.Set | pycheribuild/projects/project.py:855-856 | the keyword arguments are stored in the variables; nothing else changes |
| Projects.MakeOptions.SetEnv | pycheribuild/projects/project.py:858-859 | the keyword arguments are stored in the environment variables; nothing else changes |
| Projects.MakeOptions.SetWithOptions | pycheribuild/projects/project.py:861-869 | the options are stored as WITH_/WITHOUT_ settings; nothing else changes |
| Projects.MakeOptions.AddFlags | pycheribuild/projects/project.py:871-875 | the flags are appended; nothing else changes |
| Projects.MakeOptions.Command | pycheribuild/projects/project.py:895-901 | a set command wins; otherwise the inferred command, which fails only for a custom tool and is never an absolute path |
| Projects.MakeOptions.SetCommand | pycheribuild/projects/project.py:931-936 | the command and its `-j` setting are set; nothing else changes |
| Projects.MakeOptions.AllCommandlineArgs | pycheribuild/projects/project.py:939-954 | renders the variables, WITH_ options and flags as `CommandLineArgs` says |
| Projects.MakeOptions.RemoveVar | pycheribuild/projects/project.py:956-963 | the variable, its WITH_ option and every flag setting it are removed; nothing else changes |
| Projects.MakeOptions.RemoveFlag | pycheribuild/projects/project.py:965-967 | the first occurrence of the flag, if any, is removed |
| Projects.MakeOptions.RemoveAll | pycheribuild/projects/project.py:969-973 | every variable whose name matches the predicate is removed |
| Projects.MakeOptions.Copy | pycheribuild/projects/project.py:975-983 | a new object with the same entries |
| Projects.MakeOptions.Update | pycheribuild/projects/project.py:985-989 | the other object's variables, options and environment are merged in and its flags appended |
| Projects.InferCommand | pycheribuild/projects/project.py:904-929 | a command is inferred for every kind but a custom tool; it is make, gmake, bmake or ninja and never an absolute path |
| Projects.CommandLineArgsOf | pycheribuild/projects/project.py:939-954 | the three loops of `all_commandline_args` build `CommandLineArgs` |
| Projects.VarArgsOf | pycheribuild/projects/project.py:943-948 | the variable loop stops at the first variable the kind cannot define |
| Projects.WithArgsOf | pycheribuild/projects/project.py:950-951 | the loop over the WITH_ options renders each one in order |
| Projects.CopyThenSet | pycheribuild/projects/project.py:975-983 | setting a variable on a copy leaves the original unchanged |
| Projects.MakeCommandlineFront | pycheribuild/projects/project.py:1384-1398 | "nice" first unless disabled, then the make command, the rendered options and the target |
| Projects.MakeCommandlineJFlag | pycheribuild/projects/project.py:1388-1389 | the `-j` flag follows the target exactly when the build is parallel and the tool accepts it |
| Projects.MakeCommandlineEnd | pycheribuild/projects/project.py:1401-1405 | with `-k` the command line ends in "-k", or "-k" "50" for ninja |
| Projects.GetMakeCommandline | pycheribuild/projects/project.py:1408-1414 | the options default to the project's own and the command to theirs; failing to infer the command or render the options is the error |
| Projects.BuildMakeCommandline | pycheribuild/projects/project.py:1381-1406 | the appends and prefixes of `_get_make_commandline` build `MakeCommandline` |
| Projects.UserDefines | pycheribuild/projects/project.py:1705 | the user defines an option iff some configured option starts with "-D" and its name |
| Projects.DefaultsKept | pycheribuild/projects/project.py:1704-1708 | only options the user does not define are passed on |
| Projects.DefaultsKeptKeeps | pycheribuild/projects/project.py:1704-1708 | every option the user does not define is passed on |
| Projects.CMakeProject.constructor | pycheribuild/projects/project.py:1671-1701 | the configure arguments and the user's CMake options are as given |
| Projects.CMakeProject.AddCMakeOptions | pycheribuild/projects/project.py:1703-1711 | appends a definition for each option the user does not define, in order |
| Projects.CommandLineArgs | pycheribuild/projects/project.py:939-954 | when the arguments render, the raw flags come last and unchanged (when they render is CommandLineArgsOk; their order is CommandLineArgsOrder) |
| Projects.MakeCommandline | pycheribuild/projects/project.py:1381-1406 | the command line holds the make command, every rendered option, the target when one is given and the `-j` flag when it is used (positions in MakeCommandlineFront, MakeCommandlineJFlag, MakeCommandlineEnd) |
| FreeBSD.KernelConfigNames | pycheribuild/projects/cheribsd.py:45-51 | every kernel configuration is a CHERI…_MALTA64 name, and two names agree exactly when the 128-bit choice and the pure-capability choice agree |
| FreeBSD.SameAsCrossConfig | pycheribuild/projects/cheribsd.py:45-51 | the newer per-architecture kernel configuration gives the same name for a pure-capability MIPS target |
| FreeBSD.WithFlagReadsBack | pycheribuild/projects/cheribsd.py:89-90 | a WITH_/WITHOUT_ flag determines its option and setting: two flags agree iff both agree |
| FreeBSD.VarFlagReadsBack | pycheribuild/projects/cheribsd.py:91-96 | a "K=V" flag is read back: the name before the first "=", the value after it |
| FreeBSD.WithFlags | pycheribuild/projects/cheribsd.py:89-90 | one flag per option |
| FreeBSD.VarFlags | pycheribuild/projects/cheribsd.py:91-96 | one flag per variable |
| FreeBSD.WithFlagsAt | pycheribuild/projects/cheribsd.py:89-90 | each option's flag sits at the option's place |
| FreeBSD.VarFlagsAt | pycheribuild/projects/cheribsd.py:91-96 | each variable's flag sits at the variable's place |
| FreeBSD.FlagsOptionsFirst | pycheribuild/projects/cheribsd.py:87-97 | the WITH_ flags come first, one per option in insertion order, each starting "-DWITH" |
| FreeBSD.FlagsVarsAfter | pycheribuild/projects/cheribsd.py:87-97 | the variable flags follow, one per variable in insertion order |
| FreeBSD.FlagsHaveVar | pycheribuild/projects/cheribsd.py:91-96 | every stored variable is passed |
| FreeBSD.FlagsHaveOption | pycheribuild/projects/cheribsd.py:89-90 | every stored option is passed |
| FreeBSD.Accepted | pycheribuild/projects/cheribsd.py:78-84 | `add` stores at most all of its keyword arguments |
| FreeBSD.AcceptedStops | pycheribuild/projects/cheribsd.py:83 | the assertion fails exactly at the first value that is neither a boolean, `None` nor a string |
| FreeBSD.BoolItems | pycheribuild/projects/cheribsd.py:80-81 | no more options than keyword arguments |
| FreeBSD.VarItems | pycheribuild/projects/cheribsd.py:82-84 | no more variables than keyword arguments |
| FreeBSD.ItemsFrom | pycheribuild/projects/cheribsd.py:78-84 | every option comes from a boolean argument and every variable from a `None` or string one |
| FreeBSD.ItemsPartition | pycheribuild/projects/cheribsd.py:78-84 | each accepted argument goes to exactly one of the two maps |
| FreeBSD.AcceptedAll | pycheribuild/projects/cheribsd.py:78-84 | arguments without unsupported values are all stored |
| FreeBSD.AllOptions | pycheribuild/projects/cheribsd.py:80-81 | arguments that are all booleans all become options, in order |
| FreeBSD.AllVariables | pycheribuild/projects/cheribsd.py:82-84 | arguments that are all `None` or strings all become variables, in order |
| FreeBSD.RouteNext | pycheribuild/projects/cheribsd.py:79-84 | one more argument goes into the map its kind selects and leaves the other unchanged |
| FreeBSD.Route | pycheribuild/projects/cheribsd.py:79-84 | the loop of `add` stores the accepted prefix, each argument into the map of its kind |
| FreeBSD.FreeBSDMakeOptions.constructor | pycheribuild/projects/cheribsd.py:72-76 | a new bag is empty |
| FreeBSD.FreeBSDMakeOptions.Add | pycheribuild/projects/cheribsd.py:78-84 | succeeds iff every value is supported; the accepted prefix is stored, booleans as options and the rest as variables |
| FreeBSD.FreeBSDMakeOptions.CommandlineFlags | pycheribuild/projects/cheribsd.py:86-97 | the option flags, then the variable flags |
| FreeBSD.FreeBSDMakeOptions.Copy | pycheribuild/projects/cheribsd.py:336 | the deep copy is a new bag with the same contents |
| FreeBSD.JFlag | pycheribuild/projects/cheribsd.py:389-391 | the `-j` flag is passed iff more than one job runs |
| FreeBSD.JFlagNamesJobs | pycheribuild/projects/cheribsd.py:389-391 | two passed `-j` flags that agree name the same job count |
| FreeBSD.KernelLinker | pycheribuild/projects/cheribsd.py:338-343 | `-fuse-ld=lld` iff the kernel links with LLD; the linker comes from the toolchain for LLD or a crossbuild, else it is plain "ld.bfd" |
| FreeBSD.LinkerSettingsRouted | pycheribuild/projects/cheribsd.py:344-345 | all five linker settings are variables |
| FreeBSD.KernelToolchainLinks | pycheribuild/projects/cheribsd.py:336-346 | the kernel's flags set LD to the chosen linker and LDFLAGS to its `-fuse-ld` flag |
| FreeBSD.Undebugged | pycheribuild/projects/cheribsd.py:351 | the filter never lengthens the list |
| FreeBSD.UndebuggedKeeps | pycheribuild/projects/cheribsd.py:351 | the filter keeps exactly the arguments not starting with "DEBUG" |
| FreeBSD.KernelArgsShape | pycheribuild/projects/cheribsd.py:322-354 | the kernel arguments end with KERNCONF; a crossbuild passes no DEBUG argument and passes -DINSTALL_NODEBUG |
| FreeBSD.KernelArgsDropAutoObj | pycheribuild/projects/cheribsd.py:323-325 | outside a crossbuild the first -DWITH_AUTO_OBJ is removed and the other flags kept in order in front |
| FreeBSD.ToolchainRuns | pycheribuild/projects/cheribsd.py:383 | the kernel-toolchain runs are some of the runs |
| FreeBSD.KernelRunCounted | pycheribuild/projects/cheribsd.py:386-387 | a buildkernel run is not a kernel-toolchain run |
| FreeBSD.ToolchainOptions | pycheribuild/projects/cheribsd.py:377-378 | the kernel-toolchain options are a well-formed ordered map |
| FreeBSD.ToolchainKwargs | pycheribuild/projects/cheribsd.py:377-378 | both keyword lists of the kernel-toolchain step are all options |
| FreeBSD.ToolchainOptionsValues | pycheribuild/projects/cheribsd.py:377-378 | LLD_BOOTSTRAP, CLANG and CLANG_BOOTSTRAP are off and GCC_BOOTSTRAP follows the external kernel toolchain |
| FreeBSD.ToolchainOptionsFlags | pycheribuild/projects/cheribsd.py:377-379 | the kernel-toolchain step passes those four WITH_/WITHOUT_ flags |
| FreeBSD.ToolchainOptionsBag | pycheribuild/projects/cheribsd.py:377-378 | the bag built for the step holds exactly those options and no variables |
| FreeBSD.BuildFreeBSD.constructor | pycheribuild/projects/cheribsd.py:190-254 | the project starts with its settings, no kernel toolchain built and no make runs |
| FreeBSD.BuildFreeBSD.MakeCmdlineFlags | pycheribuild/projects/cheribsd.py:255-256 | the common make arguments come first, followed by the common options' flags |
| FreeBSD.BuildFreeBSD.BuildworldArgs | pycheribuild/projects/cheribsd.py:309-320 | fails iff the external world compiler is missing; otherwise the make flags, -DWITH_AUTO_OBJ iff `auto_obj`, and the cross-toolchain flags iff the external toolchain builds world |
| FreeBSD.BuildFreeBSD.KernelMakeArgsForConfig | pycheribuild/projects/cheribsd.py:322-354 | fails iff the external kernel compiler is missing; otherwise the kernel arguments for the configuration |
| FreeBSD.BuildFreeBSD.KernelOptionsFlags | pycheribuild/projects/cheribsd.py:336-346 | the flags of a copy of the cross-toolchain options with the linker settings added |
| FreeBSD.BuildFreeBSD.ToolchainRun | pycheribuild/projects/cheribsd.py:377-383 | the kernel-toolchain run: make flags, option flags, -DWITH_AUTO_OBJ when set, and the `-j` flag |
| FreeBSD.BuildFreeBSD.BuildKernelToolchain | pycheribuild/projects/cheribsd.py:371-384 | the kernel toolchain is built only when needed and not yet built, and the flag records it |
| FreeBSD.BuildFreeBSD.BuildKernel | pycheribuild/projects/cheribsd.py:369-387 | fails iff the external kernel compiler is missing, with nothing run; otherwise at most one kernel-toolchain run, then buildkernel; never a toolchain run when none is needed |
| FreeBSD.KernelArgs | pycheribuild/projects/cheribsd.py:322-354 | a crossbuild passes "-DINSTALL_NODEBUG" just before the configuration; outside a crossbuild and without a toolchain the make flags lose only their first -DWITH_AUTO_OBJ and gain the configuration (KernelArgsShape and KernelArgsDropAutoObj give the rest) |
| CrossCheriBSD.DefaultKernelConfig | pycheribuild/projects/cross/cheribsd.py:44-64 | a configuration exists for every architecture; only the placeholder target without one fails the assertion |
| CrossCheriBSD.PurecapKernelConfig | pycheribuild/projects/cross/cheribsd.py:49-56 | pure-capability MIPS kernels are CHERI…_MALTA64 names that record the 128-bit and pure-capability choices |
| CrossCheriBSD.FreeBSDInstallDir | pycheribuild/projects/cross/cheribsd.py:67-82 | fails exactly for the placeholder, AArch64 and pure-capability MIPS; otherwise a directory under the output root |
| CrossCheriBSD.InstallDirsDistinct | pycheribuild/projects/cross/cheribsd.py:67-82 | different architectures, and the two MIPS float ABIs, install into different directories |
| CrossCheriBSD.InstallDirIsName | pycheribuild/projects/cross/cheribsd.py:72-80 | each install directory is the output root joined with a freebsd-… name |
| CrossCheriBSD.JoinRelative | pycheribuild/projects/cross/cheribsd.py:73-80 | joining the output root with two relative names gives one path only for one name |
| CrossCheriBSD.DirNamesDistinct | pycheribuild/projects/cross/cheribsd.py:72-80 | the freebsd-… directory names of different architectures and float ABIs differ |
| CrossCheriBSD.JflagInSubjobs | pycheribuild/projects/cross/cheribsd.py:970-971 | at least one job, never more than configured, and half the jobs rounded down otherwise |
| CrossCheriBSD.JflagForUniverse | pycheribuild/projects/cross/cheribsd.py:974-975 | at least one job, never more than configured, and a quarter of the jobs rounded down otherwise |
| CrossCheriBSD.SplitOptionAsWritten | pycheribuild/projects/cross/cheribsd.py:416 | a split that succeeds reassembles the option |
| CrossCheriBSD.SplitAsWrittenRejects | pycheribuild/projects/cross/cheribsd.py:415-418 | the option "CFLAGS=-DX=1" makes the tuple assignment raise |
| CrossCheriBSD.SplitOption | pycheribuild/projects/cross/cheribsd.py:415-418 | the name before the first "=" and the value after it reassemble the option, and the name has no "=" |
| CrossCheriBSD.OptionVars | pycheribuild/projects/cross/cheribsd.py:410-418 | at most one variable per option, and no variable name holds "=" |
| CrossCheriBSD.OptionVarsFromOptions | pycheribuild/projects/cross/cheribsd.py:410-418 | every variable reassembles an option that was not skipped |
| CrossCheriBSD.OptionFlags | pycheribuild/projects/cross/cheribsd.py:419-420 | the raw flags hold no "=", none is skipped, and variables and flags together come from distinct options |
| CrossCheriBSD.PurecapKeepsAll | pycheribuild/projects/cross/cheribsd.py:411-414 | for a pure-capability target nothing is skipped: each option is a variable or a flag |
| CrossCheriBSD.OptionStep | pycheribuild/projects/cross/cheribsd.py:410-420 | one more option adds a variable, a flag or nothing, by its kind |
| CrossCheriBSD.LoopStep | pycheribuild/projects/cross/cheribsd.py:410-420 | handling the options one at a time gives what the whole prefix gives |
| CrossCheriBSD.AddMakeOption | pycheribuild/projects/cross/cheribsd.py:411-420 | one pass of the loop changes only the variables and flags, as one more option says |
| CrossCheriBSD.AddMakeOptions | pycheribuild/projects/cross/cheribsd.py:410-420 | the loop sets the variables and appends the flags the options give, changing nothing else |
| CrossCheriBSD.LibComponent | pycheribuild/projects/cross/cheribsd.py:885 | a "lib" path component first, in the middle or last makes a library subdirectory |
| CrossCheriBSD.EmbeddedMfsImage | pycheribuild/projects/cross/cheribsd.py:664-670 | a kernel configuration naming a USB, NFS or memory-disk root gets no root image; any other keeps it |
| CrossCheriBSD.MfsKernconf | pycheribuild/projects/cross/cheribsd.py:1290-1291 | the kernel with an embedded root file system uses the configuration followed by "_MFS_ROOT" |
| CrossCheriBSD.BenchmarkKernelBeside | pycheribuild/projects/cross/cheribsd.py:1294-1303 | the benchmark kernel path is the plain kernel path followed by "_BENCHMARK", and the file is named after the configuration |
| CrossCheriBSD.FpgaPrefix | pycheribuild/projects/cross/cheribsd.py:1126-1139 | for MIPS a prefix ending "DE4_" exists exactly when a pure-capability build has 128- or 256-bit capabilities; any other architecture is fatal, which a pretend run only reports before going on with the prefix INVALID_KERNCONF_ |
| CrossCheriBSD.ExtraKernels | pycheribuild/projects/cross/cheribsd.py:1124-1145 | without FPGA kernels nothing; otherwise, whenever a prefix exists (including the pretend-mode INVALID_KERNCONF_ one), the two USB-root kernels and, with a root image, the two MFS-root ones, each named by the prefix |
| CrossCheriBSD.FpgaKernelsPrefixed | pycheribuild/projects/cross/cheribsd.py:1124-1145 | every FPGA kernel carries the board prefix; the USB-root pair is always there and the MFS-root pair exactly with a root image |
| CrossCheriBSD.InstalledKernel | pycheribuild/projects/cross/cheribsd.py:1294-1303 | the installed kernel lies inside the image root |
| CrossCheriBSD.PretendInvalidKernels | pycheribuild/projects/cross/cheribsd.py:1136-1139 | outside MIPS a pretend run gets the INVALID_KERNCONF_ prefix, while a real run fails and exits with status 3 |
| CrossCompile.CrosscompileDependencies | pycheribuild/projects/cross/crosscompileproject.py:84-90 | at most one SDK dependency |
| CrossCompile.DependenciesChooseSdk | pycheribuild/projects/cross/crosscompileproject.py:84-90 | a cross build depends on exactly one SDK, the CheriBSD one exactly when it needs the sysroot; a native build depends on the freestanding SDK only when it uses the SDK's compiler (also lines 115-123) |
| CrossCompile.TripleWithVersion | pycheribuild/projects/cross/crosscompileproject.py:253-259 | the result starts with the triple |
| CrossCompile.TripleVersionAdded | pycheribuild/projects/cross/crosscompileproject.py:253-259 | the triple is unchanged exactly for host and bare-metal builds; otherwise exactly "12" is appended |
| CrossCompile.SizeofVoidPtr | pycheribuild/projects/cross/crosscompileproject.py:262-269 | fails only for a CHERI build with capabilities of neither 128 nor 256 bits; otherwise the pointer size in bytes is 64 bits or the capability size over eight |
| CrossCompile.LinkageForcing | pycheribuild/projects/cross/crosscompileproject.py:379-393 | never forced both ways; on the host only an explicit choice forces; a cross build without a choice follows the configuration; an explicit choice wins |
| CrossCompile.Marker | pycheribuild/projects/cross/crosscompileproject.py:480-481 | the placeholder is the key between two "@" |
| CrossCompile.ToolchainFile | pycheribuild/projects/cross/crosscompileproject.py:469-483 | a toolchain file that is written has no "@" left |
| CrossCompile.PrepareToolchainFile | pycheribuild/projects/cross/crosscompileproject.py:469-483 | the loop substitutes every value and yields what `ToolchainFile` describes |
| CrossCompile.NoneSkipped | pycheribuild/projects/cross/crosscompileproject.py:472-473 | a None value changes nothing, wherever it stands |
| CrossCompile.MissingPlaceholderRejected | pycheribuild/projects/cross/crosscompileproject.py:480 | a key whose placeholder is missing from the template fails the assertion |
| CrossCompile.ReplaceOnce | pycheribuild/projects/cross/crosscompileproject.py:481 | a placeholder that occurs once is replaced in place, the text around it kept |
| CrossCompile.OnePlaceholder | pycheribuild/projects/cross/crosscompileproject.py:469-483 | a template with one placeholder and no other "@" becomes the text around it with the rendered value in its place |
| CrossCompile.ProgWithArgs | pycheribuild/projects/cross/crosscompileproject.py:581-584 | the program value starts with the path, and is the path alone without arguments |
| CrossCompile.ProgWithArgsSplit | pycheribuild/projects/cross/crosscompileproject.py:582-584 | the arguments follow the path after one space, joined by spaces |
| CrossCompile.NonEmpty | pycheribuild/projects/cross/crosscompileproject.py:624-626 | keeps exactly the entries whose value is not empty, with their values |
| CrossCompile.NonEmptyIdempotent | pycheribuild/projects/cross/crosscompileproject.py:624-626 | dropping empty entries twice is dropping them once |
| CrossCompile.CmdlineAssignment | pycheribuild/projects/cross/crosscompileproject.py:574-575 | at most one command-line argument per assignment |
| CrossCompile.AutotoolsConfigure.constructor | pycheribuild/projects/cross/crosscompileproject.py:561-566 | the configure arguments are as given and the environment is empty |
| CrossCompile.AutotoolsConfigure.AddConfigureEnvArg | pycheribuild/projects/cross/crosscompileproject.py:568-575 | a false value changes nothing; a list or tuple fails the assertion; a string is set in the environment and, when supported, appended as "K=V" |
| CrossCompile.AutotoolsConfigure.SetProgWithArgs | pycheribuild/projects/cross/crosscompileproject.py:581-587 | the program variable is set to the path and arguments, and passed on the command line when supported |
| CrossCompile.AutotoolsConfigure.RemoveEmptyEntries | pycheribuild/projects/cross/crosscompileproject.py:623-626 | the environment keeps exactly its non-empty entries |
| CrossCompile.AssignmentReadsBack | pycheribuild/projects/cross/crosscompileproject.py:573-575 | an assignment on the command line reads back as the key and the value stored in the environment |
| CrossCompile.Render | pycheribuild/projects/cross/crosscompileproject.py:474-479 | a boolean is written "1" when true and "0" when false, a string as itself, and a list joined by spaces, so an empty list is empty and a one-element list is its element |
| LLVM.AddToolOptions | pycheribuild/projects/llvm.py:47-53 | both options are named after the tool, and the default repository is a ".git" URL under the CHERI project's GitHub |
| LLVM.ToolsWithOptions | pycheribuild/projects/llvm.py:69-74 | at most three tools get options |
| LLVM.ToolRepositoriesDistinct | pycheribuild/projects/llvm.py:47-53 | the default repository names its tool, so distinct tools get distinct repositories, and a tool's two options differ |
| LLVM.NoDefaultSysroot | pycheribuild/projects/llvm.py:55-59 | without the default-sysroot option, no default sysroot is forced |
| LLVM.AppendCheriBitsToBuildDir | pycheribuild/projects/llvm.py:63-64 | a declared setting is kept; an unset one becomes true |
| LLVM.Names | pycheribuild/projects/llvm.py:81-104 | one name per option |
| LLVM.ToolBuildOptions | pycheribuild/projects/llvm.py:84-85 | lld is built unless skipped; lldb never |
| LLVM.NamesOfOptions | pycheribuild/projects/llvm.py:81-104 | the CMake options the constructor adds, group by group, each group under its condition |
| LLVM.SysrootOptionsSet | pycheribuild/projects/llvm.py:93-95 | the default sysroot and triple are set exactly when the default sysroot is not switched off |
| LLVM.SysrootValue | pycheribuild/projects/llvm.py:93-95 | the default sysroot is the SDK's sysroot directory |
| LLVM.AssertionsOptionSet | pycheribuild/projects/llvm.py:100-102 | the assertions switch is set exactly when the user's CMake options do not mention it |
| LLVM.LldOptionSet | pycheribuild/projects/llvm.py:91-92 | lld links LLVM exactly when the compiler can use it |
| LLVM.Cheri128Option | pycheribuild/projects/llvm.py:103-104 | LLVM_CHERI_IS_128 is set exactly for 128-bit builds in per-size build directories |
| LLVM.AddLLVMOptions | pycheribuild/projects/llvm.py:76-104 | the constructor appends the definitions of all its CMake options, in order |
| LLVM.AddPart | pycheribuild/projects/llvm.py:91-104 | one guarded `add_cmake_options` call appends the definitions of its options when the guard holds; when it does not, those options are empty and nothing is appended |
| LLVM.VersionOrder | pycheribuild/projects/llvm.py:131-133 | the tuple order on versions is irreflexive, transitive and total |
| LLVM.CheckClangVersion | pycheribuild/projects/llvm.py:122-124 | a missing C or C++ compiler is a dependency error |
| LLVM.ClangVersionVerdicts | pycheribuild/projects/llvm.py:122-136 | Apple clang is accepted; GCC is never rejected and is warned about exactly below 5.0.0; clang is accepted exactly from the required version; any other compiler is rejected |
| Snmalloc.Implied | pycheribuild/projects/cross/snmalloc.py:87-97 | the settled features satisfy every implication and include the features asked for |
| Snmalloc.ImpliedLeast | pycheribuild/projects/cross/snmalloc.py:87-97 | the chain switches on no more than any choice that satisfies the implications |
| Snmalloc.ImpliedClosed | pycheribuild/projects/cross/snmalloc.py:87-97 | features that already satisfy the chain are left as they are |
| Snmalloc.RevokeNeedsAll | pycheribuild/projects/cross/snmalloc.py:87-97 | revocation ends up with quarantine, CHERI bounds, pagemap rederivation, pagemap pointers and CHERI alignment |
| Snmalloc.Bit | pycheribuild/projects/cross/snmalloc.py:101-110 | a switch definition ends in 1 exactly when the switch is on |
| Snmalloc.Switches | pycheribuild/projects/cross/snmalloc.py:101-110 | ten switches |
| Snmalloc.SwitchFlags | pycheribuild/projects/cross/snmalloc.py:101-110 | ten definitions |
| Snmalloc.IntFlag | pycheribuild/projects/cross/snmalloc.py:114-124 | a definition exactly for a given optional setting |
| Snmalloc.SwitchesReadBack | pycheribuild/projects/cross/snmalloc.py:101-110 | each of the first ten definitions ends in 1 exactly when its switch is on |
| Snmalloc.OptionalFlags | pycheribuild/projects/cross/snmalloc.py:101-127 | one definition per given optional setting, and -DNDEBUG last exactly when debugging is off |
| Snmalloc.RevokeDefinesAll | pycheribuild/projects/cross/snmalloc.py:87-106 | with revocation, the six revocation-related switches are all defined as on |
| Snmalloc.SnMalloc.constructor | pycheribuild/projects/cross/snmalloc.py:84-127 | settles the feature chain, passes revocation and statistics to CMake unless the user defines them, and appends the definitions |
| Snmalloc.SnMalloc.Settle | pycheribuild/projects/cross/snmalloc.py:87-97 | the three checks in source order produce the implied features |
| Snmalloc.SnMalloc.AppendFlags | pycheribuild/projects/cross/snmalloc.py:101-127 | appends the definitions of the current settings |
| ConfigLoader.HelpText | pycheribuild/configloader.py:143-150 | a help text exists iff one was given; a hidden option's help is suppressed unless all help is shown; a visible help text starts with the given one and gains something only for a truthy default |
| ConfigLoader.HelpShowsDefault | pycheribuild/configloader.py:147-150 | a truthy plain default is shown as " (default: '…')" in a visible help text; nothing is appended for a lambda or a falsy default |
| ConfigLoader.FromAliases | pycheribuild/configloader.py:255-263 | when no alias has a value, every long option string looks up `None` |
| ConfigLoader.AliasesNone | pycheribuild/configloader.py:255-263 | the alias loop finds nothing when no long option string has a value |
| ConfigLoader.LoadFromJson | pycheribuild/configloader.py:252-271 | the loop over the option strings that stops at the first value finds what `FromJson` describes |
| ConfigLoader.OwnNameFirst | pycheribuild/configloader.py:253-255 | a value under the option's own name is used whatever the other names and `action.dest` hold |
| ConfigLoader.DestLast | pycheribuild/configloader.py:265-267 | `action.dest` is consulted exactly when no long option name has a value |
| ConfigLoader.NoAliasValue | pycheribuild/configloader.py:255-263 | without a value under any long option name the aliases give `None` |
| ConfigLoader.LoadImpl | pycheribuild/configloader.py:214-237 | a command-line value that is set and differs from the argparse default wins; else a JSON value; else the default |
| ConfigLoader.CommandLineOverrides | pycheribuild/configloader.py:219-223 | a deciding command-line value makes the JSON file and the default irrelevant |
| ConfigLoader.JsonOverridesDefault | pycheribuild/configloader.py:226-232 | a JSON value makes the default irrelevant |
| ConfigLoader.ConvertType | pycheribuild/configloader.py:193-207 | `None` is never converted; any other value that is not a string for a sequence type goes through `valueType` |
| ConfigLoader.Words | pycheribuild/configloader.py:196-199 | a string for a sequence type becomes its words, one string per word |
| ConfigLoader.LoadOption | pycheribuild/configloader.py:187-212 | a loaded value requires a first option string starting "--" and a parsed argument for `action.dest` (also lines 215-216) |
| ConfigLoader.Loader.constructor | pycheribuild/configloader.py:63-66 | a new loader has no parsed arguments, no JSON, no options and no values |
| ConfigLoader.Loader.Load | pycheribuild/configloader.py:75-124 | the targets are the parsed targets followed by the trailing arguments, the JSON is the decoded file; options and values are unchanged |
| ConfigLoader.Loader.AddOption | pycheribuild/configloader.py:139-164 | registering a name twice fails and changes nothing; otherwise the new option is registered under its name with its help text, option strings, dest and default, and nothing is cached |
| ConfigLoader.ConfigOption.constructor | pycheribuild/configloader.py:178-185 | a new option has nothing cached |
| ConfigLoader.ConfigOption.Get | pycheribuild/configloader.py:273-277 | a cached value other than `None` is returned unchanged; otherwise the option is loaded, recorded in `values` under its full name, and cached (also line 211) |
| ConfigOptions.NoPrefix | pycheribuild/config/loader.py:229-231 | the final component of a negated option name, "no-" in front of a component without `/`, contains no `/` |
| ConfigOptions.NegatedNameParts | pycheribuild/config/loader.py:229-231 | the negated name of a boolean option keeps the object references before the last `/` and puts "no-" in front of the final component; a name without `/` simply gets "no-" in front |
| ConfigOptions.NegatedHelp | pycheribuild/config/loader.py:232-240 | the negated option's help is "Do not " followed by the option's help with its first letter lower-cased (seven characters longer); a suppressed help stays suppressed |
| ConfigOptions.LoadImpl | pycheribuild/config/loader.py:204-205 | a default-only option always yields its default; any other kind fails when argparse stored nothing under its destination; a command-line-only option yields the parsed value, or the default when that is `None` |
| ConfigOptions.JsonAndCommandLinePrecedence | pycheribuild/config/loader.py:273-290 | for an option read from both sources: a non-`None` command-line value wins; otherwise a value from the JSON file wins; otherwise the default is used |
| ConfigOptions.Declare | pycheribuild/config/loader.py:209-253 | the declaration carries the name, the destination derived from it and the long option string, plus `-x` for a short name; a boolean (and only a boolean) also declares `--` followed by its negated name |
| ConfigOptions.Loader.constructor | pycheribuild/config/loader.py:71-74 | a new loader has no options, no parsed arguments and an empty JSON object |
| ConfigOptions.Loader.AddOption | pycheribuild/config/loader.py:86-97 | registering a name that is already registered fails and changes nothing; otherwise a fresh option of this loader, with the declaration above and no cached value, is added under that name |
| ConfigOptions.Loader.Reset | pycheribuild/config/loader.py:119-121 | afterwards every registered option has no cached value |
| ConfigOptions.LoadOption | pycheribuild/config/loader.py:146-150 | a `None` loaded value stays `None` after type conversion |
| ConfigOptions.ConfigOption.constructor | pycheribuild/config/loader.py:129-144 | a new option holds its declaration and loader and has no cached value |
| ConfigOptions.ConfigOption.Get | pycheribuild/config/loader.py:159-167 | a cached value is returned unchanged; without one the option is loaded as the loader's kind prescribes and the result is cached when it succeeds; a failure leaves the cache as it was |
| ConfigOptions.NegatedName | pycheribuild/config/loader.py:229-231 | the negated name is three characters longer than the name and keeps everything up to its last `/` (NegatedNameParts places the "no-") |
| Json.LookupKeyInJson | pycheribuild/config/loader.py:292-303 | the loop over the object references computes the lookup of the option name: the name as a flat key first, else each reference followed (a missing one as `{}`) and the final key read, `None` when absent |
| Json.Nest | pycheribuild/config/loader.py:296-302 | a non-empty nesting of references is an object whose only key is the first reference |
| Json.WalkNest | pycheribuild/config/loader.py:299-302 | following the references of a nesting reaches the innermost value |
| Json.WalkEmpty | pycheribuild/config/loader.py:300-302 | following any references from `{}` stays at `{}` |
| Json.NestedLookup | pycheribuild/config/loader.py:292-303 | a name `a/b/…/k` finds the value a JSON file nests as `{"a": {"b": … {"k": v}}}` |
| Json.MissingReference | pycheribuild/config/loader.py:292-303 | a name that is no flat key and whose first reference is absent from the file has the value `None` |
| Json.JsonLines | pycheribuild/config/loader.py:399-403 | the lines handed to the JSON decoder are exactly the lines whose stripped text starts with neither `#` nor `//` |
| Json.JsonLinesAppend | pycheribuild/config/loader.py:399-403 | dropping comment lines from two pieces of a file and concatenating is dropping them from the whole, so the order of lines is kept |
| Json.FilterJsonLines | pycheribuild/configloader.py:110-117 | the loop over the file's lines keeps exactly the non-comment lines, in order |
| CheriConfigs.MakeJFlag | pycheribuild/config/chericonfig.py:149-151 | the make job flag starts with "-j" and carries at least one digit |
| CheriConfigs.JFlagReadsBack | pycheribuild/config/chericonfig.py:149-151 | two job counts give the same flag exactly when they are equal |
| CheriConfigs.SdkDirectoryName | pycheribuild/config/chericonfig.py:157-159 | the SDK directory name starts with "sdk" and is exactly "sdk" when the SDK is unified |
| CheriConfigs.SdkDirectoriesApart | pycheribuild/config/chericonfig.py:157-159 | without a unified SDK, two capability sizes share an SDK directory name exactly when they are equal |
| CheriConfigs.SdkSubdirs | pycheribuild/config/chericonfig.py:161-167 | the bin directory and the sysroot directory are named "bin" and "sysroot" followed by the size, and sit side by side in the SDK directory |
| CheriConfigs.SysrootArchiveName | pycheribuild/config/chericonfig.py:147 | the sysroot archive name starts with "cheri-sysroot" and ends with ".tar.gz" |
| CheriConfigs.ArchiveNamesApart | pycheribuild/config/chericonfig.py:147 | two capability sizes share a sysroot archive name exactly when they are equal |
| CheriConfigs.DollarPath | pycheribuild/config/chericonfig.py:144 | the tool search path starts with the bootstrap tools' bin directory and a `:` and ends with the inherited PATH |
| CheriConfigs.AllSetAround | pycheribuild/config/chericonfig.py:169-177 | with one set attribute between two lists, every attribute is set exactly when the attributes of both lists are |
| CheriConfigs.EnsureRequiredPropertiesSet | pycheribuild/config/chericonfig.py:169-177 | the check succeeds, with True, exactly when no attribute that is not declared optional holds None; otherwise it raises, naming the first such attribute |
| CheriConfigs.CheriConfig.constructor | pycheribuild/config/chericonfig.py:109-123 | a new configuration holds the loaded options, and its size, output root and derived paths start as None |
| CheriConfigs.CheriConfig.Load | pycheribuild/config/chericonfig.py:133-141 | afterwards both compiler paths are set: a compiler that was not found becomes its placeholder path, a found one is kept; nothing else changes |
| CheriConfigs.CheriConfig.InitializeDerivedPaths | pycheribuild/config/chericonfig.py:143-147 | with PATH set, the tool search path, CHERI_BITS in the environment and the sysroot archive name are derived from the bootstrap directory and the size; with PATH unset it raises and assigns nothing |
| CheriConfigs.ArchiveNameOfBits | pycheribuild/config/chericonfig.py:147 | once the size is known the archive name derived from its text is `SysrootArchiveName` of the size |
| CheriConfigs.Actions | pycheribuild/config/defaultconfig.py:50-57 | every action has at least one step |
| CheriConfigs.ActionsOfEveryMember | pycheribuild/config/defaultconfig.py:38-57 | every action except "build and test" stands for itself alone; "build and test" runs "build" and then "test" |
| CheriConfigs.ChooseTargetAsWritten | pycheribuild/config/defaultconfig.py:132-139 | as written: raises exactly when both or neither of `--xhost` and `--xmips` are given; `--xhost` alone gives NATIVE and `--xmips` alone gives MIPS |
| CheriConfigs.DefaultTargetRaises | pycheribuild/config/defaultconfig.py:138-139 | as written, the default (neither flag) raises, and no flag combination selects CHERI |
| CheriConfigs.ChooseTarget | pycheribuild/config/defaultconfig.py:132-139 | raises exactly when both flags are given; with neither flag the target is CHERI |
| CheriConfigs.ChooseTargetAgrees | pycheribuild/config/defaultconfig.py:132-137 | with exactly one flag the corrected and the as-written choice agree: NATIVE for `--xhost`, MIPS for `--xmips` |
| CheriConfigs.DefaultRootsApart | pycheribuild/config/defaultconfig.py:141-142 | the SDK directory and the bootstrap directory under the output root are different paths |
| CheriConfigs.DefaultCheriConfig.constructor | pycheribuild/config/defaultconfig.py:59-128 | the constructor the code evidently intends: it succeeds, records the flags, and sets the size and the output root of the shared configuration, leaving its other fields alone |
| CheriConfigs.DefaultCheriConfig.Load | pycheribuild/config/defaultconfig.py:130-146 | the compilers are set; a flag conflict fails before any path is set; otherwise the target, the SDK directory, the bootstrap directory and the image root follow from the output root; loading succeeds exactly when the target is chosen, PATH is set and no other attribute is missing, and then the archive name, CHERI_BITS and the tool path are derived |
| CheriConfigs.CpuSettings | pycheribuild/config/jenkinsconfig.py:108-119 | exactly six CPU values are known; only "mips" cross-compiles for MIPS, and exactly then with size 0; every known size is 0, 128 or 256 |
| CheriConfigs.InferredArchiveNameParts | pycheribuild/config/jenkinsconfig.py:90 | the inferred archive name starts with the SDK CPU and a `-` and ends with "-jemalloc-sdk.tar.xz" |
| CheriConfigs.JenkinsConfig.constructor | pycheribuild/config/jenkinsconfig.py:40-77 | a Jenkins configuration never asks for input, always cleans and reconfigures, skips updates and dependencies, is verbose without a log file, and holds a given SDK archive name as a Path, not a string |
| CheriConfigs.JenkinsConfig.SdkArchivePath | pycheribuild/config/jenkinsconfig.py:84-92 | a set archive name is kept; an unset one is inferred from SDK_CPU and ISA, unless SDK_CPU is missing or empty outside pretend mode, which is fatal; the path is the name inside the workspace |
| CheriConfigs.JenkinsConfig.SetRoots | pycheribuild/config/jenkinsconfig.py:99-102 | the source and build roots become the workspace, the output root its "tarball" and the bootstrap directory its "bootstrap"; nothing else changes |
| CheriConfigs.JenkinsConfig.LoadAsWritten | pycheribuild/config/jenkinsconfig.py:94-105 | as written, loading never succeeds (assigning the read-only `sdkSysrootDir` raises); a bad workspace fails before any root is set |
| CheriConfigs.JenkinsConfig.LocateSdk | pycheribuild/config/jenkinsconfig.py:103-106 | the tool path, the "cherisdk" directory inside the workspace, and its "sysroot" and "bin" directories are set; nothing else changes |
| CheriConfigs.JenkinsConfig.ApplyCpu | pycheribuild/config/jenkinsconfig.py:108-119 | a known CPU sets the size and the MIPS switch from the mapping; an unknown one is fatal exactly outside pretend mode and leaves the size as it was |
| CheriConfigs.JenkinsConfig.Prepare | pycheribuild/config/jenkinsconfig.py:94-106 | succeeds exactly when the workspace is a directory (or in pretend mode) and PATH is set; then the roots and the SDK paths are derived from the workspace |
| CheriConfigs.JenkinsConfig.Finish | pycheribuild/config/jenkinsconfig.py:108-126 | succeeds exactly when the size is known and no other attribute is missing; `--force-update` turns updates back on; the archive name and CHERI_BITS follow the size |
| CheriConfigs.JenkinsConfig.Load | pycheribuild/config/jenkinsconfig.py:94-126 | a bad workspace fails and changes no root; otherwise the roots, the SDK layout, the size and the MIPS switch follow from the workspace and the CPU; loading succeeds exactly when the workspace, PATH, the CPU and every other attribute are in order |
| CheriConfigs.JenkinsSdkLayout | pycheribuild/config/jenkinsconfig.py:104-106 | the Jenkins SDK directory is "cherisdk", and its sysroot sits beside its bin directory |
| CheriConfigs.LegacyDerive | pycheribuild/chericonfig.py:148-163 | deriving the fields succeeds exactly when PATH is set |
| CheriConfigs.LegacyAgreesWithCurrent | pycheribuild/chericonfig.py:148-163 | the older configuration agrees with the current one on the job flag, the per-size SDK directory, the tool path and CHERI_BITS, but its archive name carries no size |
| CheriConfigs.CpuSetting | pycheribuild/config/jenkinsconfig.py:108-119 | a known CPU cross-compiles for plain MIPS exactly when it is "mips", which is exactly the setting with capability size 0 |
| CheriConfigs.DefaultInitAsWritten | pycheribuild/config/defaultconfig.py:59-65 | as written, the constructor succeeds exactly when no keyword argument is passed to the base constructor and every option group it names exists on the loader; any keyword raises TypeError |
| CheriConfigs.DefaultInitRaises | pycheribuild/config/defaultconfig.py:59-65 | with the code's own `action_class` keyword the constructor raises TypeError, and even without it the first group named, `actionGroup`, raises AttributeError |
| CheriConfigs.JenkinsConfig.SdkArchivePathAsWritten | pycheribuild/config/jenkinsconfig.py:84-92 | as written, an archive name given on the command line, which argparse turns into a Path, fails the `isinstance(..., str)` assertion; an inferred name is a string and passes |
| CombinedConfig.HelpText | combined.py:258-260 | a help text is kept as a prefix and gains " (default: '…')" exactly when the default is a truthy value that is not a lambda; without a help text there is none |
| CombinedConfig.LoadValue | combined.py:290-321 | a truthy command-line value is converted and used; otherwise a truthy JSON value under the option name, else under `action.dest`, is converted and used; otherwise the default, converted only when truthy |
| CombinedConfig.CommandLineOverridesJson | combined.py:293-315 | with a truthy command-line value the JSON file has no influence on the loaded value |
| CombinedConfig.FalsyNotConverted | combined.py:316-318 | a falsy chosen value is returned unconverted, so `None` never becomes "None" |
| CombinedConfig.LoadOption | combined.py:290-321 | loading fails exactly when the first option string does not start with "--" or the command line has not been parsed for the option; the JSON key is the first option string without its "--" |
| CombinedConfig.Loader.constructor | combined.py:210-216 | the loader starts with no options, no parsed arguments, an empty JSON object and no recorded values |
| CombinedConfig.Loader.AddOption | combined.py:257-271 | a fresh option with the long (and short) option string and the help text above is appended to the options, with no cached value; nothing else changes |
| CombinedConfig.ConfigOption.constructor | combined.py:283-288 | the option holds its declaration, help and loader and has no cached value |
| CombinedConfig.ConfigOption.Get | combined.py:323-326 | a truthy cached value is returned unchanged; a falsy one is loaded again, recorded in `values` under the JSON key and cached; a failed load changes nothing |
| CombinedConfig.DefaultMakeJobs | combined.py:329-335 | the default job count is the CPU count, except 16 on a machine with more than 24 CPUs |
| CombinedConfig.MakeJobsBounded | combined.py:329-335 | the default job count is at most the CPU count and at most 24, and positive when there is a CPU |
| CombinedConfig.DefaultSshForwardingPort | combined.py:338-340 | the port lies between 9999 and 19998 |
| CombinedConfig.SshPortPerUser | combined.py:338-340 | user ids 10000 apart share a port, and distinct ids from 1000 to 10999 get distinct ports |
| CombinedConfig.QueryYesNo | combined.py:556-570 | pretend mode answers yes, force mode gives the forced result, and without a terminal the default is returned |
| CombinedConfig.InteractiveAnswers | combined.py:567-570 | at an interactive prompt an answer starting with "y" is yes and one starting with "n" is no, whatever the default; an empty answer gives the default |
| CombinedConfig.ProjectName | combined.py:515-521 | a class named "Build…" gives its suffix with `_` replaced by `-`; otherwise the explicit name is used, and a missing or empty one is fatal |
| CombinedConfig.DerivedNameHasNoUnderscore | combined.py:516-517 | a name derived from the class name contains no `_` |
| CombinedConfig.BuildDirName | combined.py:522-531 | the build directory name starts with the lower-case project name and ends with "-build", with the capability size after the name when it is appended |
| CombinedConfig.Project.constructor | combined.py:513-541 | a new project's attribute dictionary starts empty |
| CombinedConfig.Project.SetAttr | combined.py:544-551 | once `_preventAssign` is set, assigning `configureArgs`, `configureEnvironment` or `commonMakeArgs` exits with status 3 and changes nothing (in pretend mode it warns and assigns); every other assignment stores the value |
| TargetInfo.Name | pycheribuild/config/target_info.py:414-419 | a target's name ends with its suffix and, when it has an operating-system family, starts with that family's short name; its length is the sum of the two |
| TargetInfo.FloatAbisDistinct | pycheribuild/config/target_info.py:402-410 | the soft- and hard-float ABIs differ in both their FreeBSD architecture name and their compiler flag |
| TargetInfo.BuildSuffix | pycheribuild/config/target_info.py:430-447 | computing a build suffix fails exactly for the `NONE` placeholder |
| TargetInfo.CrossSuffixLast | pycheribuild/config/target_info.py:445-447 | a configured cross-target suffix comes last: the suffix is the one without it, then `-` and the cross suffix |
| TargetInfo.PurecapSuffix | pycheribuild/config/target_info.py:432-444 | the pure-capability CheriBSD target's suffix is only `-` and the bits-and-ABI text |
| TargetInfo.MipsSuffix | pycheribuild/config/target_info.py:434-439 | the hybrid CheriBSD MIPS suffix starts with "-mips", continues with "-hybrid" and the bits when hybrid, ends with "-hardfloat" for hard float, and is just "-mips" otherwise |
| TargetInfo.IsMips | pycheribuild/config/target_info.py:454-460 | the query fails exactly when `include_purecap` is left out for the pure-capability CheriBSD target |
| TargetInfo.IsMipsPurecap | pycheribuild/config/target_info.py:454-460 | with `include_purecap` true a target is MIPS exactly when its architecture is MIPS64; otherwise pure-capability targets are not MIPS and other targets are MIPS exactly when their architecture is |
| TargetInfo.ArchIn | pycheribuild/config/target_info.py:483-486 | the loop finds the target's architecture exactly when it occurs in the list |
| TargetInfo.IsCheriPurecap | pycheribuild/config/target_info.py:477-486 | a target is pure-capability for a list of architectures exactly when it is pure-capability and, if a list is given, its architecture is in it |
| TargetInfo.TargetTriple | pycheribuild/config/target_info.py:229-231 | a triple exists except for `NONE`, a pure-capability CheriBSD target that is not MIPS, and a bare-metal target that is not MIPS (also lines 297-300, 324-329, 369-374) |
| TargetInfo.PurecapTripleBits | pycheribuild/config/target_info.py:328 | different capability sizes give different pure-capability CheriBSD triples |
| TargetInfo.KnownTriples | pycheribuild/config/target_info.py:492-510 | every defined target except `NONE` has a triple, and a FreeBSD or non-pure-capability CheriBSD triple starts with the architecture name |
| TargetInfo.PointerSize | pycheribuild/config/target_info.py:136-145 | the pointer size fails exactly for a pure-capability target that is not MIPS or whose capability size is not 128 or 256; a pure-capability pointer has the capability's size in bytes |
| TargetInfo.PlainPointerSize | pycheribuild/config/target_info.py:141-145 | a target that is not pure-capability has 4-byte pointers on i386 and 8-byte pointers everywhere else |
| TargetInfo.Shortname | pycheribuild/config/target_info.py:208 | every family has a non-empty short name, and it ends in "BSD" exactly for FreeBSD and CheriBSD (also lines 271, 308, 345) |
| DiskImage.RelPathOfJoin | pycheribuild/projects/disk_image.py:137 | the path of a file relative to its base directory undoes joining that relative path onto the base |
| DiskImage.RelPathOutside | pycheribuild/projects/disk_image.py:137-138 | a file outside the base directory gets a relative path starting with ".." |
| DiskImage.TargetPath | pycheribuild/projects/disk_image.py:135-138 | an accepted path in the image never starts with ".." |
| DiskImage.TargetBelowBase | pycheribuild/projects/disk_image.py:135-138 | a file below the base directory is placed at its path relative to the base |
| DiskImage.TargetOutsideBase | pycheribuild/projects/disk_image.py:138 | a file outside the base directory is refused |
| DiskImage.AddFile | pycheribuild/projects/disk_image.py:133-157 | adding a file succeeds exactly when its path in the image is accepted (the parent directories `mtree.add_file` also records are left out, see below) |
| DiskImage.AddFileRecords | pycheribuild/projects/disk_image.py:155 | apart from the parent directories left out below, the manifest gains one entry, the installed file under its path in the image, with the given owner, group and mode; the other entries, the generated files and the fatal errors are unchanged |
| DiskImage.AddFileUnpends | pycheribuild/projects/disk_image.py:156-157 | the added file is taken off the pending list of user-provided files once, and is then no longer pending |
| DiskImage.AddFileAsWritten | pycheribuild/projects/disk_image.py:140-157 | as written, adding succeeds exactly when the path in the image is accepted, and the pending-list removal looks for the stripped copy |
| DiskImage.StrippedExtraFileStaysPending | pycheribuild/projects/disk_image.py:149-157 | as written, a pending user-provided ELF file that is stripped stays on the pending list after it is added, against the comment at line 157; the corrected `AddFile` removes one occurrence of it |
| DiskImage.WalkSound | pycheribuild/projects/disk_image.py:371-377 | every file the directory walk reports is a file of the tree, and when pruning it lies in no `.svn`, `.git` or `.idea` directory |
| DiskImage.WalkComplete | pycheribuild/projects/disk_image.py:371-377 | every file of the tree is reported, except those the pruning hides |
| DiskImage.ImagePath | pycheribuild/projects/disk_image.py:160-161 | dropping the leading `/` shortens the path by at most one character |
| DiskImage.WriteFile | pycheribuild/projects/disk_image.py:176 | a successful write without pretend mode records the contents and mode under the target; in pretend mode the state is unchanged |
| DiskImage.CreateFile | pycheribuild/projects/disk_image.py:159-177 | when the step succeeds, the path used in the image has no leading `/` |
| DiskImage.CreateFromUserFile | pycheribuild/projects/disk_image.py:163-177 | a pending user-provided file in the extra-files directory is used instead of generating one; it is added under the path in the image and is no longer pending, and nothing is generated |
| DiskImage.CreateGenerated | pycheribuild/projects/disk_image.py:169-177 | without a user-provided file, the contents are written under the temporary directory and that file is added under the path in the image |
| DiskImage.CreateRefused | pycheribuild/projects/disk_image.py:164-170 | a user-provided file that is not pending, or a pending one that is not a regular file, stops the build and changes nothing |
| DiskImage.ProcessLine | pycheribuild/projects/disk_image.py:691-703 | processing one line either leaves the pending list alone or takes the listed rootfs file off it once |
| DiskImage.LineSkipped | pycheribuild/projects/disk_image.py:693-694 | a comment or blank line changes nothing |
| DiskImage.LineMissing | pycheribuild/projects/disk_image.py:698-699 | a listed file missing from the rootfs stops the build; in pretend mode the error is recorded and the line is still entered in the manifest |
| DiskImage.LineAdded | pycheribuild/projects/disk_image.py:697-703 | an existing listed path is entered in the manifest under the listed path: as a directory when it is one, otherwise as the rootfs file |
| DiskImage.KeyStep | pycheribuild/projects/disk_image.py:624-633 | one key type adds no fatal error and generates no file contents |
| DiskImage.AddBelow | pycheribuild/projects/disk_image.py:133-157 | adding a file below the base directory records it under its relative path (parent directories left out) and appends only its strip commands |
| DiskImage.KeyPaths | pycheribuild/projects/disk_image.py:618-627 | the private and public keys are the distinct paths "etc/ssh/<name>" and "etc/ssh/<name>.pub" below the extra-files directory |
| DiskImage.KeyPairAdded | pycheribuild/projects/disk_image.py:632-633 | both halves of the key pair end up in etc/ssh of the image, the private key with mode 0600 and the public key with mode 0644 |
| DiskImage.KeygenWhenMissing | pycheribuild/projects/disk_image.py:628-631 | ssh-keygen runs first when the private key is missing; earlier commands are kept; with the key present and stripping off, no command runs |
| DiskImage.Scan | pycheribuild/projects/disk_image.py:598-607 | the walk only adds to the manifest, never removes |
| DiskImage.ScanAddsOnlyAlways | pycheribuild/projects/disk_image.py:602-604 | of the walked files, only those under usr/local/, opt/ and extra/ join the manifest during the walk (their parent directories, left out, join as well in the source) |
| DiskImage.ScanAddsAlways | pycheribuild/projects/disk_image.py:602-604 | every walked file under usr/local/, opt/ or extra/ is in the manifest afterwards |
| DiskImage.ScanCollects | pycheribuild/projects/disk_image.py:605-607 | every walked file whose path is not under those directories, not in the manifest and not METALOG is collected with its path |
| DiskImage.ScanCollectsOnly | pycheribuild/projects/disk_image.py:605-607 | every collected pair is a walked file with its relative path, which is not under those directories, not in the manifest and not METALOG |
| DiskImage.AddPairs | pycheribuild/projects/disk_image.py:612-614 | after a yes answer every collected path is in the manifest |
| DiskImage.RunStops | pycheribuild/projects/disk_image.py:691-703 | once a step has stopped the build, later steps change nothing |
| DiskImage.RunCompletes | pycheribuild/projects/disk_image.py:691-703 | in a run that succeeds, every step ran and succeeded |
| DiskImage.HostKeysInstalled | pycheribuild/projects/disk_image.py:616-633 | generating the host keys for every key type never fails (what each type adds to the image is KeyPairAdded) |
| DiskImage.MakefsOptions | pycheribuild/projects/disk_image.py:442-455 | the minimal image asks for 2m of free space and 1k inodes, the others for 1g and 200k; "-M" carries the image class's own minimum size, which is 20m exactly for the minimal image; the byte order is big-endian exactly for big-endian targets; the image path and then the manifest come last |
| DiskImage.MakefsCommandShape | pycheribuild/projects/disk_image.py:434-455 | the command starts with the makefs tool and ends with the fifteen image options, whose minimum size is the one passed in; debug output adds two arguments and x86 four |
| DiskImage.DefaultDiskImageName | pycheribuild/projects/disk_image.py:636-637 | the image is named prefix, "cheri", the bits-and-ABI text and "-disk.img", directly inside the given directory |
| DiskImage.DefaultDiskImagesApart | pycheribuild/projects/disk_image.py:636-645 | different bits-and-ABI texts give different image paths, and the minimal image never lands on a full image's path |
| DiskImage.DiskImageBuilder.constructor | pycheribuild/projects/disk_image.py:103-125 | the builder starts with an empty manifest, no pending files, no generated files, no commands and no fatal errors |
| DiskImage.DiskImageBuilder.AddFileToImage | pycheribuild/projects/disk_image.py:133-157 | the result is the accepted path in the image; on success the new state is `AddFile` of the old one; on refusal nothing changes |
| DiskImage.DiskImageBuilder.AddStep | pycheribuild/projects/disk_image.py:133-157 | adding a file as one step of a run leaves the state the step function prescribes |
| DiskImage.DiskImageBuilder.CreateFileForImage | pycheribuild/projects/disk_image.py:159-177 | the new state and the outcome are those of `CreateFile` |
| DiskImage.DiskImageBuilder.AddAllFilesInDir | pycheribuild/projects/disk_image.py:371-381 | the loop over the walked files leaves the state of the walk-and-add specification: files of the extra-files directory become pending, others are added relative to the root |
| DiskImage.DiskImageBuilder.DeferAll | pycheribuild/projects/disk_image.py:378-379 | the files found in the extra-files directory are appended to the pending list in walk order, and nothing else changes |
| DiskImage.DiskImageBuilder.AddEach | pycheribuild/projects/disk_image.py:380-381 | the other files are added one after the other as the walk-and-add specification says, stopping at the first fatal error |
| DiskImage.DiskImageBuilder.ProcessFileLine | pycheribuild/projects/disk_image.py:692-703 | one line leaves the state the line step prescribes |
| DiskImage.DiskImageBuilder.ProcessFilesList | pycheribuild/projects/disk_image.py:690-703 | the loop over the lines leaves the state of the files-list specification, stopping at the first fatal error |
| DiskImage.DiskImageBuilder.AddKeyPair | pycheribuild/projects/disk_image.py:624-633 | one key type leaves the state the key step prescribes |
| DiskImage.DiskImageBuilder.GenerateSshHostKeys | pycheribuild/projects/disk_image.py:616-633 | the loop over the four key types leaves the state of the host-key specification |
| DiskImage.DiskImageBuilder.AddUnlistedFilesToMetalog | pycheribuild/projects/disk_image.py:595-614 | the new manifest is the specification's: the walked files under usr/local/, opt/ and extra/ are added, and the other unlisted files too when the answer is yes, which it always is in pretend or force mode (also pycheribuild/projects/project.py lines 497-506) |
| DiskImage.DiskImageBuilder.ScanRootfs | pycheribuild/projects/disk_image.py:596-607 | the manifest and the collected list after the walk are those of the walk specification: files under usr/local/, opt/ and extra/ added, unlisted others other than METALOG collected in walk order |
| DiskImage.DiskImageBuilder.AddCollected | pycheribuild/projects/disk_image.py:613-614 | every collected file is added to the manifest in order, as the add-pairs specification says |
| DiskImage.Walk | pycheribuild/projects/disk_image.py:371-377 | the walk is top-down: a directory's own files come first, in listing order, before anything below it (what else it reports is WalkSound and WalkComplete) |
| DiskImage.KeygenCommand | pycheribuild/projects/disk_image.py:628-631 | ssh-keygen is asked for a key of the given type with an empty passphrase, written to the private key's path |
| DiskImage.MinimumImageSize | pycheribuild/projects/disk_image.py:122 | the base image class asks for at least 1g, the minimal CheriBSD image for 20m and the CheriBSD, purecap CheriBSD and FreeBSD images for 256m (also lines 680, 851, 881, 915) |
| DiskImage.MakefsImageOptions | pycheribuild/projects/disk_image.py:442-455 | fifteen options, with the image's minimum size after "-M", the user and group database directory after "-N", then the image path and the manifest last |
| DiskImage.MakefsCommand | pycheribuild/projects/disk_image.py:434-455 | the command starts with the makefs tool and ends with the image path and then the manifest (its exact layout is MakefsCommandShape) |
| QemuUtils.CheriFlags | pycheribuild/qemu_utils.py:106-111 | the trap-on-unrepresentable and debugger-on-trap flags are present exactly when requested for a CHERI target; other targets get none |
| QemuUtils.GuiOptions | pycheribuild/qemu_utils.py:104-112 | without GUI options from the caller "-nographic" is passed; otherwise exactly the caller's options |
| QemuUtils.QemuOptions.constructor | pycheribuild/qemu_utils.py:41-64 | the options hold the target and the settings of its architecture: MIPS uses the Malta machine, no virtio disk and direct kernel boot; RISC-V uses the virt machine and direct boot; x86 has no machine flags and boots from disk; AArch64 uses the virt machine and boots from disk; memory is 2048 |
| QemuUtils.QemuOptions.CanUseVirtioNetwork | pycheribuild/qemu_utils.py:75-79 | virtio networking is usable exactly when the target is not MIPS |
| QemuUtils.QemuOptions.GetCommandline | pycheribuild/qemu_utils.py:95-124 | the command line built step by step is the specification's: binary, machine flags, memory, CHERI flags, GUI options, BIOS arguments, kernel, disk, network and random number generator, each section only when asked for |
| QemuUtils.NewQemuOptions | pycheribuild/qemu_utils.py:41-66 | construction raises `ValueError` exactly for a target without a known architecture; otherwise the fresh options have the settings above |
| QemuUtils.ArchitectureTable | pycheribuild/qemu_utils.py:41-64 | only MIPS goes without a virtio disk, only MIPS and RISC-V boot the kernel directly, only x86 has no machine flags, different binary suffixes mean different architectures, and memory is always 2048 |
| QemuUtils.UserNetworkShape | pycheribuild/qemu_utils.py:81-89 | the network arguments are four, ending with the user-mode back end and the caller's options; the front end is an emulated NIC exactly on MIPS and a PCI virtio device exactly on x86 |
| QemuUtils.DiskImageShape | pycheribuild/qemu_utils.py:68-73 | the image appears once in a raw drive: with virtio as drive "drv" named by a virtio block device, otherwise as the first disk |
| QemuUtils.CommandLineHead | pycheribuild/qemu_utils.py:99-112 | the command line starts with the binary, the machine flags, "-m" and the memory size, then the CHERI flags (none for other targets), then "-nographic" unless the caller chose GUI options |
| QemuUtils.CommandLineEnd | pycheribuild/qemu_utils.py:118-124 | the command line ends with the virtio random number generator when asked for, otherwise with the network arguments when a network device is added |
| QemuUtils.KernelPosition | pycheribuild/qemu_utils.py:113-117 | a kernel is passed as "-kernel" and its path right after the GUI and BIOS arguments |
| QemuUtils.QemuOptions.CommandLine | pycheribuild/qemu_utils.py:95-124 | the command line starts with the QEMU binary and holds at least the machine flags and the memory size after it (CommandLineHead, KernelPosition and CommandLineEnd place the rest) |
| RunQemu.DefaultSshPort | pycheribuild/projects/run_qemu.py:43-45 | each variant's default SSH forwarding port lies between 9999 and 20002 (also lines 176-178, 196-198) |
| RunQemu.VariantPorts | pycheribuild/projects/run_qemu.py:43-45 | the CheriBSD, FreeBSD MIPS and CheriOS variants of one user never share a default port; each stays in its own window of 10000 ports, shifted by 0, 2 and 4 (also lines 174-178, 194-198) |
| RunQemu.MonitorChoice | pycheribuild/projects/run_qemu.py:108-119 | choosing the monitor fails exactly when a telnet port was requested, is taken, and the user refuses the console; a non-empty choice is the telnet monitor on the requested, free port |
| RunQemu.LogfileOptions | pycheribuild/projects/run_qemu.py:120-133 | an explicit log file is passed with "-D" and wins over the log directory; with neither there are no log options |
| RunQemu.DirectoryLog | pycheribuild/projects/run_qemu.py:123-133 | without a log file, the log is "-D" and a file inside the log directory named "qemu-cheri-", the time stamp and ".log" |
| RunQemu.QemuCommandShape | pycheribuild/projects/run_qemu.py:135-146 | the QEMU command starts with the binary, the Malta machine, the kernel, 2048 MiB and "-nographic", then the project, disk, monitor, log and extra options in that order; user networking is appended exactly when enabled, and the redirect of the forwarding port to guest port 22 ends the command exactly when forwarding |
| RunQemu.ToolErrors | pycheribuild/projects/run_qemu.py:90-95 | there is no error about the tools exactly when both the QEMU binary and the kernel exist |
| RunQemu.ImageErrors | pycheribuild/projects/run_qemu.py:96-106 | there is no error about the image or the port exactly when any disk image exists and, when forwarding, the SSH port is free |
| RunQemu.ErrorsInOrder | pycheribuild/projects/run_qemu.py:89-106 | every missing piece is reported once, the binary first, then the kernel, the image and the port |
| RunQemu.Answered | pycheribuild/projects/project.py:497-506 | in pretend or force mode both questions of `process` are answered yes, their forced result; otherwise the user's answers count (also run_qemu.py lines 115, 212) |
| RunQemu.LaunchQEMU.constructor | pycheribuild/projects/run_qemu.py:80-87 | every variant runs the SDK's CHERI QEMU; CheriBSD and FreeBSD MIPS use their own kernel and disk image, no preset disk options, user networking and SSH forwarding; CheriOS uses its own kernel, a virtio disk, "-no-reboot", no user networking and no forwarding (also lines 180-184, 200-208) |
| RunQemu.LaunchQEMU.Process | pycheribuild/projects/run_qemu.py:89-149 | a missing binary or kernel stops the launch before the disk options change; the disk options default to "-hda" and the image when none were preset; a missing image or a taken port stops it next; a refused monitor stops it; otherwise exactly one QEMU command of the shape above runs, after creating the CheriOS disk when asked; in pretend mode the errors are recorded and the launch goes on; both questions are answered yes in pretend or force mode (also lines 210-214) |
| RunQemu.QemuCommand | pycheribuild/projects/run_qemu.py:135-146 | QEMU is run as the given binary with the given kernel; with SSH forwarding the command ends with a "-redir" rule (the full layout is QemuCommandShape) |
| RunFvp.DefaultSshPort | pycheribuild/projects/run_fvp.py:103-106 | the default SSH port lies between 12345 and 22344 |
| RunFvp.SshPortPerUser | pycheribuild/projects/run_fvp.py:103-106 | distinct user ids from 1000 to 10999 get distinct default ports |
| RunFvp.ModelParams | pycheribuild/projects/run_fvp.py:153-169 | the model is given exactly fifteen parameters |
| RunFvp.ModelParamsName | pycheribuild/projects/run_fvp.py:161-168 | the host bridge forwards the chosen SSH port to guest port 22, and the two firmware parameters and the disk parameter name the given files |
| RunFvp.FlattenParams | pycheribuild/projects/run_fvp.py:170 | flattening gives two arguments per parameter |
| RunFvp.FlattenAt | pycheribuild/projects/run_fvp.py:170 | the flattened arguments alternate: "-C", then the next parameter, in order |
| RunFvp.FlattenAppend | pycheribuild/projects/run_fvp.py:170 | flattening two lists of parameters one after the other is flattening them together |
| RunFvp.FvpCommand | pycheribuild/projects/run_fvp.py:171 | the simulator command is the model binary, "--plugin" and the plugin, "--print-port-number", then the flattened parameters |
| RunFvp.ExecuteFvpCommand | pycheribuild/projects/run_fvp.py:73-86 | with docker the command is `docker run -it --rm`, the container, the model path and the plugin inside /opt/FVP_Morello; otherwise the model and the plugin under the install directory; the caller's arguments always come last |
| RunFvp.MissingFiles | pycheribuild/projects/run_fvp.py:135-144 | there are no errors exactly when every needed file exists, and at most one per needed file |
| RunFvp.Launch | pycheribuild/projects/run_fvp.py:131-171 | the launch stops exactly outside pretend mode when the simulator directory or a needed file (after copying a remote disk image) is missing; a launch that goes ahead keeps the earlier fatal errors, sets the license server in the environment and runs a 34-argument command starting with the model binary |
| RunFvp.LaunchForwardsSsh | pycheribuild/projects/run_fvp.py:161-171 | a launch that goes ahead forwards the SSH port to guest port 22 and boots the given disk image |
| RunFvp.LaunchFVP.constructor | pycheribuild/projects/run_fvp.py:108-119 | the launcher holds the license server, firmware path, simulator path, remote disk image, SSH port and disk image it was given |
| RunFvp.LaunchFVP.Process | pycheribuild/projects/run_fvp.py:122-171 | an unset license server or firmware path is fatal outside pretend mode, and in pretend mode is replaced by its placeholder; the rest of the launch is `Launch` with those values |
| CombineFiles.TrailingBlanks | combine-files.py:32-38 | the count of blank lines ending the body never exceeds its length |
| CombineFiles.LastTwo | combine-files.py:33-36 | with fewer than two trailing blank lines, the last two lines are not both blank |
| CombineFiles.AppendNoThree | combine-files.py:33-39 | appending a line that would not be a third blank line in a row keeps the body free of three blank lines in a row |
| CombineFiles.TrailingAppend | combine-files.py:33-38 | a blank line adds one to the trailing blank count and any other line resets it to zero |
| CombineFiles.NextValid | combine-files.py:19-39 | each line keeps the invariant: each block holds only lines of its kind, the body has no three blank lines in a row, and the counter matches the body's trailing blank lines (up to two) |
| CombineFiles.FilterValid | combine-files.py:14-39 | filtering a whole file keeps that invariant |
| CombineFiles.NextRoutes | combine-files.py:19-39 | each line lands in exactly one place: the imports, the from-imports, or the body (a blank line only while fewer than two blank lines precede it); a line marked "# no-combine" or a local import goes nowhere |
| CombineFiles.CounterSharedAcrossFiles | combine-files.py:12 | the blank-line counter carries over between files: after two blank lines, a file starting with a blank line adds nothing to the body for it (also lines 32-36) |
| CombineFiles.SortedUnique | combine-files.py:73-74 | the result holds exactly the given lines |
| CombineFiles.ImportBlocksSorted | combine-files.py:73-74 | each import block holds every import exactly once, in strictly increasing order, and nothing else |
| CombineFiles.OutputShape | combine-files.py:78-82 | the output opens with the shebang, then the import and from-import blocks, and ends with the wiki comment followed by the body |
| CombineFiles.NotAdded | combine-files.py:61-65 | the warnings name exactly the entries of the projects directory that are neither `__pycache__` nor already handled |
| CombineFiles.Combiner.constructor | combine-files.py:8-12 | the script starts with empty blocks, an empty body, a zero counter and no handled files |
| CombineFiles.Combiner.AddFilteredFile | combine-files.py:14-39 | the file is recorded as handled before it is opened; when it can be opened, the loop over its lines leaves the state of the line-filter specification, keeping the invariant; when it cannot, the lists are unchanged |
| CombineFiles.Combiner.Combine | combine-files.py:42-83 | the script succeeds exactly when every listed file can be read; the files are handled in order up to and including the first that cannot be opened, whose predecessors are combined; on success the warnings are computed after the first fourteen files and the printed text is the output of the final state |
| CombineFiles.Combiner.CombineInOrder | combine-files.py:42-82 | the two runs of additions around the warning check succeed exactly when every file can be read, stop at the first that cannot (handled, but its predecessors alone combined), and on success print the output of the final state with the warnings computed after the first part |
| CombineFiles.FilterFilesNext | combine-files.py:42-70 | filtering one more file of the list is filtering the state after the earlier ones with that file's lines |
| CombineFiles.Combiner.AddFiles | combine-files.py:42-58 | a run of additions succeeds exactly when every file can be opened; it handles the files up to and including the first that cannot, and the lists are those of the files before it (also lines 67-70) |
| CombineFiles.Combiner.AddNext | combine-files.py:14-16 | one addition records the next file as handled and combines it when it can be opened, leaving the lists of the earlier files when it cannot |
| CombineFiles.AddedStop | combine-files.py:14-16 | stopping at the first unopenable file, or after the last file, leaves exactly the state of a run of additions (also lines 42-70) |
| CombineFiles.AddedAll | combine-files.py:42-70 | when every file can be opened, every one is handled and combined in order |
| CombineFiles.AddedFirstFails | combine-files.py:58-68 | once the first run of additions failed, the files after it are never reached: the state is that of the whole list |
| CombineFiles.AddedHalves | combine-files.py:43-70 | a complete first run followed by a second run leaves the state of one run over both lists |
| CombineFiles.AllInIffReadable | combine-files.py:14-18 | every file can be opened exactly when none is the first that cannot, and all files before the first that cannot can |
| CombineFiles.FirstUnreadable | combine-files.py:18 | the first file that cannot be opened lies at or after the start, every file before it can be opened, and it cannot |
| CombineFiles.FilePaths | combine-files.py:43-58 | each listed name is joined to the script's directory, in order (also lines 68-70) |
| CombineFiles.Header | combine-files.py:78-80 | the combined file's header opens with the shebang line (OutputShape and ImportBlocksSorted give the import blocks after it) |
| CombineFiles.Output | combine-files.py:78-83 | the printed text ends with the line break `print` adds (OutputShape gives the rest of its layout) |
| Colour.Code | cheribuild/colour.py:4-12 | every colour's code lies between 30 and 37 |
| Colour.CodesContiguous | cheribuild/colour.py:4-12 | the eight colours have the codes 30 to 37 in declaration order, so no two share a code |
| Colour.Coloured | cheribuild/colour.py:15-23 | the result starts with the colour's escape and ends with the reset escape, with the text in between |
| Colour.ColouredContents | cheribuild/colour.py:18-23 | between the escapes: a single string argument is unchanged, a single other argument is its items joined with `sep`, and several arguments are their `str()` values joined with `sep` |
| Colour.StartCode | cheribuild/colour.py:16 | the colour escape is seven characters long and its sixth is the last digit of the colour's code |
| Colour.ColouredDistinguishes | cheribuild/colour.py:15-23 | different colours give different output for the same arguments |
| SshUtils.Entries | pycheribuild/ssh_utils.py:32-49 | the text has eighteen lines: a blank first line, the five host lines, then the option and comment lines, and an indented blank last line |
| SshUtils.HostEntries | pycheribuild/ssh_utils.py:33-37 | the host part is five lines |
| SshUtils.OptionEntries | pycheribuild/ssh_utils.py:38-48 | the option part is eleven lines |
| SshUtils.GenerateSshConfig | pycheribuild/ssh_utils.py:29-49 | generation fails exactly when the key path has an empty name; otherwise the text is those lines joined with newlines |
| SshUtils.ParseLine | pycheribuild/ssh_utils.py:33-48 | the keyword that ssh reads from a line contains no space |
| SshUtils.ParseSetting | pycheribuild/ssh_utils.py:33-48 | a rendered setting reads back as its keyword and value |
| SshUtils.ReadBack | pycheribuild/ssh_utils.py:33-37 | read back, the block names the instance, the user, localhost and the forwarded port, and identifies with the key path without its suffix |
| Utils.FilterEnv | pycheribuild/utils.py:97-102 | keeps exactly the entries the current environment lacks or holds with another value, with their values from the given environment |
| Utils.FilteredExportSame | pycheribuild/utils.py:114-118 | exporting only the filtered entries over the current environment gives the same environment as exporting all of them |
| Utils.Cmdline | pycheribuild/utils.py:178-182 | a single list argument is the command line itself; otherwise there is one string per argument, each the `str` of that argument |
| Utils.RunCmd | pycheribuild/utils.py:176-224 | in pretend mode (unless asked to run anyway) nothing runs and the result is success with status 0; otherwise a non-zero status is an error; a success always carries the command line and status 0 |
| Utils.FirstFound | pycheribuild/utils.py:270-282 | a candidate is found iff some candidate is on the PATH |
| Utils.FirstFoundEarliest | pycheribuild/utils.py:270-282 | the result is the PATH entry of the earliest candidate that is on the PATH |
| Utils.ClangCandidates | pycheribuild/utils.py:270-281 | two candidates per version and the bare name last |
| Utils.ClangCandidateAt | pycheribuild/utils.py:275-278 | the candidates for a version are "nameMN" then "name-M.N" |
| Utils.LatestClangTool | pycheribuild/utils.py:268-282 | the loop returns the first candidate, newest version first and the bare name last, that is on the PATH, or nothing |
| Utils.FatalExit | pycheribuild/utils.py:294-305 | outside pretend mode a fatal error exits with status 3; in pretend mode it exits (with 3) exactly when fatal-when-pretending |
| Utils.VersionAsWritten | pycheribuild/utils.py:252-259 | `tuple(map(int, groups()))` succeeds exactly when the optional third group matched |
| Utils.TwoPartVersionRejected | pycheribuild/utils.py:252-255 | a version "7.0" without a third component makes the conversion fail |
| Utils.Version | pycheribuild/utils.py:252-259 | the major and minor numbers are kept; a three-part version is what the source computes; a missing third part is 0 |
| Utils.Classify | pycheribuild/utils.py:247-259 | gcc wins over clang, clang over Apple LLVM, otherwise an unknown compiler with version (0, 0, 0); the default target is the matched text or empty |
| Utils.CompilerInfoCache.constructor | pycheribuild/utils.py:231 | the cache starts empty |
| Utils.CompilerInfoCache.Get | pycheribuild/utils.py:234-265 | a cached compiler returns its cached information and changes nothing; otherwise the classification is computed and cached under that compiler |
| Utils.OsReleaseLineAsWritten | pycheribuild/utils.py:340-342 | a line splits exactly when its right-stripped text holds "="; the key holds no "=" |
| Utils.OsReleaseAsWritten | pycheribuild/utils.py:334-343 | parsing succeeds exactly when every line holds "=" after right-stripping |
| Utils.BlankLineRaises | pycheribuild/utils.py:339-340 | a blank line in the file makes the parse raise |
| Utils.OsRelease | pycheribuild/utils.py:334-343 | a missing file gives an empty dictionary; a file without blank or comment lines gives what the source computes |
| Utils.SkippedLineIgnored | pycheribuild/utils.py:339-342 | a blank or comment line adds nothing to the result |
| Utils.LineSplit | pycheribuild/utils.py:340-342 | a line "K=V" with V not ending in whitespace gives key K and V with its double quotes stripped |
| Utils.QuotedValue | pycheribuild/utils.py:341-342 | a quoted value is returned without its quotes |
| Utils.Environment.constructor | pycheribuild/utils.py:360 | the environment holds the given variables |
| Utils.SetEnv | pycheribuild/utils.py:348-370 | inside the block the overrides are in force over the old environment; afterwards, whether the block returned or raised, the environment is exactly the old one |
| Shlex.Quote | vcu118-run.py:240-242 | a non-empty string of safe characters is left as it is; anything else comes out wrapped in single quotes |
| Shlex.QuoteRoundTrip | vcu118-run.py:240-242 | the shell reads a quoted word back as the original string, so the argument reaches gdb unchanged |
| Shlex.SafeUnquoted | build_cheribsd_for_qemu.py:58 | a word of safe characters is read back as itself |
| Shlex.QuotedBody | build_cheribsd_for_qemu.py:58-61 | inside single quotes, the escaped body of a string is read back as that string |
| Shlex.EscapeRead | build_cheribsd_for_qemu.py:58-61 | the escape for a single quote is read as one single quote |
| BuildForQemu.Texts | build_cheribsd_for_qemu.py:51-52 | several string arguments are the command line, one string per argument |
| BuildForQemu.CommandLine | build_cheribsd_for_qemu.py:50-54 | a list first argument is the whole command line; otherwise every string argument is one word of it, in order |
| BuildForQemu.WordsOrList | build_cheribsd_for_qemu.py:50-54 | passing the words as separate arguments or as one list gives the same command line |
| BuildForQemu.QuoteAll | build_cheribsd_for_qemu.py:58 | every word of the command is shell-quoted, one quoted word per word |
| BuildForQemu.EchoLine | build_cheribsd_for_qemu.py:56-61 | the echoed line starts in bold yellow with "cd", the quoted working directory and "&&", and ends with the colour reset |
| BuildForQemu.EchoNamesDirectory | build_cheribsd_for_qemu.py:56-61 | the quoted directory inside the echoed line reads back as the working directory |
| BuildForQemu.Under | build_cheribsd_for_qemu.py:68-71 | `rm -rf path` removes exactly the directories that are the path or lie below it |
| BuildForQemu.Shell.constructor | build_cheribsd_for_qemu.py:321-336 | a session starts with the parsed options, the working directory, the environment, the existing directories and files, and nothing echoed, issued, executed or written |
| BuildForQemu.Shell.CommandFor | build_cheribsd_for_qemu.py:50-60 | a list argument is the argv, otherwise the string arguments are; the directory is the given `cwd`, else the current directory |
| BuildForQemu.Shell.RunCmd | build_cheribsd_for_qemu.py:50-63 | the command is echoed and issued once; in pretend mode nothing is executed |
| BuildForQemu.Shell.CleanDir | build_cheribsd_for_qemu.py:66-73 | with `--clean` or force, an existing directory is removed with `rm -rf` (its subtree disappears unless pretending); the directory exists afterwards |
| BuildForQemu.Shell.FatalError | build_cheribsd_for_qemu.py:76-81 | in pretend mode the message is printed as a potential fatal error and the run goes on; otherwise the script exits with the message |
| BuildForQemu.Cleaned | build_cheribsd_for_qemu.py:66-73 | the directory exists after `cleanDir`; without a removal the other directories are unchanged |
| BuildForQemu.CleanedKeepsOthers | build_cheribsd_for_qemu.py:68-71 | removing a directory keeps every directory that is neither it nor below it |
| BuildForQemu.ConfiguredPrefix | build_cheribsd_for_qemu.py:133-140 | QEMU, binutils and LLVM each have a configure command, and one of its arguments ends with "=" and the install directory (also lines 221-222, 235-241) |
| BuildForQemu.UpdateCommands | build_cheribsd_for_qemu.py:94-95 | `update` always includes the `git pull --rebase` of the sources, one more git command for QEMU and LLVM, and only git commands (also lines 163-168, 244-246) |
| BuildForQemu.NotPull | build_cheribsd_for_qemu.py:95 | a command that is not a `git ... pull` is not the update command |
| BuildForQemu.ConfigureNotGit | build_cheribsd_for_qemu.py:133 | the path of a `configure` script is at least nine characters long, so it is never `git` or `rm` (also line 221) |
| BuildForQemu.WriteEcho | build_cheribsd_for_qemu.py:300-301 | when pretending, writing the `fstab` prints an `executing: echo` line instead |
| BuildForQemu.Below | build_cheribsd_for_qemu.py:252-259 | the files LLVM's `install` deletes are exactly the build directory joined with each header path |
| BuildForQemu.BelowSnoc | build_cheribsd_for_qemu.py:256-259 | one more header path adds exactly its file to the deleted files |
| BuildForQemu.RemoveStep | build_cheribsd_for_qemu.py:256-259 | deleting one more header removes its file and prints one more `removing incompatible header` line |
| BuildForQemu.RemovingLines | build_cheribsd_for_qemu.py:256-257 | one `removing incompatible header` line per header, in order |
| BuildForQemu.Project.constructor | build_cheribsd_for_qemu.py:84-92 | each project gets its directories and the make command, configure command and configure arguments of its kind, and has no recorded make arguments yet (also lines 128-140, 218-242, 262-264) |
| BuildForQemu.Project.CommonMakeArgs | build_cheribsd_for_qemu.py:275-284 | CheriBSD's make invocation is eight words: `make`, the CHERI compiler path, the install directory as `DESTDIR` among them |
| BuildForQemu.Project.CompileError | build_cheribsd_for_qemu.py:266-274 | `compile` stops the script exactly for CheriBSD when `PATH` is unset (a `KeyError`) or the CHERI compiler is not a file (a `TypeError` raised while building the message) |
| BuildForQemu.Project.CompileEnviron | build_cheribsd_for_qemu.py:266-271 | CheriBSD's `compile` sets `MAKEOBJDIRPREFIX` to the build directory and makes `PATH` start with the host tools; other kinds leave the environment alone |
| BuildForQemu.Project.CompileEnvironKeepsOthers | build_cheribsd_for_qemu.py:267-270 | every other environment variable keeps its value |
| BuildForQemu.Project.BuildDirs | build_cheribsd_for_qemu.py:119-121 | the build directory exists once `process` has cleaned and created it |
| BuildForQemu.Project.ProcessCommands | build_cheribsd_for_qemu.py:116-125 | when `compile` stops the script only the update, clean and configure commands are issued; otherwise at least one build command follows them |
| BuildForQemu.Project.ProcessKeepsBuildDir | build_cheribsd_for_qemu.py:116-125 | the build directory still exists after `process` unless it lies in CheriBSD's install directory, and that install directory exists after a successful compile (also line 287) |
| BuildForQemu.Project.ProcessEndsWithBuild | build_cheribsd_for_qemu.py:110-125 | for QEMU and binutils `process` ends with `make -jN` and `make install` in the build directory; for LLVM with `ninja -jN`, its `install` issuing no command (also lines 248-259) |
| BuildForQemu.Project.CheriBSDProcessEndsWithBuild | build_cheribsd_for_qemu.py:287-295 | when `compile` goes through, CheriBSD's `process` ends with buildworld, buildkernel, installworld, installkernel and distribution, in the sources |
| BuildForQemu.Project.ProcessOnlyBuilds | build_cheribsd_for_qemu.py:116-125 | with `--skip-update`, `--skip-configure` and no `--clean`, `process` only compiles and installs |
| BuildForQemu.Project.Programs | build_cheribsd_for_qemu.py:90-91 | no project's make or configure command is `git` or `rm`, and the two differ (also lines 132-133, 221, 228, 235) |
| BuildForQemu.Project.PullNotAfterUpdate | build_cheribsd_for_qemu.py:97-125 | the clean, configure, compile and install steps never issue the `git pull` |
| BuildForQemu.Project.PullIffNotSkipped | build_cheribsd_for_qemu.py:116-118 | `process` issues the `git pull` exactly when the update is not skipped, right after QEMU's `po/` reset (also lines 163-168) |
| BuildForQemu.Project.ConfigureNotElsewhere | build_cheribsd_for_qemu.py:94-114 | the configure command is issued by no step but `configure` |
| BuildForQemu.Project.ConfigureIffNotSkipped | build_cheribsd_for_qemu.py:106-125 | `process` runs the configure command exactly when configuration is not skipped, and then right before compiling |
| BuildForQemu.Project.CompileCommand | build_cheribsd_for_qemu.py:110-111 | the base `compile` runs the make command with the `-j` flag in the build directory |
| BuildForQemu.Project.InstallCommand | build_cheribsd_for_qemu.py:113-114 | the base `install` runs `make install` in the build directory |
| BuildForQemu.Project.CleanCommands | build_cheribsd_for_qemu.py:97-104 | `clean` issues at most one command, exactly when `--clean` is given and the build directory holds `.git` or exists: `git clean` or `rm -rf` of the build directory |
| BuildForQemu.Project.InstallSameCommands | build_cheribsd_for_qemu.py:293-295 | only CheriBSD's install commands depend on the make arguments its `compile` recorded (also line 275) |
| BuildForQemu.Project.PullSources | build_cheribsd_for_qemu.py:94-95 | issues exactly the `git -C src pull --rebase` in the source directory |
| BuildForQemu.Project.Update | build_cheribsd_for_qemu.py:94-95 | issues QEMU's `po/` reset before the pull, the pull, and for LLVM the clang pull afterwards (also lines 163-168, 244-246) |
| BuildForQemu.Project.Clean | build_cheribsd_for_qemu.py:97-104 | a build directory holding `.git` is cleaned with `git clean -dfx`, otherwise an existing one is removed; the directory exists afterwards |
| BuildForQemu.Project.Configure | build_cheribsd_for_qemu.py:106-108 | runs the configure command with its arguments in the build directory when there is one, otherwise nothing |
| BuildForQemu.Project.Compile | build_cheribsd_for_qemu.py:110-111 | the base `compile` issues the make command with the `-j` flag; CheriBSD's is dispatched to its own override, which alone may stop the script and alone changes the environment, the directories and the recorded make arguments (also lines 266-289) |
| BuildForQemu.Project.CompileCheriBSD | build_cheribsd_for_qemu.py:266-289 | sets up the environment, stops on an unset `PATH` or a missing CHERI compiler, otherwise records the make arguments, empties and recreates the install directory and issues buildworld and buildkernel |
| BuildForQemu.Project.SetEnvironment | build_cheribsd_for_qemu.py:267-271 | the environment becomes that of a CheriBSD `compile`, and "Set PATH to" with the new `PATH` is printed exactly when it changed; whether `PATH` was set is reported |
| BuildForQemu.Project.BuildWorldAndKernel | build_cheribsd_for_qemu.py:287-289 | the install directory is removed if it exists and recreated, then buildworld and buildkernel are issued in the sources |
| BuildForQemu.Project.BuildTargets | build_cheribsd_for_qemu.py:288-289 | issues buildworld and buildkernel with the `-j` flag in the sources |
| BuildForQemu.Project.Install | build_cheribsd_for_qemu.py:113-114 | the base `install` issues `make install`; LLVM's deletes headers and CheriBSD's installs world, kernel and distribution and writes the `fstab` (also lines 248-259, 291-303) |
| BuildForQemu.Project.InstallLLVM | build_cheribsd_for_qemu.py:248-259 | changes into the build directory; with no header to delete it reports the fatal error (the script exits unless pretending); each header is printed and, unless pretending, its file is deleted |
| BuildForQemu.Project.InstallCheriBSD | build_cheribsd_for_qemu.py:291-303 | without make arguments recorded by `compile` it raises `AttributeError`; otherwise issues installworld, installkernel and distribution and writes the `fstab` |
| BuildForQemu.Project.InstallTargets | build_cheribsd_for_qemu.py:293-295 | issues installworld, installkernel and distribution with the given make arguments, in the sources |
| BuildForQemu.Project.WriteFstab | build_cheribsd_for_qemu.py:297-303 | writes `/dev/ada0 / ufs rw 1 1` to the root file system's `etc/fstab`, or when pretending only prints the `echo` that would |
| BuildForQemu.Project.Prepare | build_cheribsd_for_qemu.py:116-123 | issues the update unless skipped, the clean with `--clean` and the configure unless skipped; the build directory exists afterwards |
| BuildForQemu.Project.Build | build_cheribsd_for_qemu.py:124-125 | compiles, and installs unless compiling stopped the script |
| BuildForQemu.Project.Process | build_cheribsd_for_qemu.py:116-125 | issues update (unless skipped), clean (with `--clean`), configure (unless skipped), compile and install, in this order, and ends in the state and with the exit those steps produce |
| BuildForQemu.LowerAll | build_cheribsd_for_qemu.py:349 | every target name is lower-cased, in order |
| BuildForQemu.FirstUnknown | build_cheribsd_for_qemu.py:351-353 | reports nothing iff every name is a target; otherwise a name that is not |
| BuildForQemu.SelectTargets | build_cheribsd_for_qemu.py:345-353 | "all" selects every target; otherwise the lower-cased names, all of which must be targets, else the script exits naming an unknown one |
| BuildForQemu.LoweredKnown | build_cheribsd_for_qemu.py:349-353 | the check after lowering accepts exactly the arguments whose lower-case form is a target, and names such a form when it fails |
| BuildForQemu.UpperCaseAllIsUnknown | build_cheribsd_for_qemu.py:345-353 | "ALL" is not "all": it is lowered only after the "all" check and then rejected as unknown |
| BuildForQemu.UpperCaseTargetSelected | build_cheribsd_for_qemu.py:349 | "QEMU" selects the qemu target |
| BuildForQemu.Rank | build_cheribsd_for_qemu.py:338 | each step has its position in the target list (also lines 363-374) |
| BuildForQemu.Selection | build_cheribsd_for_qemu.py:363-374 | step i is selected exactly when target i of the target list was chosen |
| BuildForQemu.StepsInFixedOrder | build_cheribsd_for_qemu.py:363-374 | the steps run in the fixed target-list order, and a step runs exactly when its target was chosen |
| BuildForQemu.StepsIgnoreArgumentOrder | build_cheribsd_for_qemu.py:363-374 | the order of the command-line targets does not change what runs |
| BuildForQemu.Jobs | build_cheribsd_for_qemu.py:357-360 | the job count never exceeds 24 or the CPU count; it is the CPU count up to 24 CPUs and exactly 16 above |
| BuildForQemu.MakeJFlag | build_cheribsd_for_qemu.py:361 | the flag is "-j" followed by at least one character |
| BuildForQemu.MakeJFlagValue | build_cheribsd_for_qemu.py:361 | the flag is "-j" and a number: the `-j` option when given and non-zero, otherwise the capped CPU count; `-j 0` counts as not given |
| BodiagSuite.ListExpectedNames | test-scripts/run_bodiagsuite.py:63-70 | the loop lists, for the tests from 291 down to 1, the "-min", "-med", "-large" and "-ok" names of each, in that order |
| BodiagSuite.ShortNumber | test-scripts/run_bodiagsuite.py:65-66 | a test number below 1000 has at most three digits, so the five-digit padding never truncates |
| BodiagSuite.PrefixLength | test-scripts/run_bodiagsuite.py:66 | "basic-{:0>5}" of a test number is 11 characters: "basic-" and five digits whose value is the number |
| BodiagSuite.PrefixDetermines | test-scripts/run_bodiagsuite.py:66-70 | two names with prefixes are equal only with the same test number and the same suffix |
| BodiagSuite.ExpectedNameInjective | test-scripts/run_bodiagsuite.py:63-70 | different positions of the expected list hold different names |
| BodiagSuite.ExpectedNamesDistinct | test-scripts/run_bodiagsuite.py:63-70 | the expected list has 1164 names, no two equal, so `index` and `del` act on the one entry of a name |
| BodiagSuite.EveryVariantExpected | test-scripts/run_bodiagsuite.py:65-70 | every variant of every test from 1 to 291 is expected |
| BodiagSuite.SuiteTitlesDistinct | test-scripts/run_bodiagsuite.py:45-54 | the five suites have five different titles |
| BodiagSuite.AddName | test-scripts/run_bodiagsuite.py:83 | adding a test case to any suite adds exactly its name to the report (also lines 106, 119, 125, 132) |
| BodiagSuite.ExitStatus | test-scripts/run_bodiagsuite.py:103 | the exit status is a byte |
| BodiagSuite.CleanExit | test-scripts/run_bodiagsuite.py:103 | a status counts as a clean exit exactly when its low sixteen bits are 0 or only the core-dump flag |
| BodiagSuite.ExitedOrSignaled | test-scripts/run_bodiagsuite.py:97-98 | a status is never both exited and signalled, and is one of the two unless its low bits mark a stopped process |
| BodiagSuite.Classify | test-scripts/run_bodiagsuite.py:77-125 | an output goes to the broken suite exactly when its result is an error; a pass needs an expected name and numeric contents |
| BodiagSuite.Judge | test-scripts/run_bodiagsuite.py:77-125 | the script's checks in order (expected name, numeric contents, "-ok" or overflow suffix, signal or clean exit) give the classification |
| BodiagSuite.ExpectedNameSuite | test-scripts/run_bodiagsuite.py:102-115 | an expected name ends in "-ok" exactly for the in-bounds variant, and every other variant lands in its overflow suite |
| BodiagSuite.KnownOutcome | test-scripts/run_bodiagsuite.py:88-125 | an expected test with numeric output goes to its variant's suite, is never an error, and passes exactly when an in-bounds run exits cleanly or an overflow run is killed by a signal |
| BodiagSuite.SortedFiles | test-scripts/run_bodiagsuite.py:57-61 | the output files are exactly the "run/*.out" files, in strictly increasing order |
| BodiagSuite.RunLast | test-scripts/run_bodiagsuite.py:72-125 | the loop over the files is the loop over all but the last followed by one more step |
| BodiagSuite.CreateJUnitXml | test-scripts/run_bodiagsuite.py:43-132 | builds exactly the report of the specification: sorted outputs classified in turn, then the missing tests |
| BodiagSuite.RecordOutputs | test-scripts/run_bodiagsuite.py:72-125 | the loop over the sorted files records each file's test case in its suite and removes a known name from the expected list |
| BodiagSuite.RecordMissing | test-scripts/run_bodiagsuite.py:128-132 | every name still expected becomes an error in the broken suite, in order |
| BodiagSuite.StepAccounts | test-scripts/run_bodiagsuite.py:76-125 | one output adds its stem to the report and removes it from the expected names |
| BodiagSuite.RunAccounts | test-scripts/run_bodiagsuite.py:72-125 | the loop adds every stem to the report and removes the stems from the expected names |
| BodiagSuite.MissingAccounts | test-scripts/run_bodiagsuite.py:128-132 | the closing loop adds exactly the missing names to the report |
| BodiagSuite.ReportAccounts | test-scripts/run_bodiagsuite.py:43-132 | the report names every output stem once, and every expected name without an output |
| BodiagSuite.EachTestReportedOnce | test-scripts/run_bodiagsuite.py:43-132 | with distinct output stems, every expected test appears in the report exactly once |
| BodiagSuite.ExpectedNames | test-scripts/run_bodiagsuite.py:63-70 | four names for each of the 291 tests (ExpectedNamesDistinct and EveryVariantExpected say which) |
| BodiagSuite.Step | test-scripts/run_bodiagsuite.py:72-125 | one output removes exactly one entry from the expected names when its stem is among them and none otherwise (StepAccounts gives the report side) |
| BodiagSuite.Run | test-scripts/run_bodiagsuite.py:72-125 | the loop over the outputs never lengthens the expected list (RunAccounts says what it removes and adds) |
| Expect.FirstHit | test-scripts/boot_cheribsd.py:83-94 | the index reported is that of a pattern that matches the line |
| Expect.FirstHitLowest | test-scripts/boot_cheribsd.py:83-94 | when several patterns match, the lowest index wins; no index means no pattern matches |
| Expect.FirstHitShift | test-scripts/boot_cheribsd.py:82-98 | with patterns put in front of a list, a hit among them wins; otherwise the list's hit is shifted by their number |
| Expect.Scan | test-scripts/boot_cheribsd.py:72-98 | `expect` reads at most the whole output; a match consumes at least one line and names a pattern; end of output consumes everything; a timeout stops before a line |
| Expect.ScanHit | test-scripts/boot_cheribsd.py:72-98 | the pattern reported is the first one that matches the last line read |
| Expect.ScanInTime | test-scripts/boot_cheribsd.py:72-98 | a match arrives within the timeout, and a timeout means the next line would have come too late (also line 190) |
| Expect.ScanShift | test-scripts/boot_cheribsd.py:82-98 | while no line matches the front patterns, expecting the longer list reads as much as the shorter and reports the same pattern shifted by the front's length |
| Expect.Progressed | vcu118-run.py:139-149 | after k milestones the script has either reached all k, at increasing positions, or stopped at an earlier one with an outcome other than the first pattern |
| Expect.ProgressedPrefix | vcu118-run.py:139-149 | how far the script gets through the first k milestones depends on them only |
| Expect.RunStoppedAt | vcu118-run.py:139-149 | once the script stops at a milestone, the whole run ends there |
| Expect.ThenAlternative | vcu118-run.py:139-140 | a line matching an alternative pattern of the awaited milestone (such as Vivado's exit banner) stops the run with that pattern |
| Expect.FirstHitSecond | vcu118-run.py:139-146 | a line matching the second pattern but not the first reports the second |
| Expect.ProgressedReached | vcu118-run.py:139-149 | reaching milestone k means milestone k-1 was reached earlier and its first pattern matches the line where k ends |
| Expect.ProgressedIncreasing | vcu118-run.py:139-149 | the reached milestones lie at strictly increasing lines, all before what has been consumed |
| Expect.ProgressedMatches | vcu118-run.py:139-149 | each reached milestone's first pattern occurs on the line where it was reached |
| Expect.RunPositions | vcu118-run.py:139-149 | a completed run reached every milestone, in order, on a line holding its first pattern |
| Expect.Session.constructor | vcu118-run.py:135-137 | a spawned session has its command, arguments, default timeout and pending output, and has seen and sent nothing |
| Expect.Session.Expect | test-scripts/boot_cheribsd.py:83-94 | the outcome is that of the scan; the lines read move from pending to seen |
| Expect.Session.Send | vcu118-run.py:326-327 | the text is appended to what was sent |
| Expect.Session.SendLine | test-scripts/boot_cheribsd.py:184 | the text and a newline are appended to what was sent |
| Expect.Session.ExpectMilestone | vcu118-run.py:139-149 | the first pattern of milestone k extends the progress by one milestone; any other outcome stops the run at k with that outcome |
| Vcu118.Verdict | vcu118-run.py:139-149 | a run ends without fault exactly when every milestone was reached; otherwise the fault is that of the milestone where it stopped |
| Vcu118.Host.constructor | vcu118-run.py:311-313 | the host holds the pretend flag, the PATH lookups, the working directory, the existing files, the scratch file, the Python binary and the default timeout, and has done nothing yet |
| Vcu118.Tool | vcu118-run.py:300-302 | a given tool path is used as is; otherwise what `shutil.which` finds, and the plain name exactly when it finds nothing else |
| Vcu118.Openocd | vcu118-run.py:301-302 | the openocd path is absolute whenever the working directory is: `abspath_arg` also applies to the default, so a bare "openocd" fallback is joined to the working directory (also lines 158-159) |
| Vcu118.Host.Spawn | vcu118-run.py:134-137 | spawning records the command and returns a fresh session on the given output with the command's program and arguments (also lines 190-193, 244-247) |
| Vcu118.VivadoArgv | vcu118-run.py:130-132 | Vivado runs in batch mode with the script and then the bitfile and the LTX file as its two Tcl arguments |
| Vcu118.Programming | vcu118-run.py:138-149 | four milestones; the first three also accept Vivado's exit banner, and "Done!" waits five minutes |
| Vcu118.Cleanup | vcu118-run.py:151-155 | the two Vivado logs are deleted, and only a real run sleeps 3 seconds |
| Vcu118.Await | vcu118-run.py:139-149 | waiting for milestone k either advances the run by one milestone or ends it there with the run's verdict |
| Vcu118.AwaitProgramming | vcu118-run.py:139-149 | the conversation with Vivado ends with the fault the programming milestones give for its output |
| Vcu118.AwaitFour | vcu118-run.py:139-149 | four milestones in turn, stopping at the first that fails, end with the verdict of the whole run |
| Vcu118.LoadBitfile | vcu118-run.py:123-155 | without Vivado on the PATH a real run stops before spawning anything; otherwise Vivado is spawned, the result is the programming verdict, and the clean-up happens only after success |
| Vcu118.ProgrammingOrder | vcu118-run.py:139-149 | a programmed FPGA means Vivado printed its banner, "Programming...", "Done!" and its exit banner on four lines in this order |
| Vcu118.ExitBannerFails | vcu118-run.py:139-147 | Vivado's exit banner where a milestone is awaited, without that milestone's text, ends programming with that milestone's failure |
| Vcu118.DigitRun | vcu118-run.py:197-199 | the port's digits are the longest run of digits at that position |
| Vcu118.PortRoundTrip | vcu118-run.py:197-199 | the port read back from openocd's "Listening on port N for gdb connections" line is N |
| Vcu118.DigitRunStops | vcu118-run.py:197 | a run of digits ends at the first character that is not a digit |
| Vcu118.TelnetAnnounced | vcu118-run.py:200 | a ready bridge keeps the gdb port and never reads past the output |
| Vcu118.BridgePortPrinted | vcu118-run.py:184-202 | the gdb port openocd is started with was printed on a line it read |
| Vcu118.PortsPrinted | vcu118-run.py:196-200 | the port the bridge reports was printed on a line it read |
| Vcu118.StartOpenocd | vcu118-run.py:184-202 | openocd is spawned once; the result is the start-up verdict, and when ready the gdb port and the unread output |
| Vcu118.AwaitPorts | vcu118-run.py:196-199 | the gdb port is the one announced, 3333 being the default, or the fault of the announcement milestone |
| Vcu118.AwaitTelnet | vcu118-run.py:200 | waits for the telnet announcement and reports its verdict |
| Vcu118.ExArgs | vcu118-run.py:223-242 | each gdb command becomes two arguments, "-ex" and the command |
| Vcu118.ExRoundTrip | vcu118-run.py:223-242 | reading the "-ex" pairs back gives the commands in order |
| Vcu118.GdbArgvOrder | vcu118-run.py:223-242 | gdb is given the firmware image, then "target extended-remote" to the bridge's port first and the firmware load last; a kernel's symbol file and load come right before that, both shell-quoted |
| Vcu118.GdbMilestones | vcu118-run.py:248-269 | eight milestones with a kernel, six without; loading the kernel waits twenty minutes, more than the ten for the firmware |
| Vcu118.DebuggerDone | vcu118-run.py:248-269 | a debugger without fault went through all its milestones |
| Vcu118.KernelPatterns | vcu118-run.py:256-269 | with a kernel, the bootrom message is followed by two pairs of "Loading section .text" and "Transfer rate:" |
| Vcu118.KernelBeforeFirmware | vcu118-run.py:258-269 | with a kernel and no fault, two load-and-transfer pairs appear in this order: the kernel's, then the firmware's |
| Vcu118.AttachDebugger | vcu118-run.py:243-273 | gdb is spawned once; the verdict is the debugger milestones' one, with openocd's acceptance awaited in between; only success sends "continue" |
| Vcu118.AwaitRest | vcu118-run.py:252-269 | the remaining gdb milestones end with the verdict of their run |
| Vcu118.MinitermArgv | vcu118-run.py:211 | miniterm runs under the Python binary on the board's device |
| Vcu118.ConsoleReady | vcu118-run.py:217 | the serial console is ready exactly when the miniterm banner is read, and a panic marker first is a kernel panic |
| Vcu118.OpenConsole | vcu118-run.py:210-218 | miniterm is spawned once on the device and the result is the console's verdict |
| Vcu118.SymbolFile | vcu118-run.py:230-240 | a given debug file wins; otherwise the kernel's ".full" sibling when it exists, else the kernel itself |
| Vcu118.LtxBesideBitfile | vcu118-run.py:315-316 | the default LTX file is the bitfile's sibling with the same stem and suffix ".ltx" |
| Vcu118.FirstBoard | vcu118-run.py:280-288 | the first port, from a start index, whose vendor and product ids are the board's, or none |
| Vcu118.FindTty | vcu118-run.py:280-288 | the loop returns the first port with the board's vendor and product ids; none means no port has them |
| Vcu118.LoadAndStartKernel | vcu118-run.py:205-277 | opens the console, starts the bridge and attaches the debugger, with the verdict and actions of the start plan; on success the console is open and nothing was sent to it |
| Vcu118.StartBridge | vcu118-run.py:219-277 | starts openocd and then, when it is ready, the debugger, with the bridge plan's verdict and actions |
| Vcu118.StartDebugger | vcu118-run.py:223-277 | attaches gdb and waits for the boot, with the kernel plan's verdict and actions |
| Vcu118.Control | vcu118-run.py:326-327 | `sendcontrol(c)` sends the single control character of that letter |
| Vcu118.Program | vcu118-run.py:314-317 | an empty bitfile name without an LTX file fails; a real run without Vivado fails; otherwise Vivado is run on the bitfile and the given or derived LTX file |
| Vcu118.Bringup | vcu118-run.py:291-332 | the whole script: optional programming, the serial port search, the start and the interactive session, with the plan's verdict and actions; on success the console got Ctrl-T and Ctrl-H and stopped logging |
| Vcu118.Interact | vcu118-run.py:324-332 | sends Ctrl-T and Ctrl-H to the console and turns its logging off |
| Vcu118.StartOrder | vcu118-run.py:205-277 | the start spawns miniterm first, then openocd, then gdb on the announced port, and stops early exactly when a stage fails |
| Vcu118.StartedThroughBridge | vcu118-run.py:196-199 | in a successful start gdb targets a port that openocd printed (also lines 221-224) |
| Vcu118.NoBitfileNoVivado | vcu118-run.py:314-317 | without a bitfile the script never runs Vivado, deletes nothing and does not sleep |
| Vcu118.StartRunsNoVivado | vcu118-run.py:205-277 | the start stage never runs Vivado, deletes nothing and does not sleep |
| Vcu118.BringupOrder | vcu118-run.py:314-332 | a successful run programs the FPGA first when given a bitfile (with the derived LTX file when none is given), then opens the console on the first board port, and ends interacting |
| Vcu118.OpenocdArgv | vcu118-run.py:184-188 | openocd is run with the generated script as its one `-f` configuration file |
| Vcu118.GdbCommands | vcu118-run.py:223-242 | six commands without a kernel and eight with one: connect to the bridge's port first, load the firmware last, and with a kernel read its symbols and then load it just before the firmware |
| Vcu118.GdbArgv | vcu118-run.py:223-243 | gdb is started on the firmware image followed by one "-ex" pair per command (GdbArgvOrder reads the commands back) |
| Vcu118.ProgramStageRunsVivado | vcu118-run.py:123-160 | a programming stage that goes on runs Vivado on the bitfile first, with the probes file derived from it when none is given, and does nothing without a bitfile |
| BootCheribsd.Failure | test-scripts/boot_cheribsd.py:117-122 | a failure ends the script with status 1 when asked to exit, and otherwise returns false |
| BootCheribsd.AsList | test-scripts/boot_cheribsd.py:80-81 | a single pattern becomes the one-element list holding it; a list is kept as given |
| BootCheribsd.Unshift | test-scripts/boot_cheribsd.py:84-98 | a match of one of the three panic patterns ends the script with status 1; any other match is renumbered to the caller's list by subtracting three; a timeout or end of output raises |
| BootCheribsd.UnshiftAsWritten | test-scripts/boot_cheribsd.py:84-96 | as written, a panic match raises NameError (the panic handler is called on an undefined name) before the script can exit; every other outcome is as in Unshift |
| BootCheribsd.EffectiveTimeoutAsWritten | test-scripts/boot_cheribsd.py:76-83 | as written, the timeout given to expect_exact is never passed on, so the session's default timeout applies whatever the caller asked for |
| BootCheribsd.ExpectExact | test-scripts/boot_cheribsd.py:76-87 | a pattern list holding a panic pattern fails the assertion and reads nothing; otherwise the result is Unshift of the first exact match, over the panic patterns followed by the caller's, within the caller's timeout, and exactly the lines up to that match move from the pending console to the transcript |
| BootCheribsd.ExpectExactAsWritten | test-scripts/boot_cheribsd.py:76-87 | the same scan with the code's own panic handling and the default timeout in place of the caller's, consuming the lines that scan reads |
| BootCheribsd.InstanceResult | test-scripts/boot_cheribsd.py:72-74 | a pattern list holding a panic pattern fails the assertion; a match without a timeout marker is an index into the caller's list (also lines 89-98) |
| BootCheribsd.InstanceRead | test-scripts/boot_cheribsd.py:89-98 | expect never consumes more lines than the output holds |
| BootCheribsd.InstanceExpect | test-scripts/boot_cheribsd.py:72-74 | the result is InstanceResult of the pending output, and exactly the lines InstanceRead counts are consumed (also lines 89-98) |
| BootCheribsd.InstanceUnshifted | test-scripts/boot_cheribsd.py:89-98 | on output with no panic line, prefixing the panic patterns changes nothing: the result is the caller's own match index, or the timeout marker's index on a timeout, and the same lines are consumed |
| BootCheribsd.ExpectExactUnshifted | test-scripts/boot_cheribsd.py:82-87 | on output with no panic line, expect_exact answers the index the caller's own list would have matched and consumes the same lines |
| BootCheribsd.PanicEndsScript | test-scripts/boot_cheribsd.py:58 | a panic message arriving within the timeout ends the script with status 1, whatever the caller waited for (also lines 84-86) |
| BootCheribsd.AsWrittenDiffers | test-scripts/boot_cheribsd.py:83-85 | exhibits both defects: a panic line makes the code raise NameError where exit status 1 is meant, and a prompt after 45 seconds matches although the caller asked for 30 |
| BootCheribsd.FakeExpect | test-scripts/boot_cheribsd.py:255-260 | the pretend session answers 1 exactly when it is given more than one pattern, and 0 otherwise |
| BootCheribsd.FakeBootSucceeds | test-scripts/boot_cheribsd.py:255-260 | applied to the five lists the boot waits on, every wait takes its success branch: init starts, DHCP answers, the login prompt and then the csh prompt appear, and `PROMPT_SH` is among the last two lists (also lines 295-298, 317) |
| BootCheribsd.Decompress | test-scripts/boot_cheribsd.py:136-146 | the result is the archive's path without its suffix; an existing result is kept unless decompression is forced, in which case it is unlinked first; the command gets "-k" when the archive is kept, and the archive path last |
| BootCheribsd.DecompressSibling | test-scripts/boot_cheribsd.py:149-169 | decompressing the path with ".bz2" or ".xz" added gives back the original path |
| BootCheribsd.MaybeDecompressSibling | test-scripts/boot_cheribsd.py:162-165 | when a compressed sibling exists, maybe_decompress succeeds and returns the original path |
| BootCheribsd.MaybeDecompressPlain | test-scripts/boot_cheribsd.py:166-169 | with no compressed sibling, a missing file exits with status 1 and an existing one is returned unchanged with no host action |
| BootCheribsd.ResultPatterns | test-scripts/boot_cheribsd.py:187-190 | the result patterns are the prompt, "not found" and the CHERI trap, with the timeout marker at index 3; the error output is appended only when it is given and not empty |
| BootCheribsd.CommandVerdict | test-scripts/boot_cheribsd.py:191-204 | the command completes exactly when the prompt matched; "not found", the timeout and the error output end the script; a CHERI trap ends it only when traps are fatal and is otherwise reported |
| BootCheribsd.PromptWait | test-scripts/boot_cheribsd.py:193-203 | only a trap or an error-output match waits again for the prompt |
| BootCheribsd.RunCommand | test-scripts/boot_cheribsd.py:183-204 | the command is sent as one line, the result is CommandOutcome of the output pending before it, and exactly the lines CommandRead counts are consumed |
| BootCheribsd.CommandFirstMatch | test-scripts/boot_cheribsd.py:187-204 | on output with no panic line, a command that ends normally ends with the verdict of the first result pattern to match, or with the timeout verdict |
| BootCheribsd.PromptCompletes | test-scripts/boot_cheribsd.py:187-192 | a prompt on the first line in time completes the command |
| BootCheribsd.NotFoundExits | test-scripts/boot_cheribsd.py:187-192 | a "not found" line before any prompt ends the script with status 1 |
| BootCheribsd.EffectiveTimeout | test-scripts/boot_cheribsd.py:72-76 | a timeout of -1, the default of expect and expect_exact, means the session's own timeout; any other timeout is used as given |
| BootCheribsd.FakeNeverTimesOut | test-scripts/boot_cheribsd.py:255-260 | for every non-empty pattern list the pretend session's answer is a valid index; with more than one pattern it is never 0, the place of `pexpect.TIMEOUT`, and names the second pattern |
| BootCheribsd.MaybeDecompress | test-scripts/boot_cheribsd.py:149-169 | a path with an empty name raises ValueError; the only exit is status 1, and only for a path that does not exist (its partners are MaybeDecompressSibling and MaybeDecompressPlain) |
| BootCheribsd.AfterExpected | test-scripts/boot_cheribsd.py:185-186 | without an expected output (None or empty) nothing is read; otherwise the console after the expected output, exactly the lines ExpectedRead leaves |
| BootCheribsd.CommandOutcome | test-scripts/boot_cheribsd.py:183-204 | a stop while waiting for the expected output or for a result pattern is the command's outcome; a reported trap only happens when traps are not fatal; completion means the prompt was the result pattern that matched |
| BootCheribsd.AwaitCommand | test-scripts/boot_cheribsd.py:185-204 | after the command is sent, the outcome is CommandOutcome of the pending console, and exactly the lines CommandRead counts are consumed and moved to the transcript |
| BootCheribsd.AwaitExpected | test-scripts/boot_cheribsd.py:185-186 | the wait for the expected output gives AfterExpected and consumes exactly ExpectedRead lines |
| BootCheribsd.AwaitResult | test-scripts/boot_cheribsd.py:187-190 | the wait for a result pattern gives InstanceResult and consumes exactly InstanceRead lines |
| BootCheribsd.AwaitPrompt | test-scripts/boot_cheribsd.py:193-203 | after a trap the prompt is awaited for 20 seconds with a timeout marker, after the error output for 5 seconds without one; the result is PromptWait and PromptWaitRead lines are consumed |
| BootCheribsd.AwaitVerdict | test-scripts/boot_cheribsd.py:190-204 | a stop while waiting for a result pattern or the prompt ends the command; otherwise the verdict is CommandVerdict of the result pattern, with the transcript advanced by exactly the lines read |
| BootCheribsd.CommandStopsExpecting | test-scripts/boot_cheribsd.py:185-186 | when the wait for the expected output stops the script, that stop is the command's outcome and nothing after it is read |
| BootCheribsd.CommandAfterExpecting | test-scripts/boot_cheribsd.py:187-204 | once the expected output is seen, the outcome and the lines read are those of the result wait and the prompt wait on the rest of the console |

## Left out

- Graphs.AllDeps: `allDependencyNames` (pycheribuild/project.py:116-121) and `recursiveDependencyNames` (combined.py) recurse without a visited set, so on a dependency cycle they end in Python's RecursionError; the model's closure is the least set closed under dependencies, which terminates on every graph and agrees with the source on acyclic ones.
- Targets.TargetManager.Run: on a cycle among the targets it reports `CyclicDependency` (with `--include-dependencies`) or sorts the chosen targets as usual, where the source's `__lt__` and `topologicalSort` would first hit that RecursionError; RecursionError itself is not modelled.
- ProjectBase.AllDependencyNames, Projects.RecursiveDependencies, CombinedTargets.RecursiveDependencyNames: require an acyclic graph, the only case in which the source's recursion returns at all.
- Targets.SortTargets: `sorted()` is modelled as a stable insertion sort under the same `__lt__`; Python's Timsort may order elements differently when `__lt__` is not a strict total order, which is the case once `run` takes part, so SortTargetsSorted and PrecedesStrictTotal exclude `run`.
- Targets.TargetManager.FirstBad: the dependencies of a target are a Python set whose iteration order the program does not fix; the model reads them in sorted order, and the targets themselves in registration order (the dict's order).
- Projects.SettingValue: `__do_set` stores `str(v)` of any value; the model has booleans and strings only (`Setting`), so the `str()` of numbers, paths and other objects is not modelled.
- Strs.IsSpace: ASCII white space only, so Strs.LStrip, Strs.RStrip and Strs.Strip do not remove the other Unicode white-space characters Python's `str.strip()` removes.
- Strs.ParseInt: accepts only ASCII decimal digits without underscores, so a status file holding `1_0` or non-ASCII digits, which Python's `int` reads, is judged as invalid output by BodiagSuite.Classify.
- Json.LookupKeyInJson: JSON values have no floating-point numbers; a float in a configuration file is not modelled.
- CombineFiles.Combiner.Combine: the "not added!" warnings are returned as a list rather than printed to standard error; the text `print` writes, with its trailing newline, is `CombineFiles.Output`.
- Utils.ArgText: the Python `str()` of a list of arguments is approximated as their quoted texts joined by ", " inside brackets; quotes inside arguments are not escaped as `repr` would.
- TargetInfo.PointerSize: the source divides with `/` and gets a float; the model uses the integer quotient `bits / 8`, the same number.
- Expect.Scan: `expect` matches patterns against whole lines of output; pexpect's matching across a byte stream, its buffer and its regular-expression engine are replaced by a matcher parameter.
- BootCheribsd.RunCommand: `qemu.flush()` and the printing of `failure`, `info` and `success` are not modelled; the panic path ends at the exit status without replaying `debug_kernel_panic`'s own waits.
- BootCheribsd: `boot_cheribsd`, `boot_and_login`, `run_host_command`'s process and `find_free_port` (process start, sockets) are not part of this model beyond FakeBootSucceeds.
- Vcu118: the `interact()` hand-off and the serial terminal are not part of this model.
- Vcu118.Openocd: `os.path.abspath` also removes "." and ".." components and `abspath_arg` expands "~" and environment variables; the model only joins a relative path to the working directory.
- CombinedTargets.Table: the sixteen concrete targets of `combined.py` are a table; that it is closed under dependencies and that its pseudo targets are well formed is proved, that it is acyclic is not (the proof is too large for the solver budget); the lemmas hold for every well-formed table.
- BuildForQemu: the disk-image build, the emulator start, the path layout class and `--list-targets` are not part of this model; the step order and target selection around them are.
- BuildForQemu.Project.InstallLLVM: the header paths the two `glob` calls find in the build tree are a parameter (`headers`), not computed from the files.
- BuildForQemu.Project.CompileCheriBSD: the `TypeError` and `KeyError` stop the script as an exit value carrying the exception's name, not as a traceback.
- BodiagSuite.CreateJUnitXml: writing the JUnit XML file (`junitparser`) is not modelled; the suites and each test case's name and result are, but not its `system_out` (the decoded status line) or `system_err` (the file contents); and a run whose status overflows, as under `Classify` below, is modelled as producing a report although the script ends there.
- BodiagSuite.Classify: a status outside the C `int` range (below -2147483648 or above 2147483647) makes `os.WIFSIGNALED` raise `OverflowError`, which ends the script; the model classifies such a status by its low bits instead.
- BodiagSuite.Judge: the same `OverflowError` for a status outside the C `int` range is not modelled; such a status is judged by its low bits.
- BodiagSuite.JUnitReport: the same `OverflowError` is not modelled; the report is computed for every status.
- QemuUtils.NewQemuOptions: `get_qemu_binary`'s PATH search is a parameter, and `is_hybrid_or_purecap_cheri`, which target_info.py does not define, is a parameter as well; 9p file-system support checks are not modelled.
- RunQemu.LaunchQEMU.Process: creating the log directory, the `qemu-cheri-latest.log` link, printing the port usage and status messages are not modelled; free ports and the answers typed at the terminal (or the default when stdin is not a terminal) are parameters.
- RunFvp.LaunchFVP.Process: `InstallMorelloFVP.process` (running the installer, the Dockerfile), `run_tests` and the host-architecture assertion in `setup` are not part of this model; copying the license file is recorded as an action.
- DiskImage.AddFile: `mtree.add_file` also records every parent directory of the path (disk_image.py:154); pycheribuild/mtree.py is not part of this model, so those directory entries are not added.
- DiskImage.AddFileRecords: states the file entry only; the parent-directory entries `mtree.add_file` adds are not modelled.
- DiskImage.AddBelow: the manifest it states leaves out the parent-directory entries added with each file.
- DiskImage.ScanAddsOnlyAlways: the parent directories of the files under usr/local/, opt/ and extra/ ("usr", "usr/local", "opt" and so on) also join the manifest in the source; the model adds the files only.
- DiskImage.DiskImageBuilder.AddUnlistedFilesToMetalog: `query_yes_no` is not defined in the files modelled; it is taken to behave as `queryYesNo` of pycheribuild/projects/project.py:497-512, answering yes in pretend and force mode.
- Host I/O in general: running processes, threads, the file system, clocks and timestamps (log names take the timestamp as a parameter) are not modelled; their results are parameters and their requests recorded actions.

## Findings

| source | as written | input that shows it | evidently intended | confidence | as-written member | corrected member |
|---|---|---|---|---|---|---|
| pycheribuild/project.py:198-200 | with a yes default, only an answer starting with lower-case "n" counts as no (`ProjectBase.InteractiveAnswers`) | answer "No" with default yes gives yes | answers are compared without case | not executed | ProjectBase.CapitalNoAccepted | ProjectBase.CaselessAnswers |
| pycheribuild/projects/project.py:950-951 | the defined-variable form is built for the prefix "WITH_" alone and the option name appended after it (`Projects.WithArgAsWritten`) | GNU make with `MAN=True` gives "WITH_=1MAN" | "WITH_MAN=1" (BSD make is unaffected, Projects.WithArgBsd) | not executed | Projects.WithArgGnuMake | Projects.WithArgsOf (used by Projects.CommandLineArgsOf and Projects.MakeOptions.AllCommandlineArgs) |
| test-scripts/boot_cheribsd.py:83-85, 95-96 | the panic handler is called on an undefined name `qemu`, and `expect_exact` drops its `timeout` argument (`BootCheribsd.UnshiftAsWritten`, `BootCheribsd.EffectiveTimeoutAsWritten`, `BootCheribsd.ExpectExactAsWritten`) | a panic line raises NameError instead of exiting with status 1; a prompt after 45 s matches a 30 s wait | exit with status 1 on a panic, and the caller's timeout | not executed | BootCheribsd.AsWrittenDiffers | BootCheribsd.ExpectExact (its Unshift and EffectiveTimeout are used by InstanceExpect and RunCommand) |
| pycheribuild/projects/cross/cheribsd.py:416 | `key, value = option.split("=")` (`CrossCheriBSD.SplitOptionAsWritten`) | the option "CFLAGS=-DX=1" raises ValueError | split at the first "=" | not executed | CrossCheriBSD.SplitAsWrittenRejects | CrossCheriBSD.SplitOption (used by CrossCheriBSD.OptionVars) |
| pycheribuild/utils.py:252-255 | `tuple(map(int, groups()))` over a pattern whose third group is optional (`Utils.VersionAsWritten`) | compiler version "7.0" raises TypeError | a missing patch number reads as 0 | not executed | Utils.TwoPartVersionRejected | Utils.Version (used by Utils.Classify and Utils.CompilerInfoCache.Get) |
| pycheribuild/utils.py:339-342 | every line is split at "=" (`Utils.OsReleaseAsWritten`) | a blank line in `/etc/os-release` raises ValueError | blank and comment lines are skipped, as the os-release format allows them | not executed | Utils.BlankLineRaises | Utils.SkippedLineIgnored (about Utils.OsRelease) |
| pycheribuild/config/defaultconfig.py:138-139 | with neither flag the target is `CrossCompileTarget.CHERIBSD_MIPS_PURECAP`, which the enum of pycheribuild/config/chericonfig.py:54-57 does not have (`CheriConfigs.ChooseTargetAsWritten`) | no `--xhost` and no `--xmips` raises AttributeError | the CHERI target | not executed | CheriConfigs.DefaultTargetRaises | CheriConfigs.ChooseTarget (with ChooseTargetAgrees; used by CheriConfigs.DefaultCheriConfig.Load) |
| pycheribuild/config/jenkinsconfig.py:105 | `load` assigns `sdkSysrootDir`, a read-only property of the base class (`CheriConfigs.JenkinsConfig.LoadAsWritten`) | any Jenkins load raises AttributeError | the sysroot path is stored | not executed | CheriConfigs.JenkinsConfig.LoadAsWritten | CheriConfigs.JenkinsConfig.Load |
| pycheribuild/projects/disk_image.py:140-157 | the pending list of user files is searched for the stripped copy's path, not for the file given (`DiskImage.AddFileAsWritten`) | a pending user ELF file that is stripped stays on the pending list after being added | the added file leaves the pending list | not executed | DiskImage.StrippedExtraFileStaysPending | DiskImage.AddFileUnpends (about DiskImage.AddFile) |
| pycheribuild/config/defaultconfig.py:61-65 | the constructor passes `action_class` to a base constructor that takes only the loader, and names the loader group `actionGroup`, which the loader does not define (`CheriConfigs.DefaultInitAsWritten`) | any construction raises TypeError; without the keyword, AttributeError | a configuration is built with the run-mode options in their group | not executed | CheriConfigs.DefaultInitRaises | CheriConfigs.DefaultCheriConfig.constructor (used by CheriConfigs.DefaultCheriConfig.Load) |
| pycheribuild/config/jenkinsconfig.py:91 | `--sdk-archive` is declared with `type=Path` (line 48), so the `isinstance(..., str)` assertion fails whenever the option is given (`CheriConfigs.JenkinsConfig.SdkArchivePathAsWritten`) | `--sdk-archive foo.tar.xz` raises AssertionError | a given archive name is used like an inferred one | not executed | CheriConfigs.JenkinsConfig.SdkArchivePathAsWritten | CheriConfigs.JenkinsConfig.SdkArchivePath |
