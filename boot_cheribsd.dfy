/** The session helpers of `test-scripts/boot_cheribsd.py`: the console
    instance that watches for kernel panics around every `expect`, the
    `failure` report, archive decompression before boot, and the outcome of
    running one shell command on the booted system. */
module BootCheribsd {

  import opened Wrappers
  import opened Strs
  import opened Paths
  import opened Expect

  const Panic: string := "panic: trap"
  const StoppedAt: string := "Stopped at"
  const PanicKdb: string := "KDB: enter: panic"

  /** The markers put in front of every pattern list of the instance. */
  const PanicPatterns: seq<string> := [Panic, StoppedAt, PanicKdb]

  const Prompt: string := "root@.+:.+# "
  const PromptSh: string := "# "
  const NotFound: string := "/bin/sh: [\\w\\d_-]+: not found"
  const CheriTrap: string := "USER_CHERI_EXCEPTION: pid \\d+ tid \\d+ \\(.+\\)"

  /** How a step of the scripts ends: with a value, with `sys.exit(code)`,
      or with an exception that nothing catches. */
  datatype Status<T> = Value(v: T) | Exited(code: int) | Raised(error: string)

  // ---------------------------------------------------------------------
  // failure

  /** `failure(..., exit=exit)`: the message is printed; with `exit` the
      script ends with status 1, otherwise `False` is returned. */
  function Failure(exit: bool): (r: Status<bool>)
    ensures exit <==> r == Exited(1)
    ensures !exit <==> r == Value(false)
  {
    if exit then Exited(1) else Value(false)
  }

  // ---------------------------------------------------------------------
  // CheriBSDInstance.expect / expect_exact

  /** The pattern argument of `expect_exact`: a single string or a list. */
  datatype PatternArg = Single(s: string) | List(ps: seq<string>)

  /** Python `x not in arg`: a substring test when `arg` is a string,
      membership when it is a list. */
  predicate NotIn(x: string, arg: PatternArg) {
    match arg
    case Single(s) => !Contains(s, x)
    case List(ps) => x !in ps
  }

  /** The three assertions at the start of `expect_exact`. */
  predicate PanicFree(arg: PatternArg) {
    NotIn(Panic, arg) && NotIn(StoppedAt, arg) && NotIn(PanicKdb, arg)
  }

  function AsList(arg: PatternArg): (r: seq<string>)
    ensures arg.Single? ==> r == [arg.s]
  {
    match arg
    case Single(s) => [s]
    case List(ps) => ps
  }

  /** The caller's index for a raw outcome of the extended list: a panic
      marker ends the script with status 1, a timeout or end of output
      raises, and any other index is shifted back by the number of
      markers. */
  function Unshift(o: Outcome): (r: Status<int>)
    ensures o.Matched? && o.index >= |PanicPatterns| ==> r == Value(o.index - |PanicPatterns|)
    ensures o.Matched? && o.index < |PanicPatterns| ==> r == Exited(1)
    ensures !o.Matched? ==> r.Raised?
  {
    match o
    case Matched(i) => if i < |PanicPatterns| then Exited(1) else Value(i - |PanicPatterns|)
    case TimedOut => Raised("TIMEOUT")
    case EndOfFile => Raised("EOF")
  }

  /** The same, as the source is written: on a panic marker it calls
      `debug_kernel_panic(qemu)`, and no `qemu` is defined at module level
      (the one in `main` is local), so a `NameError` escapes before
      `failure` is reached. */
  function UnshiftAsWritten(o: Outcome): (r: Status<int>)
    ensures o.Matched? && o.index < |PanicPatterns| ==> r == Raised("NameError")
    ensures !(o.Matched? && o.index < |PanicPatterns|) ==> r == Unshift(o)
  {
    match o
    case Matched(i) => if i < |PanicPatterns| then Raised("NameError") else Unshift(o)
    case _ => Unshift(o)
  }

  /** The timeout of a pexpect call: -1 means the session's default. */
  function EffectiveTimeout(defaultTimeout: nat, timeout: int): (r: nat)
    ensures timeout >= 0 ==> r == timeout
    ensures timeout < 0 ==> r == defaultTimeout
  {
    if timeout < 0 then defaultTimeout else timeout
  }

  /** The timeout `expect_exact` uses as written: its `timeout` parameter
      is not passed on, so the session's default always applies. */
  function EffectiveTimeoutAsWritten(defaultTimeout: nat, timeout: int): (r: nat)
    ensures r == defaultTimeout
  {
    defaultTimeout
  }

  /** `CheriBSDInstance.expect_exact`, with the panic path ending the
      script and the caller's timeout passed on. */
  method ExpectExact(qemu: Session, arg: PatternArg, timeout: int) returns (r: Status<int>)
    modifies qemu`pending, qemu`seen
    ensures !PanicFree(arg) ==> r == Raised("AssertionError") && qemu.pending == old(qemu.pending)
    ensures PanicFree(arg) ==>
      var s := Scan(Exact, old(qemu.pending), PanicPatterns + AsList(arg), EffectiveTimeout(qemu.defaultTimeout, timeout));
      r == Unshift(s.0) && qemu.pending == old(qemu.pending)[s.1..] && qemu.seen == old(qemu.seen) + old(qemu.pending)[..s.1]
  {
    if !PanicFree(arg) {
      return Raised("AssertionError");
    }
    var patterns := AsList(arg);
    var i := qemu.Expect(Exact, PanicPatterns + patterns, EffectiveTimeout(qemu.defaultTimeout, timeout));
    r := Unshift(i);
  }

  /** `CheriBSDInstance.expect_exact` as written. */
  method ExpectExactAsWritten(qemu: Session, arg: PatternArg, timeout: int) returns (r: Status<int>)
    modifies qemu`pending, qemu`seen
    ensures !PanicFree(arg) ==> r == Raised("AssertionError") && qemu.pending == old(qemu.pending)
    ensures PanicFree(arg) ==>
      var s := Scan(Exact, old(qemu.pending), PanicPatterns + AsList(arg), EffectiveTimeoutAsWritten(qemu.defaultTimeout, timeout));
      r == UnshiftAsWritten(s.0) && qemu.pending == old(qemu.pending)[s.1..] && qemu.seen == old(qemu.seen) + old(qemu.pending)[..s.1]
  {
    if !PanicFree(arg) {
      return Raised("AssertionError");
    }
    var patterns := AsList(arg);
    var i := qemu.Expect(Exact, PanicPatterns + patterns, EffectiveTimeoutAsWritten(qemu.defaultTimeout, timeout));
    r := UnshiftAsWritten(i);
  }

  /** A caller's pattern list in which one entry is `pexpect.TIMEOUT`
      (at `timeoutAt`, if any) and the others are the `texts`, in order. */
  datatype Patterns = Patterns(texts: seq<string>, timeoutAt: Option<nat>)

  /** The caller's index of the `j`-th text pattern. */
  function CallerIndex(p: Patterns, j: nat): nat {
    if p.timeoutAt.Some? && j >= p.timeoutAt.value then j + 1 else j
  }

  /** Whether a caller's pattern list holds a panic marker, which the
      assertions of `_expect_and_handle_panic` reject. */
  predicate HoldsMarker(p: Patterns) {
    Panic in p.texts || StoppedAt in p.texts || PanicKdb in p.texts
  }

  /** What `CheriBSDInstance.expect(p, timeout)` returns when the console
      will print `lines`: a panic marker in `p` fails the assertions, a
      timeout is the index of `pexpect.TIMEOUT` when `p` holds it, and
      otherwise the index of the caller's pattern that matched first. */
  function InstanceResult(re: Matcher, lines: seq<Line>, p: Patterns, timeout: nat): (r: Status<int>)
    ensures HoldsMarker(p) ==> r == Raised("AssertionError")
    ensures r.Value? && p.timeoutAt.None? ==> 0 <= r.v < |p.texts|
  {
    if HoldsMarker(p) then Raised("AssertionError")
    else
      var o := Scan(re, lines, PanicPatterns + p.texts, timeout).0;
      if o.TimedOut? && p.timeoutAt.Some? then Value(p.timeoutAt.value)
      else match Unshift(o) case Value(j) => Value(CallerIndex(p, j)) case other => other
  }

  /** The number of console lines that call reads. */
  function InstanceRead(re: Matcher, lines: seq<Line>, p: Patterns, timeout: nat): (n: nat)
    ensures n <= |lines|
  {
    if HoldsMarker(p) then 0 else Scan(re, lines, PanicPatterns + p.texts, timeout).1
  }

  /** `CheriBSDInstance.expect` (`_expect_and_handle_panic`): the pattern
      argument must be a list free of panic markers; a timeout is returned
      as the index of `pexpect.TIMEOUT` when the list holds it. */
  method InstanceExpect(qemu: Session, re: Matcher, p: Patterns, timeout: int) returns (r: Status<int>)
    modifies qemu`pending, qemu`seen
    ensures r == InstanceResult(re, old(qemu.pending), p, EffectiveTimeout(qemu.defaultTimeout, timeout))
    ensures var n := InstanceRead(re, old(qemu.pending), p, EffectiveTimeout(qemu.defaultTimeout, timeout));
      qemu.pending == old(qemu.pending)[n..] && qemu.seen == old(qemu.seen) + old(qemu.pending)[..n]
  {
    if HoldsMarker(p) {
      return Raised("AssertionError");
    }
    var o := qemu.Expect(re, PanicPatterns + p.texts, EffectiveTimeout(qemu.defaultTimeout, timeout));
    if o.TimedOut? && p.timeoutAt.Some? {
      return Value(p.timeoutAt.value);
    }
    r := Unshift(o);
    if r.Value? {
      r := Value(CallerIndex(p, r.v));
    }
  }

  /** While the console prints no panic marker, the instance reports the
      caller's pattern that a plain `expect` on the caller's list reports,
      and a timeout as `pexpect.TIMEOUT`'s index when the list holds it. */
  lemma InstanceUnshifted(re: Matcher, lines: seq<Line>, p: Patterns, timeout: nat)
    requires !HoldsMarker(p)
    requires forall j :: 0 <= j < |lines| ==> FirstHit(re, lines[j].text, PanicPatterns).None?
    ensures var s := Scan(re, lines, p.texts, timeout);
      InstanceRead(re, lines, p, timeout) == s.1 &&
      InstanceResult(re, lines, p, timeout) ==
        (if s.0.Matched? then Value(CallerIndex(p, s.0.index))
         else if s.0.TimedOut? && p.timeoutAt.Some? then Value(p.timeoutAt.value)
         else Unshift(s.0))
  {
    ScanShift(re, lines, PanicPatterns, p.texts, timeout);
  }

  /** While the console prints no panic marker, `expect_exact` on the
      instance returns the same index, after the same lines, as a plain
      `expect_exact` with the caller's own patterns. */
  lemma ExpectExactUnshifted(lines: seq<Line>, arg: PatternArg, timeout: nat)
    requires forall j :: 0 <= j < |lines| ==> FirstHit(Exact, lines[j].text, PanicPatterns).None?
    ensures var s := Scan(Exact, lines, AsList(arg), timeout);
      var r := Scan(Exact, lines, PanicPatterns + AsList(arg), timeout);
      r.1 == s.1 && Unshift(r.0) == (if s.0.Matched? then Value(s.0.index) else Unshift(s.0))
  {
    ScanShift(Exact, lines, PanicPatterns, AsList(arg), timeout);
  }

  /** A console line holding a panic marker before any line that matches
      the caller's patterns ends the script with status 1. */
  lemma PanicEndsScript(text: string, delay: nat, rest: seq<Line>, arg: PatternArg, timeout: nat)
    requires Contains(text, Panic) && delay <= timeout
    ensures Unshift(Scan(Exact, [Line(text, delay)] + rest, PanicPatterns + AsList(arg), timeout).0) == Exited(1)
  {
    var lines := [Line(text, delay)] + rest;
    assert lines[0].text == text;
    assert (PanicPatterns + AsList(arg))[0] == Panic;
  }

  /** The two defects shown on one console line "panic: trap" and one line
      "# " that arrives 45 seconds after an `expect_exact("# ", timeout=30)`
      on a session whose default timeout is 60: as written the panic raises
      `NameError`, and the late prompt is still accepted. */
  lemma AsWrittenDiffers()
    ensures UnshiftAsWritten(Scan(Exact, [Line(Panic, 0)], PanicPatterns + ["# "], 60).0) == Raised("NameError")
    ensures Unshift(Scan(Exact, [Line(Panic, 0)], PanicPatterns + ["# "], 60).0) == Exited(1)
    ensures Scan(Exact, [Line("# ", 45)], PanicPatterns + ["# "], EffectiveTimeoutAsWritten(60, 30)).0 == Matched(3)
    ensures Scan(Exact, [Line("# ", 45)], PanicPatterns + ["# "], EffectiveTimeout(60, 30)).0 == TimedOut
  {
    var ps := PanicPatterns + ["# "];
    assert Exact(Panic, ps[0]) by { ContainsAt(Panic, Panic, 0); }
    assert ps[3] == "# ";
    assert Exact("# ", "# ") by { ContainsAt("# ", "# ", 0); }
    assert !Exact("# ", Panic) && !Exact("# ", StoppedAt) && !Exact("# ", PanicKdb) by {
      ShortNoContains("# ", Panic);
      ShortNoContains("# ", StoppedAt);
      ShortNoContains("# ", PanicKdb);
    }
    FirstHitShift(Exact, "# ", PanicPatterns, ["# "]);
    assert FirstHit(Exact, "# ", ps) == Some(3);
  }

  /** A needle longer than the text does not occur in it. */
  lemma {:induction false} ShortNoContains(text: string, needle: string)
    requires |needle| > |text|
    ensures !Contains(text, needle)
    decreases |text|
  {
    if |text| > 0 {
      ShortNoContains(text[1..], needle);
    }
  }

  // ---------------------------------------------------------------------
  // FakeSpawn

  /** `FakeSpawn.expect(patterns)`: 1 for a list of more than one pattern,
      0 otherwise. */
  function FakeExpect(patterns: seq<string>): (r: nat)
    ensures r <= 1 && (r == 1 <==> |patterns| > 1)
  {
    if |patterns| > 1 then 1 else 0
  }

  /** The fake session never reports a timeout on a list that starts with
      `pexpect.TIMEOUT` and holds another pattern: it reports the pattern
      second in the list. A single pattern is reported as matched. */
  lemma FakeNeverTimesOut(patterns: seq<string>)
    requires |patterns| > 0
    ensures FakeExpect(patterns) < |patterns|
    ensures |patterns| > 1 ==> FakeExpect(patterns) != 0 && patterns[FakeExpect(patterns)] == patterns[1]
    ensures |patterns| == 1 ==> patterns[FakeExpect(patterns)] == patterns[0]
  {
  }

  const TimeoutMarker: string := "TIMEOUT"
  const StartingInit: string := "start_init: trying /sbin/init"
  const BootFailure: string := "Enter full pathname of shell or RETURN for /bin/sh"
  const ShellOpen: string := "exec /bin/sh"
  const LoginPrompt: string := "login:"
  const FatalErrorMessages: seq<string> := [CheriTrap]

  /** The lists `boot_cheribsd` waits on, in order, when every wait takes
      index 1: init starts, DHCP answers, the login prompt appears, csh
      gives its prompt, and `sh` started from csh gives the prompt with PS1
      set. */
  const PretendBootWaits: seq<seq<string>> := [
    [TimeoutMarker, StartingInit, BootFailure] + FatalErrorMessages,
    [TimeoutMarker, "DHCPACK from ", LoginPrompt, ShellOpen, BootFailure] + FatalErrorMessages,
    [TimeoutMarker, LoginPrompt, ShellOpen, BootFailure] + FatalErrorMessages,
    [TimeoutMarker, Prompt, PromptSh],
    [TimeoutMarker, Prompt, PromptSh]
  ]

  /** In pretend mode the boot takes its success branch at every wait:
      none of the lists reports `pexpect.TIMEOUT`, and each reports the
      milestone it waits for, including the csh prompt over the `sh`
      prompt `PROMPT_SH`. */
  lemma FakeBootSucceeds()
    ensures forall k :: 0 <= k < |PretendBootWaits| ==>
      PretendBootWaits[k][0] == TimeoutMarker && FakeExpect(PretendBootWaits[k]) == 1
    ensures [PretendBootWaits[0][1], PretendBootWaits[1][1], PretendBootWaits[2][1], PretendBootWaits[3][1]]
         == [StartingInit, "DHCPACK from ", LoginPrompt, Prompt]
    ensures PromptSh in PretendBootWaits[3] && PromptSh in PretendBootWaits[4]
  {
    forall k | 0 <= k < |PretendBootWaits|
      ensures PretendBootWaits[k][0] == TimeoutMarker && FakeExpect(PretendBootWaits[k]) == 1
    {
      FakeNeverTimesOut(PretendBootWaits[k]);
    }
  }

  // ---------------------------------------------------------------------
  // decompress / maybe_decompress

  /** What the host is asked to do. */
  datatype HostAction = Unlink(path: string) | RunHost(argv: seq<string>)

  /** `decompress`: the archive's path without its last suffix; an existing
      result is returned untouched unless decompression is forced, in which
      case it is deleted first; `-k` keeps the archive. `with_suffix` raises
      `ValueError` on a path with an empty name; every archive
      `maybe_decompress` passes here has a name that ends in ".bz2" or ".xz",
      so that error cannot arise on this path. */
  function Decompress(archive: string, force: bool, keepArchive: bool, cmd: seq<string>, present: set<string>)
    : (r: (string, seq<HostAction>))
    requires Name(archive) != ""
    ensures r.0 == Dir(archive) + Stem(archive)
    ensures r.0 in present && !force ==> r.1 == []
    ensures !(r.0 in present && !force) ==>
      r.1 == (if r.0 in present then [Unlink(r.0)] else []) +
             [RunHost(cmd + (if keepArchive then ["-k"] else []) + [archive])]
  {
    var result := WithSuffix(archive, "");
    if result in present && !force then (result, [])
    else
      var unlink := if result in present then [Unlink(result)] else [];
      var c := cmd + (if keepArchive then ["-k"] else []);
      (result, unlink + [RunHost(c + [archive])])
  }

  const Bunzip: seq<string> := ["bunzip2", "-v", "-f"]
  const Unxz: seq<string> := ["xz", "-d", "-v", "-f"]

  /** `maybe_decompress`: a ".bz2" or ".xz" path is decompressed; otherwise
      a sibling with ".bz2" appended, then one with ".xz", is decompressed
      when it exists; otherwise the path itself must exist. Building the
      sibling's name with `with_suffix` raises `ValueError` when the path's
      name is empty. */
  function MaybeDecompress(path: string, force: bool, keepArchive: bool, present: set<string>)
    : (r: Status<(string, seq<HostAction>)>)
    ensures Name(path) == "" ==> r == Raised("ValueError")
    ensures r.Exited? ==> r == Exited(1) && path !in present
  {
    var suffix := Suffix(path);
    if Name(path) == "" then
      assert suffix == "";
      Raised("ValueError")
    else if suffix == ".bz2" then Value(Decompress(path, force, keepArchive, Bunzip, present))
    else if suffix == ".xz" then Value(Decompress(path, force, keepArchive, Unxz, present))
    else if path + ".bz2" in present then Value(Decompress(path + ".bz2", force, keepArchive, Bunzip, present))
    else if path + ".xz" in present then Value(Decompress(path + ".xz", force, keepArchive, Unxz, present))
    else if path !in present then Exited(1)
    else Value((path, []))
  }

  /** The name of `p + ext` is the name of `p` followed by `ext` when `ext`
      holds no "/". */
  lemma NameAppend(path: string, ext: string)
    requires '/' !in ext
    ensures Name(path + ext) == Name(path) + ext && Dir(path + ext) == Dir(path)
  {
    RFindAppend(path, ext, '/');
    var k := RFind(path, '/') + 1;
    assert (path + ext)[k..] == path[k..] + ext;
    assert (path + ext)[..k] == path[..k];
  }

  lemma ArchiveSuffixes(ext: string)
    requires ext == ".bz2" || ext == ".xz"
    ensures IsSuffix(ext)
  {
    assert ext[1..] == if ext == ".bz2" then "bz2" else "xz";
  }

  /** Decompressing `p + ext` gives back `p`. */
  lemma DecompressSibling(path: string, ext: string)
    requires Name(path) != "" && (ext == ".bz2" || ext == ".xz")
    ensures Name(path + ext) != "" && Dir(path + ext) + Stem(path + ext) == path
  {
    ArchiveSuffixes(ext);
    NameAppend(path, ext);
    var a := path + ext;
    var stem := Name(path);
    SuffixOfName(stem, ext);
    assert Suffix(a) == ext;
    assert Stem(a) == stem by {
      assert Name(a) == stem + ext;
    }
    DirName(path);
  }

  /** A compressed sibling is decompressed back to the path asked for. */
  lemma MaybeDecompressSibling(path: string, force: bool, keepArchive: bool, present: set<string>)
    requires Name(path) != "" && Suffix(path) != ".bz2" && Suffix(path) != ".xz"
    requires path + ".bz2" in present || path + ".xz" in present
    ensures MaybeDecompress(path, force, keepArchive, present).Value?
    ensures MaybeDecompress(path, force, keepArchive, present).v.0 == path
  {
    DecompressSibling(path, ".bz2");
    DecompressSibling(path, ".xz");
  }

  /** Without an archive suffix or sibling, a missing path ends the script
      and an existing one is returned with nothing run. */
  lemma MaybeDecompressPlain(path: string, force: bool, keepArchive: bool, present: set<string>)
    requires Name(path) != "" && Suffix(path) != ".bz2" && Suffix(path) != ".xz"
    requires path + ".bz2" !in present && path + ".xz" !in present
    ensures path !in present ==> MaybeDecompress(path, force, keepArchive, present) == Exited(1)
    ensures path in present ==> MaybeDecompress(path, force, keepArchive, present) == Value((path, []))
  {
  }

  // ---------------------------------------------------------------------
  // run_cheribsd_command

  /** How a command on the booted system went, when the script goes on. */
  datatype CommandResult = Completed | TrapReported

  /** The caller-visible patterns `run_cheribsd_command` waits on: the
      prompt, "not found", a CHERI trap, `pexpect.TIMEOUT`, and the
      optional error output. */
  function ResultPatterns(errorOutput: Option<string>): (p: Patterns)
    ensures p.timeoutAt == Some(3)
    ensures |p.texts| == (if Given(errorOutput) then 4 else 3) && p.texts[..3] == [Prompt, NotFound, CheriTrap]
    ensures Given(errorOutput) ==> p.texts[3] == errorOutput.value
  {
    Patterns([Prompt, NotFound, CheriTrap] + (if Given(errorOutput) then [errorOutput.value] else []), Some(3))
  }

  /** The outcome of each index of the result list: 0 is the prompt; 1
      (command not found), 3 (timeout) and 4 (error output) end the script;
      2 (CHERI trap) ends it only when traps are fatal. */
  function CommandVerdict(i: int, cheriTrapFatal: bool): (r: Status<CommandResult>)
    ensures r == Value(Completed) <==> !(1 <= i <= 4)
    ensures i == 2 && !cheriTrapFatal <==> r == Value(TrapReported)
    ensures i == 1 || i == 3 || (i == 2 && cheriTrapFatal) ==> r == Exited(1)
  {
    if i == 1 then Exited(1)
    else if i == 2 then (if cheriTrapFatal then Exited(1) else Value(TrapReported))
    else if i == 3 then Exited(1)
    else if i == 4 then Exited(1)
    else Value(Completed)
  }

  /** A status that carries no value, passed on unchanged. */
  function Stop<T, U>(s: Status<T>): (r: Status<U>)
    requires !s.Value?
    ensures s.Exited? ==> r == Exited(s.code)
    ensures s.Raised? ==> r == Raised(s.error)
  {
    match s
    case Exited(c) => Exited(c)
    case Raised(x) => Raised(x)
  }

  /** The console lines left after the optional `qemu.expect([expected_output])`
      (with the session's default timeout), or how the script stops there. */
  function AfterExpected(re: Matcher, lines: seq<Line>, defaultTimeout: nat, expectedOutput: Option<string>)
    : (r: Status<seq<Line>>)
    ensures !Given(expectedOutput) ==> r == Value(lines)
    ensures r.Value? ==> r.v == lines[ExpectedRead(re, lines, defaultTimeout, expectedOutput)..]
  {
    if !Given(expectedOutput) then Value(lines)
    else
      var p := Patterns([expectedOutput.value], None);
      var e := InstanceResult(re, lines, p, defaultTimeout);
      if e.Value? then Value(lines[InstanceRead(re, lines, p, defaultTimeout)..]) else Stop(e)
  }

  /** The number of console lines the optional wait for the expected
      output reads. */
  function ExpectedRead(re: Matcher, lines: seq<Line>, defaultTimeout: nat, expectedOutput: Option<string>): (n: nat)
    ensures n <= |lines|
    ensures !Given(expectedOutput) ==> n == 0
  {
    if !Given(expectedOutput) then 0
    else InstanceRead(re, lines, Patterns([expectedOutput.value], None), defaultTimeout)
  }

  /** The wait for the prompt after result `i`: up to 20 seconds after a
      CHERI trap (a timeout is one of the patterns), up to 5 seconds after
      the error output, none otherwise. */
  function PromptWait(re: Matcher, lines: seq<Line>, i: int): (r: Status<int>)
    ensures !(i == 2 || i == 4) ==> r == Value(0)
  {
    if i == 2 then InstanceResult(re, lines, Patterns([Prompt], Some(0)), 20)
    else if i == 4 then InstanceResult(re, lines, Patterns([Prompt], None), 5)
    else Value(0)
  }

  /** The number of console lines the wait for the prompt after result `i` reads. */
  function PromptWaitRead(re: Matcher, lines: seq<Line>, i: int): (n: nat)
    ensures n <= |lines|
    ensures !(i == 2 || i == 4) ==> n == 0
  {
    if i == 2 then InstanceRead(re, lines, Patterns([Prompt], Some(0)), 20)
    else if i == 4 then InstanceRead(re, lines, Patterns([Prompt], None), 5)
    else 0
  }

  /** The number of console lines `run_cheribsd_command` reads: those read
      waiting for the expected output, then for a result pattern, then for
      the prompt, stopping where the script stops. */
  function CommandRead(re: Matcher, lines: seq<Line>, defaultTimeout: nat, expectedOutput: Option<string>,
                       errorOutput: Option<string>, timeout: nat): (n: nat)
    ensures n <= |lines|
  {
    var a := ExpectedRead(re, lines, defaultTimeout, expectedOutput);
    if !AfterExpected(re, lines, defaultTimeout, expectedOutput).Value? then a
    else
      var rest := lines[a..];
      var p := ResultPatterns(errorOutput);
      var b := InstanceRead(re, rest, p, timeout);
      var i := InstanceResult(re, rest, p, timeout);
      if !i.Value? then a + b
      else a + b + PromptWaitRead(re, rest[b..], i.v)
  }

  /** How `run_cheribsd_command` ends when, once the command is sent, the
      console will print `lines`: the verdict of the result pattern the
      console shows first, unless the script stops while it waits for the
      expected output before that or for the prompt after it. */
  function CommandOutcome(re: Matcher, lines: seq<Line>, defaultTimeout: nat, expectedOutput: Option<string>,
                          errorOutput: Option<string>, cheriTrapFatal: bool, timeout: nat): (r: Status<CommandResult>)
    ensures var e := AfterExpected(re, lines, defaultTimeout, expectedOutput);
      (!e.Value? ==> r == Stop(e)) &&
      (e.Value? && !InstanceResult(re, e.v, ResultPatterns(errorOutput), timeout).Value? ==>
        r == Stop(InstanceResult(re, e.v, ResultPatterns(errorOutput), timeout)))
    ensures r == Value(TrapReported) ==> !cheriTrapFatal
    ensures r == Value(Completed) ==>
      var e := AfterExpected(re, lines, defaultTimeout, expectedOutput);
      e.Value? && InstanceResult(re, e.v, ResultPatterns(errorOutput), timeout) == Value(0)
  {
    match AfterExpected(re, lines, defaultTimeout, expectedOutput)
    case Exited(c) => Exited(c)
    case Raised(x) => Raised(x)
    case Value(rest) =>
      var p := ResultPatterns(errorOutput);
      var i := InstanceResult(re, rest, p, timeout);
      if !i.Value? then Stop(i)
      else
        var w := PromptWait(re, rest[InstanceRead(re, rest, p, timeout)..], i.v);
        if !w.Value? then Stop(w) else CommandVerdict(i.v, cheriTrapFatal)
  }

  /** `run_cheribsd_command`: send the command, optionally wait for its
      expected output, then classify what the console prints next. After a
      CHERI trap the script waits up to 20 seconds for the prompt, after
      the error output up to 5 seconds, before reporting. */
  method RunCommand(qemu: Session, re: Matcher, cmd: string, expectedOutput: Option<string>,
                    errorOutput: Option<string>, cheriTrapFatal: bool, timeout: nat)
    returns (r: Status<CommandResult>)
    modifies qemu`pending, qemu`seen, qemu`sent
    ensures qemu.sent == old(qemu.sent) + [cmd + "\n"]
    ensures r == CommandOutcome(re, old(qemu.pending), qemu.defaultTimeout, expectedOutput, errorOutput,
                                cheriTrapFatal, timeout)
    ensures var n := CommandRead(re, old(qemu.pending), qemu.defaultTimeout, expectedOutput, errorOutput, timeout);
      qemu.pending == old(qemu.pending)[n..] && qemu.seen == old(qemu.seen) + old(qemu.pending)[..n]
  {
    qemu.SendLine(cmd);
    r := AwaitCommand(qemu, re, expectedOutput, errorOutput, cheriTrapFatal, timeout);
  }

  /** Everything `run_cheribsd_command` reads once the command is sent. */
  method AwaitCommand(qemu: Session, re: Matcher, expectedOutput: Option<string>,
                      errorOutput: Option<string>, cheriTrapFatal: bool, timeout: nat)
    returns (r: Status<CommandResult>)
    modifies qemu`pending, qemu`seen
    ensures r == CommandOutcome(re, old(qemu.pending), qemu.defaultTimeout, expectedOutput, errorOutput,
                                cheriTrapFatal, timeout)
    ensures var n := CommandRead(re, old(qemu.pending), qemu.defaultTimeout, expectedOutput, errorOutput, timeout);
      qemu.pending == old(qemu.pending)[n..] && qemu.seen == old(qemu.seen) + old(qemu.pending)[..n]
  {
    ghost var lines := qemu.pending;
    ghost var seen0 := qemu.seen;
    ghost var t := qemu.defaultTimeout;
    var e := AwaitExpected(qemu, re, expectedOutput);
    ghost var a := ExpectedRead(re, lines, t, expectedOutput);
    if !e.Value? {
      CommandStopsExpecting(re, lines, t, expectedOutput, errorOutput, cheriTrapFatal, timeout);
      return Stop(e);
    }
    CommandAfterExpecting(re, lines, t, expectedOutput, errorOutput, cheriTrapFatal, timeout, a);
    r := AwaitVerdict(qemu, re, errorOutput, cheriTrapFatal, timeout, lines, seen0, a);
  }

  /** The wait for a result pattern and, after a CHERI trap or the error
      output, for the prompt, once the first `a` lines of `lines` are read. */
  method AwaitVerdict(qemu: Session, re: Matcher, errorOutput: Option<string>, cheriTrapFatal: bool, timeout: nat,
                      ghost lines: seq<Line>, ghost seen: seq<Line>, ghost a: nat)
    returns (r: Status<CommandResult>)
    requires a <= |lines| && qemu.pending == lines[a..] && qemu.seen == seen + lines[..a]
    modifies qemu`pending, qemu`seen
    ensures var p := ResultPatterns(errorOutput);
      var i := InstanceResult(re, lines[a..], p, timeout);
      var b := InstanceRead(re, lines[a..], p, timeout);
      if !i.Value? then r == Stop(i) && qemu.pending == lines[a + b..] && qemu.seen == seen + lines[..a + b]
      else
        var w := PromptWait(re, lines[a..][b..], i.v);
        var n := a + b + PromptWaitRead(re, lines[a..][b..], i.v);
        r == (if w.Value? then CommandVerdict(i.v, cheriTrapFatal) else Stop(w)) &&
        n <= |lines| && qemu.pending == lines[n..] && qemu.seen == seen + lines[..n]
  {
    var i := AwaitResult(qemu, re, errorOutput, timeout, lines, seen, a);
    ghost var b := InstanceRead(re, lines[a..], ResultPatterns(errorOutput), timeout);
    if !i.Value? {
      return Stop(i);
    }
    assert lines[a..][b..] == lines[a + b..];
    var w := AwaitPrompt(qemu, re, i.v, lines, seen, a + b);
    if !w.Value? {
      return Stop(w);
    }
    r := CommandVerdict(i.v, cheriTrapFatal);
  }

  /** `CommandOutcome` and `CommandRead` when the wait for the expected
      output stops the script. */
  lemma CommandStopsExpecting(re: Matcher, lines: seq<Line>, defaultTimeout: nat, expectedOutput: Option<string>,
                              errorOutput: Option<string>, cheriTrapFatal: bool, timeout: nat)
    requires !AfterExpected(re, lines, defaultTimeout, expectedOutput).Value?
    ensures CommandOutcome(re, lines, defaultTimeout, expectedOutput, errorOutput, cheriTrapFatal, timeout)
         == Stop(AfterExpected(re, lines, defaultTimeout, expectedOutput))
    ensures CommandRead(re, lines, defaultTimeout, expectedOutput, errorOutput, timeout)
         == ExpectedRead(re, lines, defaultTimeout, expectedOutput)
  {
  }

  /** `CommandOutcome` and `CommandRead` once the expected output, if any,
      has been seen after the first `a` lines. */
  lemma CommandAfterExpecting(re: Matcher, lines: seq<Line>, defaultTimeout: nat, expectedOutput: Option<string>,
                              errorOutput: Option<string>, cheriTrapFatal: bool, timeout: nat, a: nat)
    requires AfterExpected(re, lines, defaultTimeout, expectedOutput).Value?
    requires a == ExpectedRead(re, lines, defaultTimeout, expectedOutput)
    ensures var p := ResultPatterns(errorOutput);
      var i := InstanceResult(re, lines[a..], p, timeout);
      var b := InstanceRead(re, lines[a..], p, timeout);
      (!i.Value? ==>
        CommandOutcome(re, lines, defaultTimeout, expectedOutput, errorOutput, cheriTrapFatal, timeout) == Stop(i) &&
        CommandRead(re, lines, defaultTimeout, expectedOutput, errorOutput, timeout) == a + b) &&
      (i.Value? ==>
        var w := PromptWait(re, lines[a..][b..], i.v);
        CommandOutcome(re, lines, defaultTimeout, expectedOutput, errorOutput, cheriTrapFatal, timeout) ==
          (if w.Value? then CommandVerdict(i.v, cheriTrapFatal) else Stop(w)) &&
        CommandRead(re, lines, defaultTimeout, expectedOutput, errorOutput, timeout) ==
          a + b + PromptWaitRead(re, lines[a..][b..], i.v))
  {
  }

  /** The optional wait for the expected output, with the session's default timeout. */
  method AwaitExpected(qemu: Session, re: Matcher, expectedOutput: Option<string>) returns (r: Status<seq<Line>>)
    modifies qemu`pending, qemu`seen
    ensures r == AfterExpected(re, old(qemu.pending), qemu.defaultTimeout, expectedOutput)
    ensures var n := ExpectedRead(re, old(qemu.pending), qemu.defaultTimeout, expectedOutput);
      qemu.pending == old(qemu.pending)[n..] && qemu.seen == old(qemu.seen) + old(qemu.pending)[..n]
  {
    if Given(expectedOutput) {
      var e := InstanceExpect(qemu, re, Patterns([expectedOutput.value], None), -1);
      if !e.Value? {
        return Stop(e);
      }
    } else {
      assert old(qemu.pending)[..0] == [];
    }
    r := Value(qemu.pending);
  }

  /** The wait for a result pattern, once the first `k` lines of `lines` are read. */
  method AwaitResult(qemu: Session, re: Matcher, errorOutput: Option<string>, timeout: nat,
                     ghost lines: seq<Line>, ghost seen: seq<Line>, ghost k: nat) returns (r: Status<int>)
    requires k <= |lines| && qemu.pending == lines[k..] && qemu.seen == seen + lines[..k]
    modifies qemu`pending, qemu`seen
    ensures r == InstanceResult(re, lines[k..], ResultPatterns(errorOutput), timeout)
    ensures var n := k + InstanceRead(re, lines[k..], ResultPatterns(errorOutput), timeout);
      n <= |lines| && qemu.pending == lines[n..] && qemu.seen == seen + lines[..n]
  {
    r := InstanceExpect(qemu, re, ResultPatterns(errorOutput), timeout);
    Consume(seen, lines, k, InstanceRead(re, lines[k..], ResultPatterns(errorOutput), timeout));
  }

  /** The wait for the prompt after result `i`, once the first `k` lines of
      `lines` are read. */
  method AwaitPrompt(qemu: Session, re: Matcher, i: int, ghost lines: seq<Line>, ghost seen: seq<Line>, ghost k: nat)
    returns (r: Status<int>)
    requires k <= |lines| && qemu.pending == lines[k..] && qemu.seen == seen + lines[..k]
    modifies qemu`pending, qemu`seen
    ensures r == PromptWait(re, lines[k..], i)
    ensures var n := k + PromptWaitRead(re, lines[k..], i);
      n <= |lines| && qemu.pending == lines[n..] && qemu.seen == seen + lines[..n]
  {
    if i == 2 {
      r := InstanceExpect(qemu, re, Patterns([Prompt], Some(0)), 20);
    } else if i == 4 {
      r := InstanceExpect(qemu, re, Patterns([Prompt], None), 5);
    } else {
      r := Value(0);
    }
    Consume(seen, lines, k, PromptWaitRead(re, lines[k..], i));
  }

  /** Reading `b` more lines after the first `a` reads the first `a + b`. */
  lemma Consume(seen: seq<Line>, lines: seq<Line>, a: nat, b: nat)
    requires a + b <= |lines|
    ensures lines[a..][b..] == lines[a + b..]
    ensures (seen + lines[..a]) + lines[a..][..b] == seen + lines[..a + b]
  {
    assert lines[..a] + lines[a..][..b] == lines[..a + b];
  }

  /** With no expected output and no panic marker on the console, a command
      that goes on is judged by the first result pattern the console shows
      within the timeout, and by index 3 (`pexpect.TIMEOUT`) when none does. */
  lemma CommandFirstMatch(re: Matcher, lines: seq<Line>, defaultTimeout: nat, errorOutput: Option<string>,
                          cheriTrapFatal: bool, timeout: nat)
    requires forall j :: 0 <= j < |lines| ==> FirstHit(re, lines[j].text, PanicPatterns).None?
    ensures var p := ResultPatterns(errorOutput);
      var s := Scan(re, lines, p.texts, timeout);
      var r := CommandOutcome(re, lines, defaultTimeout, None, errorOutput, cheriTrapFatal, timeout);
      r.Value? ==> r == CommandVerdict(if s.0.Matched? then CallerIndex(p, s.0.index) else 3, cheriTrapFatal)
  {
    var p := ResultPatterns(errorOutput);
    if !HoldsMarker(p) {
      InstanceUnshifted(re, lines, p, timeout);
    }
  }

  /** A prompt as the first line, within the timeout and with no panic
      marker on it, completes the command. */
  lemma PromptCompletes(re: Matcher, lines: seq<Line>, defaultTimeout: nat, errorOutput: Option<string>,
                        cheriTrapFatal: bool, timeout: nat)
    requires |lines| > 0 && lines[0].delay <= timeout && re(lines[0].text, Prompt)
    requires FirstHit(re, lines[0].text, PanicPatterns).None?
    requires errorOutput.None? || !(errorOutput.value in PanicPatterns)
    ensures CommandOutcome(re, lines, defaultTimeout, None, errorOutput, cheriTrapFatal, timeout) == Value(Completed)
  {
    var p := ResultPatterns(errorOutput);
    assert !HoldsMarker(p);
    FirstHitShift(re, lines[0].text, PanicPatterns, p.texts);
    assert FirstHit(re, lines[0].text, p.texts) == Some(0);
  }

  /** "not found" as the first line (no prompt or panic marker on it) ends
      the script with status 1. */
  lemma NotFoundExits(re: Matcher, lines: seq<Line>, defaultTimeout: nat, errorOutput: Option<string>,
                      cheriTrapFatal: bool, timeout: nat)
    requires |lines| > 0 && lines[0].delay <= timeout
    requires !re(lines[0].text, Prompt) && re(lines[0].text, NotFound)
    requires FirstHit(re, lines[0].text, PanicPatterns).None?
    requires errorOutput.None? || !(errorOutput.value in PanicPatterns)
    ensures CommandOutcome(re, lines, defaultTimeout, None, errorOutput, cheriTrapFatal, timeout) == Exited(1)
  {
    var p := ResultPatterns(errorOutput);
    assert !HoldsMarker(p);
    FirstHitShift(re, lines[0].text, PanicPatterns, p.texts);
    assert FirstHit(re, lines[0].text, p.texts) == Some(1);
  }
}
