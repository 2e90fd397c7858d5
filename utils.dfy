/** The helpers of `pycheribuild/utils.py`: the environment filter, the
    normalisation of `runCmd` arguments, the search for a clang binary,
    fatal errors, the classification of a compiler from its `-v` output,
    `/etc/os-release` parsing and `setEnv`. */
module Utils {

  import opened Wrappers
  import opened Strs
  import opened OrderedMaps

  /** The entries of `env` that the current environment `environ` lacks or
      holds with another value. */
  predicate Differs(env: map<string, string>, environ: map<string, string>, k: string)
    requires k in env
  {
    k !in environ || environ[k] != env[k]
  }

  /** `__filterEnv`: the entries worth exporting, in the order of `env`. */
  method FilterEnv(env: OrderedMap<string>, environ: map<string, string>) returns (r: OrderedMap<string>)
    requires env.Valid()
    ensures r.Valid()
    ensures forall k :: k in r.values <==> k in env.values && Differs(env.values, environ, k)
    ensures forall k :: k in r.values ==> r.values[k] == env.values[k]
  {
    r := Empty();
    var i := 0;
    while i < |env.keys|
      invariant 0 <= i <= |env.keys| && r.Valid()
      invariant forall k :: k in r.values ==> k in env.values && Differs(env.values, environ, k) && r.values[k] == env.values[k]
      invariant forall j :: 0 <= j < i && Differs(env.values, environ, env.keys[j]) ==> env.keys[j] in r.values
    {
      var k := env.keys[i];
      var v := env.values[k];
      if k !in environ || environ[k] != v {
        r := r.Put(k, v);
      }
      i := i + 1;
    }
    forall k | k in env.values && Differs(env.values, environ, k)
      ensures k in r.values
    {
      var j :| 0 <= j < |env.keys| && env.keys[j] == k;
    }
  }

  /** Exporting only the differing entries changes the environment exactly
      as exporting all of them would. */
  lemma FilteredExportSame(env: map<string, string>, environ: map<string, string>, kept: map<string, string>)
    requires forall k :: k in kept <==> k in env && Differs(env, environ, k)
    requires forall k :: k in kept ==> kept[k] == env[k]
    ensures environ + kept == environ + env
  {
    var a, b := environ + kept, environ + env;
    assert a.Keys == b.Keys;
    forall k | k in a ensures a[k] == b[k] {
    }
  }

  /** An argument to `runCmd`: a single value, or a list or tuple of
      values, each value already given as its `str`. */
  datatype Arg = Scalar(text: string) | Sequence(items: seq<string>)

  /** `str` of an argument: a list prints as its Python list display. */
  function ArgText(a: Arg): string {
    match a
    case Scalar(t) => t
    case Sequence(items) => "[" + Join(", ", QuotedAll(items)) + "]"
  }

  function QuotedAll(items: seq<string>): (r: seq<string>)
    ensures |r| == |items|
  {
    seq(|items|, i requires 0 <= i < |items| => "'" + items[i] + "'")
  }

  /** `runCmd`'s command line: a single list or tuple argument is the argv
      itself, otherwise the arguments are; every item becomes a string. */
  function Cmdline(args: seq<Arg>): (r: seq<string>)
    ensures |args| == 1 && args[0].Sequence? ==> r == args[0].items
    ensures !(|args| == 1 && args[0].Sequence?) ==>
      |r| == |args| && forall i :: 0 <= i < |args| ==> r[i] == ArgText(args[i])
  {
    if |args| == 1 && args[0].Sequence? then args[0].items
    else seq(|args|, i requires 0 <= i < |args| => ArgText(args[i]))
  }

  /** The `CompletedProcess` of a command, and whether it was started. */
  datatype Completed = Completed(args: seq<string>, returncode: int, executed: bool)

  /** `runCmd` given the exit status the process would have: in pretend mode
      (unless asked to run anyway) nothing is started and 0 is returned; a
      non-zero status raises. */
  function RunCmd(args: seq<Arg>, pretend: bool, runInPretendMode: bool, status: int): (r: Result<Completed>)
    ensures pretend && !runInPretendMode ==> r == Ok(Completed(Cmdline(args), 0, false))
    ensures r.Ok? ==> r.value.returncode == 0 && r.value.args == Cmdline(args)
    ensures r.Err? <==> (!pretend || runInPretendMode) && status != 0
  {
    var cmdline := Cmdline(args);
    if pretend && !runInPretendMode then Ok(Completed(cmdline, 0, false))
    else if status != 0 then Err("Command \"" + Join(" ", cmdline) + "\" failed with non-zero exit code")
    else Ok(Completed(cmdline, 0, true))
  }

  /** What `shutil.which` resolves the first candidate on the PATH to. */
  function FirstFound(candidates: seq<string>, which: map<string, string>): (r: Option<string>)
    ensures r.Some? <==> exists i :: 0 <= i < |candidates| && candidates[i] in which
    decreases |candidates|
  {
    if |candidates| == 0 then None
    else if candidates[0] in which then Some(which[candidates[0]])
    else
      var r := FirstFound(candidates[1..], which);
      assert forall i :: 1 <= i < |candidates| ==> candidates[1..][i - 1] == candidates[i];
      r
  }

  /** The first candidate found wins: no earlier candidate is on the PATH. */
  lemma {:induction false} FirstFoundEarliest(candidates: seq<string>, which: map<string, string>, i: nat)
    requires i < |candidates| && candidates[i] in which
    requires forall j :: 0 <= j < i ==> candidates[j] !in which
    ensures FirstFound(candidates, which) == Some(which[candidates[i]])
    decreases i
  {
    if i > 0 {
      FirstFoundEarliest(candidates[1..], which, i - 1);
    }
  }

  /** The names tried for each version: "clang50" (FreeBSD's packages), then
      "clang-5.0" (Linux distributions), and at the end the bare name. */
  function ClangCandidates(basename: string, versions: seq<(nat, nat)>): (r: seq<string>)
    ensures |r| == 2 * |versions| + 1 && r[|r| - 1] == basename
    decreases |versions|
  {
    if |versions| == 0 then [basename]
    else
      var (major, minor) := versions[0];
      [basename + NatToString(major) + NatToString(minor),
       basename + "-" + NatToString(major) + "." + NatToString(minor)] +
      ClangCandidates(basename, versions[1..])
  }

  /** The candidate names for version `i` sit at positions 2i and 2i + 1. */
  lemma {:induction false} ClangCandidateAt(basename: string, versions: seq<(nat, nat)>, i: nat)
    requires i < |versions|
    ensures var r, v := ClangCandidates(basename, versions), versions[i];
      r[2 * i] == basename + NatToString(v.0) + NatToString(v.1) &&
      r[2 * i + 1] == basename + "-" + NatToString(v.0) + "." + NatToString(v.1)
    decreases i
  {
    if i > 0 {
      ClangCandidateAt(basename, versions[1..], i - 1);
    }
  }

  /** The versions `latestClangTool` tries, newest first. */
  const LatestVersions: seq<(nat, nat)> := [(5, 0), (4, 0), (3, 9), (3, 8), (3, 7)]

  /** `latestClangTool`: the loop over the versions, newest first, then the
      bare name; None when nothing is on the PATH. */
  method LatestClangTool(basename: string, versions: seq<(nat, nat)>, which: map<string, string>)
    returns (r: Option<string>)
    ensures r == FirstFound(ClangCandidates(basename, versions), which)
  {
    var i := 0;
    while i < |versions|
      invariant 0 <= i <= |versions|
      invariant FirstFound(ClangCandidates(basename, versions), which) ==
        FirstFound(ClangCandidates(basename, versions[i..]), which)
    {
      var (major, minor) := versions[i];
      var guess := basename + NatToString(major) + NatToString(minor);
      var rest := ClangCandidates(basename, versions[i + 1..]);
      assert versions[i..][1..] == versions[i + 1..];
      if guess in which {
        return Some(which[guess]);
      }
      guess := basename + "-" + NatToString(major) + "." + NatToString(minor);
      if guess in which {
        return Some(which[guess]);
      }
      i := i + 1;
    }
    r := if basename in which then Some(which[basename]) else None;
  }

  /** `fatalError`: the exit status, 3, unless in pretend mode where only a
      fatal-when-pretending error exits. */
  function FatalExit(pretend: bool, fatalWhenPretending: bool): (r: Option<int>)
    ensures !pretend ==> r == Some(3)
    ensures pretend ==> (r.Some? <==> fatalWhenPretending)
    ensures r.Some? ==> r.value == 3
  {
    if !pretend || fatalWhenPretending then Some(3) else None
  }

  /** A match of a version pattern "N.N[.N]": its groups. */
  datatype VersionMatch = VersionMatch(major: nat, minor: nat, patch: Option<nat>)

  /** `tuple(map(int, m.groups()))` as written: `int(None)` raises when the
      optional third group did not match. */
  function VersionAsWritten(m: VersionMatch): (r: Result<(nat, nat, nat)>)
    ensures r.Ok? <==> m.patch.Some?
  {
    if m.patch.None? then Err("TypeError: int() argument must be a string, not 'NoneType'")
    else Ok((m.major, m.minor, m.patch.value))
  }

  /** A two-part version such as "clang version 7.0" is rejected. */
  lemma TwoPartVersionRejected()
    ensures VersionAsWritten(VersionMatch(7, 0, None)).Err?
  {
  }

  /** The version with a missing third part read as 0, as the optional group
      evidently intends. */
  function Version(m: VersionMatch): (r: (nat, nat, nat))
    ensures r.0 == m.major && r.1 == m.minor
    ensures m.patch.Some? ==> Ok(r) == VersionAsWritten(m)
    ensures m.patch.None? ==> r.2 == 0
  {
    (m.major, m.minor, if m.patch.Some? then m.patch.value else 0)
  }

  /** `CompilerInfo`: the kind of compiler, its version and default target. */
  datatype CompilerInfo = CompilerInfo(compiler: string, version: (nat, nat, nat), defaultTarget: string)

  /** The classification of a compiler's `-v` output from the matches of the
      gcc, clang and Apple LLVM patterns and of "Target: ...". */
  function Classify(gcc: Option<VersionMatch>, clang: Option<VersionMatch>, apple: Option<VersionMatch>,
                    target: Option<string>): (r: CompilerInfo)
    ensures gcc.Some? ==> r.compiler == "gcc" && r.version == Version(gcc.value)
    ensures gcc.None? && clang.Some? ==> r.compiler == "clang" && r.version == Version(clang.value)
    ensures gcc.None? && clang.None? && apple.Some? ==> r.compiler == "apple-clang"
    ensures gcc.None? && clang.None? && apple.None? ==> r.compiler == "unknown compiler" && r.version == (0, 0, 0)
    ensures r.defaultTarget == if target.Some? then target.value else ""
  {
    var t := if target.Some? then target.value else "";
    if gcc.Some? then CompilerInfo("gcc", Version(gcc.value), t)
    else if clang.Some? then CompilerInfo("clang", Version(clang.value), t)
    else if apple.Some? then CompilerInfo("apple-clang", Version(apple.value), t)
    else CompilerInfo("unknown compiler", (0, 0, 0), t)
  }

  /** The per-compiler cache of `getCompilerInfo`. */
  class CompilerInfoCache {
    var cache: map<string, CompilerInfo>

    constructor()
      ensures cache == map[]
    {
      cache := map[];
    }

    /** `getCompilerInfo`: a cached compiler is not asked again; otherwise
        its output is classified and remembered. */
    method Get(compiler: string, gcc: Option<VersionMatch>, clang: Option<VersionMatch>,
               apple: Option<VersionMatch>, target: Option<string>) returns (r: CompilerInfo)
      modifies this
      ensures compiler in old(cache) ==> r == old(cache)[compiler] && cache == old(cache)
      ensures compiler !in old(cache) ==>
        r == Classify(gcc, clang, apple, target) && cache == old(cache)[compiler := r]
    {
      if compiler !in cache {
        cache := cache[compiler := Classify(gcc, clang, apple, target)];
      }
      r := cache[compiler];
    }
  }

  /** One line of `/etc/os-release` as written: `rstrip`, split at the first
      "=", and `strip('"')` the value; a line without "=" cannot be unpacked
      into two names and raises. */
  function OsReleaseLineAsWritten(line: string): (r: Result<(string, string)>)
    ensures r.Ok? <==> '=' in RStrip(line)
    ensures r.Ok? ==> '=' !in r.value.0
  {
    var t := RStrip(line);
    if '=' !in t then Err("ValueError: not enough values to unpack (expected 2, got 1)")
    else
      var i := Find(t, '=');
      Ok((t[..i], StripChar(t[i + 1..], '"')))
  }

  /** Every line holds an "=" once right-stripped. */
  predicate EveryLineSplits(lines: seq<string>) {
    forall i :: 0 <= i < |lines| ==> OsReleaseLineAsWritten(lines[i]).Ok?
  }

  /** The mapping of all lines as written: a later key replaces an earlier
      one; the first bad line raises. */
  function OsReleaseAsWritten(lines: seq<string>): (r: Result<map<string, string>>)
    ensures r.Ok? <==> EveryLineSplits(lines)
    decreases |lines|
  {
    if |lines| == 0 then Ok(map[])
    else
      var init := lines[..|lines| - 1];
      assert EveryLineSplits(lines) <==> EveryLineSplits(init) && OsReleaseLineAsWritten(lines[|lines| - 1]).Ok?;
      match OsReleaseAsWritten(init)
      case Err(m) => Err(m)
      case Ok(d) =>
        match OsReleaseLineAsWritten(lines[|lines| - 1])
        case Err(m) => Err(m)
        case Ok(kv) => Ok(d[kv.0 := kv.1])
  }

  /** A blank line, which the os-release format allows, makes the parse raise. */
  lemma BlankLineRaises()
    ensures OsReleaseAsWritten(["ID=freebsd", ""]).Err?
  {
    assert OsReleaseLineAsWritten("").Err?;
  }

  /** Lines the os-release format says to skip: blank ones and comments. */
  predicate SkippedLine(line: string) {
    var t := Strip(line);
    t == "" || t[0] == '#'
  }

  /** No line of the file is blank or a comment. */
  predicate NoneSkipped(lines: seq<string>) {
    forall i :: 0 <= i < |lines| ==> !SkippedLine(lines[i])
  }

  /** `__parse_etc_os_release` skipping blank and comment lines; a missing
      file gives the empty mapping. */
  function OsRelease(exists_: bool, lines: seq<string>): (r: Result<map<string, string>>)
    ensures !exists_ ==> r == Ok(map[])
    ensures exists_ && NoneSkipped(lines) ==> r == OsReleaseAsWritten(lines)
    decreases |lines|
  {
    if !exists_ || |lines| == 0 then Ok(map[])
    else
      var init := lines[..|lines| - 1];
      var last := lines[|lines| - 1];
      assert NoneSkipped(lines) ==> NoneSkipped(init) && !SkippedLine(last);
      match OsRelease(true, init)
      case Err(m) => Err(m)
      case Ok(d) =>
        if SkippedLine(last) then Ok(d)
        else
          match OsReleaseLineAsWritten(last)
          case Err(m) => Err(m)
          case Ok(kv) => Ok(d[kv.0 := kv.1])
  }

  /** A blank or comment line adds nothing. */
  lemma SkippedLineIgnored(lines: seq<string>, line: string)
    requires SkippedLine(line)
    ensures OsRelease(true, lines + [line]) == OsRelease(true, lines)
  {
    assert (lines + [line])[..|lines|] == lines;
  }

  /** A line "K=rest" is split at its "=" and the quotes around `rest`
      are stripped. */
  lemma LineSplit(k: string, rest: string)
    requires '=' !in k && |rest| > 0 && !IsSpace(rest[|rest| - 1])
    ensures OsReleaseLineAsWritten(k + "=" + rest) == Ok((k, StripChar(rest, '"')))
  {
    var line := k + "=" + rest;
    assert line[|line| - 1] == rest[|rest| - 1];
    NoTrailingSpace(line);
    assert line[..|k|] == k && line[|k|] == '=' && line[|k| + 1..] == rest;
    LineParts(line, |k|);
  }

  lemma NoTrailingSpace(s: string)
    requires |s| > 0 && !IsSpace(s[|s| - 1])
    ensures RStrip(s) == s
  {
  }

  /** A line without trailing blanks splits at its first `=`. */
  lemma LineParts(t: string, i: nat)
    requires RStrip(t) == t && i < |t| && t[i] == '=' && '=' !in t[..i]
    ensures OsReleaseLineAsWritten(t) == Ok((t[..i], StripChar(t[i + 1..], '"')))
  {
    assert '=' in t;
    var j := Find(t, '=');
  }

  /** A quoted value is read back without its quotes. */
  lemma QuotedValue(k: string, v: string)
    requires '=' !in k && |v| > 0 && v[0] != '"' && v[|v| - 1] != '"'
    ensures OsReleaseLineAsWritten(k + "=" + ("\"" + v + "\"")) == Ok((k, v))
  {
    var q := "\"" + v + "\"";
    assert q[|q| - 1] == '"';
    LineSplit(k, q);
    StripQuotes(v);
  }

  lemma StripQuotes(v: string)
    requires |v| > 0 && v[0] != '"' && v[|v| - 1] != '"'
    ensures StripChar("\"" + v + "\"", '"') == v
  {
    var s := "\"" + v + "\"";
    assert s[1..] == v + "\"";
    var t := v + "\"";
    assert t[0] == v[0] && t[|t| - 1] == '"';
    assert t[..|t| - 1] == v;
    assert StripChar(t, '"') == StripChar(v, '"');
  }

  /** The process environment, as `os.environ`. */
  class Environment {
    var vars: map<string, string>

    constructor(vars: map<string, string>)
      ensures this.vars == vars
    {
      this.vars := vars;
    }
  }

  /** `setEnv`: the block runs with the overrides in force and, whether it
      returns or raises, the environment is afterwards exactly what it was
      before. The block is represented by the environment it leaves behind
      and whether it raised. */
  method SetEnv(env: Environment, overrides: seq<(string, string)>, leftBehind: map<string, string>, raises: bool)
    returns (inside: map<string, string>, raised: bool)
    modifies env
    ensures inside == old(env.vars) + AsMap(overrides)
    ensures env.vars == old(env.vars) && raised == raises
  {
    var saved := env.vars;
    env.vars := env.vars + AsMap(overrides);
    inside := env.vars;
    env.vars := leftBehind;
    env.vars := saved;
    raised := raises;
  }
}
