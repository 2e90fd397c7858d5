/** The FreeBSD and CheriBSD projects of
    `pycheribuild/projects/cross/cheribsd.py`: the default kernel
    configuration and install directory of a target, the job counts of
    nested builds, the extra make options of the configuration, library
    subdirectories, the kernels built with and without an embedded root
    file system and the FPGA kernels. */
module CrossCheriBSD {

  import opened Wrappers
  import opened Strs
  import opened Paths
  import opened OrderedMaps
  import TI = TargetInfo
  import Projects
  import Utils

  /** `default_kernel_config`: GENERIC on x86, a CHERI MALTA64 kernel for
      pure-capability MIPS (with "128" for 128-bit capabilities and
      "_PURECAP" for a pure-capability kernel), MALTA64 for plain MIPS,
      GENERIC on RISC-V and GENERIC-UP on AArch64. Only the `NONE`
      placeholder has no configuration. */
  function DefaultKernelConfig(t: TI.Target, cheriBits: nat, purecapKernel: bool): (r: Result<string>)
    ensures r.Err? <==> t.arch.None?
  {
    match t.arch
    case None => Err("assertion failed: should be unreachable")
    case Some(a) =>
      match a
      case X86_64 => Ok("GENERIC")
      case I386 => Ok("GENERIC")
      case MIPS64 =>
        if TI.IsCheriPurecap(t, Some([TI.MIPS64])) then
          Ok("CHERI" + (if cheriBits == 128 then "128" else "") + (if purecapKernel then "_PURECAP" else "") +
            "_MALTA64")
        else Ok("MALTA64")
      case RISCV64 => Ok("GENERIC")
      case AARCH64 => Ok("GENERIC-UP")
  }

  /** The configuration names CHERI MALTA64 kernels and records both
      choices: two pure-capability MIPS configurations are the same only for
      the same 128-bit choice and the same kernel ABI. */
  lemma PurecapKernelConfig(t: TI.Target, b1: nat, p1: bool, b2: nat, p2: bool)
    requires t.purecap && t.arch == Some(TI.MIPS64)
    ensures StartsWith(DefaultKernelConfig(t, b1, p1).value, "CHERI")
    ensures EndsWith(DefaultKernelConfig(t, b1, p1).value, "_MALTA64")
    ensures DefaultKernelConfig(t, b1, p1) == DefaultKernelConfig(t, b2, p2) ==> (b1 == 128 <==> b2 == 128) && p1 == p2
  {
    var r := DefaultKernelConfig(t, b1, p1).value;
    var mid := (if b1 == 128 then "128" else "") + (if p1 then "_PURECAP" else "");
    assert r == "CHERI" + mid + "_MALTA64";
    assert r[..5] == "CHERI";
    assert r[|r| - 8..] == "_MALTA64";
    var r2 := DefaultKernelConfig(t, b2, p2).value;
    assert |r2| == 13 + (if b2 == 128 then 3 else 0) + (if p2 then 8 else 0);
  }

  /** `freebsd_install_dir`: freebsd-mipshf or freebsd-mips by float ABI,
      freebsd-x86, freebsd-riscv and freebsd-i386 under the output root.
      Pure-capability MIPS, AArch64 and `NONE` fail the assertions. */
  function FreeBSDInstallDir(t: TI.Target, outputRoot: string, floatAbi: TI.MipsFloatAbi): (r: Result<string>)
    ensures r.Err? <==> t.arch.None? || t.arch == Some(TI.AARCH64) || (t.arch == Some(TI.MIPS64) && t.purecap)
  {
    match t.arch
    case Some(MIPS64) =>
      if TI.IsCheriPurecap(t, None) then Err("assertion failed: Should not reach this code!")
      else if floatAbi == TI.Hard then Ok(PathJoin(outputRoot, "freebsd-mipshf"))
      else Ok(PathJoin(outputRoot, "freebsd-mips"))
    case Some(X86_64) => Ok(PathJoin(outputRoot, "freebsd-x86"))
    case Some(RISCV64) => Ok(PathJoin(outputRoot, "freebsd-riscv"))
    case Some(I386) => Ok(PathJoin(outputRoot, "freebsd-i386"))
    case _ => Err("assertion failed: should not be reached")
  }

  /** The directory name under the output root. */
  function InstallDirName(a: TI.Arch, floatAbi: TI.MipsFloatAbi): string {
    match a
    case MIPS64 => if floatAbi == TI.Hard then "freebsd-mipshf" else "freebsd-mips"
    case X86_64 => "freebsd-x86"
    case RISCV64 => "freebsd-riscv"
    case I386 => "freebsd-i386"
    case AARCH64 => ""
  }

  /** Different architectures (and the two MIPS float ABIs) install into
      different directories under the same output root. */
  lemma InstallDirsDistinct(t1: TI.Target, f1: TI.MipsFloatAbi, t2: TI.Target, f2: TI.MipsFloatAbi, root: string)
    requires FreeBSDInstallDir(t1, root, f1).Ok? && FreeBSDInstallDir(t2, root, f2).Ok?
    requires FreeBSDInstallDir(t1, root, f1) == FreeBSDInstallDir(t2, root, f2)
    ensures t1.arch == t2.arch
    ensures t1.arch == Some(TI.MIPS64) ==> f1 == f2
  {
    var n1, n2 := InstallDirName(t1.arch.value, f1), InstallDirName(t2.arch.value, f2);
    InstallDirIsName(t1, root, f1);
    InstallDirIsName(t2, root, f2);
    JoinRelative(root, n1, n2);
    DirNamesDistinct(t1.arch.value, f1, t2.arch.value, f2);
  }

  lemma InstallDirIsName(t: TI.Target, root: string, f: TI.MipsFloatAbi)
    requires FreeBSDInstallDir(t, root, f).Ok?
    ensures var n := InstallDirName(t.arch.value, f);
      t.arch.value != TI.AARCH64 && FreeBSDInstallDir(t, root, f).value == PathJoin(root, n) && |n| > 0 && n[0] == 'f'
  {
  }

  /** Joining one base with two relative names gives the same path only
      for the same name. */
  lemma JoinRelative(root: string, n1: string, n2: string)
    requires |n1| > 0 && |n2| > 0 && n1[0] != '/' && n2[0] != '/'
    requires PathJoin(root, n1) == PathJoin(root, n2)
    ensures n1 == n2
  {
    assert !StartsWith(n1, "/") && !StartsWith(n2, "/");
    if root == "" {
    } else if EndsWith(root, "/") {
      TI.StripHead(root, n1, n2);
    } else {
      assert root + "/" + n1 == (root + "/") + n1;
      assert root + "/" + n2 == (root + "/") + n2;
      TI.StripHead(root + "/", n1, n2);
    }
  }

  lemma DirNamesDistinct(a1: TI.Arch, f1: TI.MipsFloatAbi, a2: TI.Arch, f2: TI.MipsFloatAbi)
    requires a1 != TI.AARCH64 && a2 != TI.AARCH64
    requires InstallDirName(a1, f1) == InstallDirName(a2, f2)
    ensures a1 == a2 && (a1 == TI.MIPS64 ==> f1 == f2)
  {
    var n1, n2 := InstallDirName(a1, f1), InstallDirName(a2, f2);
    assert n1[8] == n2[8] && |n1| == |n2|;
  }

  /** `jflag_in_subjobs`: half the jobs, but at least one. */
  function JflagInSubjobs(makeJobs: nat): (r: nat)
    ensures r >= 1 && (makeJobs >= 1 ==> r <= makeJobs)
    ensures r == 1 || 2 * r <= makeJobs < 2 * r + 2
  {
    if makeJobs / 2 > 1 then makeJobs / 2 else 1
  }

  /** `jflag_for_universe`: a quarter of the jobs, but at least one. */
  function JflagForUniverse(makeJobs: nat): (r: nat)
    ensures r >= 1 && (makeJobs >= 1 ==> r <= makeJobs)
    ensures r == 1 || 4 * r <= makeJobs < 4 * r + 4
  {
    if makeJobs / 4 > 1 then makeJobs / 4 else 1
  }

  /** An extra make option that only applies to pure-capability builds. */
  predicate Skipped(option: string, purecap: bool) {
    !purecap && Contains(option, "CHERI_")
  }

  /** `key, value = option.split("=")` as written: a Python tuple
      assignment, which raises unless the option holds exactly one "=". */
  function SplitOptionAsWritten(option: string): (r: Option<(string, string)>)
    ensures r.Some? ==> r.value.0 + "=" + r.value.1 == option
  {
    var parts := Split(option, '=');
    SplitJoin(option, '=');
    if |parts| == 2 then
      assert Join("=", parts) == parts[0] + "=" + parts[1];
      Some((parts[0], parts[1]))
    else None
  }

  /** A make variable whose value holds "=" (a `-D` definition with a
      value, say) aborts the constructor. */
  lemma SplitAsWrittenRejects()
    ensures SplitOptionAsWritten("CFLAGS=-DX=1") == None
  {
    var o := "CFLAGS=-DX=1";
    CountTwo(o, '=', 6, 10);
    SplitCount(o, '=');
  }

  /** Two occurrences of `c` count at least twice. */
  lemma {:induction false} CountTwo(s: string, c: char, i: nat, j: nat)
    requires i < j < |s| && s[i] == c && s[j] == c
    ensures Count(s, c) >= 2
    decreases i
  {
    if i > 0 {
      CountTwo(s[1..], c, i - 1, j - 1);
    } else {
      assert s[1..][j - 1] == c;
      CountZero(s[1..], c);
    }
  }

  /** The option split at its first "=": the name before it and the value
      after it. */
  function SplitOption(option: string): (r: (string, string))
    requires '=' in option
    ensures r.0 + "=" + r.1 == option && '=' !in r.0
  {
    var i := Find(option, '=');
    assert option == option[..i] + "=" + option[i + 1..];
    (option[..i], option[i + 1..])
  }

  /** The variables the extra make options set, in order: no name holds
      "=", and there is at most one per option. */
  function OptionVars(options: seq<string>, purecap: bool): (r: seq<(string, string)>)
    ensures |r| <= |options|
    ensures forall i :: 0 <= i < |r| ==> '=' !in r[i].0
    decreases |options|
  {
    if |options| == 0 then []
    else
      var init := OptionVars(options[..|options| - 1], purecap);
      var o := options[|options| - 1];
      if Skipped(o, purecap) || '=' !in o then init else init + [SplitOption(o)]
  }

  /** Every variable comes from an option that was not skipped, which it
      reassembles as "name=value". */
  lemma {:induction false} OptionVarsFromOptions(options: seq<string>, purecap: bool, i: nat)
    requires i < |OptionVars(options, purecap)|
    ensures var kv := OptionVars(options, purecap)[i];
      exists j :: 0 <= j < |options| && kv.0 + "=" + kv.1 == options[j] && !Skipped(options[j], purecap)
    decreases |options|
  {
    var p := options[..|options| - 1];
    var init := OptionVars(p, purecap);
    var o := options[|options| - 1];
    if i < |init| {
      OptionVarsFromOptions(p, purecap, i);
      var j :| 0 <= j < |p| && init[i].0 + "=" + init[i].1 == p[j] && !Skipped(p[j], purecap);
      assert options[j] == p[j];
    } else {
      assert options[|options| - 1] == o;
    }
  }

  /** The options passed to make as raw flags, in order. */
  function OptionFlags(options: seq<string>, purecap: bool): (r: seq<string>)
    ensures forall i :: 0 <= i < |r| ==> '=' !in r[i] && !Skipped(r[i], purecap)
    ensures |r| + |OptionVars(options, purecap)| <= |options|
    decreases |options|
  {
    if |options| == 0 then []
    else
      var init := OptionFlags(options[..|options| - 1], purecap);
      var o := options[|options| - 1];
      if Skipped(o, purecap) || '=' in o then init else init + [o]
  }

  /** For a pure-capability target nothing is skipped: every option is a
      variable or a flag. */
  lemma {:induction false} PurecapKeepsAll(options: seq<string>)
    ensures |OptionVars(options, true)| + |OptionFlags(options, true)| == |options|
    decreases |options|
  {
    if |options| > 0 {
      PurecapKeepsAll(options[..|options| - 1]);
    }
  }

  /** The variables and flags of one more option. */
  lemma OptionStep(options: seq<string>, i: nat, purecap: bool)
    requires i < |options|
    ensures var o, p, q := options[i], options[..i], options[..i + 1];
      OptionVars(q, purecap) ==
        (if Skipped(o, purecap) || '=' !in o then OptionVars(p, purecap) else OptionVars(p, purecap) + [SplitOption(o)]) &&
      OptionFlags(q, purecap) ==
        (if Skipped(o, purecap) || '=' in o then OptionFlags(p, purecap) else OptionFlags(p, purecap) + [o])
  {
    assert options[..i + 1][..i] == options[..i];
  }

  lemma PutAllSnoc(d: OrderedMap<string>, items: seq<(string, string)>, kv: (string, string))
    requires d.Valid()
    ensures PutAll(d, items + [kv]) == PutAll(d, items).Put(kv.0, kv.1)
  {
    assert (items + [kv])[..|items|] == items;
  }

  /** The make variables after one more option. */
  function VarsAfter(vars: OrderedMap<string>, option: string, purecap: bool): (r: OrderedMap<string>)
    requires vars.Valid()
    ensures r.Valid()
  {
    if Skipped(option, purecap) || '=' !in option then vars
    else vars.Put(SplitOption(option).0, SplitOption(option).1)
  }

  /** The raw make flags after one more option. */
  function FlagsAfter(flags: seq<string>, option: string, purecap: bool): seq<string> {
    if Skipped(option, purecap) || '=' in option then flags else flags + [option]
  }

  /** Taking the options one at a time gives what the whole prefix gives. */
  lemma LoopStep(vars0: OrderedMap<string>, flags0: seq<string>, options: seq<string>, i: nat, purecap: bool)
    requires vars0.Valid() && i < |options|
    ensures VarsAfter(PutAll(vars0, OptionVars(options[..i], purecap)), options[i], purecap) ==
      PutAll(vars0, OptionVars(options[..i + 1], purecap))
    ensures FlagsAfter(flags0 + OptionFlags(options[..i], purecap), options[i], purecap) ==
      flags0 + OptionFlags(options[..i + 1], purecap)
  {
    var o := options[i];
    var pv, pf := OptionVars(options[..i], purecap), OptionFlags(options[..i], purecap);
    OptionStep(options, i, purecap);
    if Skipped(o, purecap) {
    } else if '=' in o {
      PutAllSnoc(vars0, pv, SplitOption(o));
    } else {
      assert (flags0 + pf) + [o] == flags0 + (pf + [o]);
    }
  }

  /** One pass of the constructor's loop. */
  method AddMakeOption(makeArgs: Projects.MakeOptions, option: string, purecap: bool)
    requires makeArgs.Valid()
    modifies makeArgs
    ensures makeArgs.Valid()
    ensures makeArgs.vars == VarsAfter(old(makeArgs.vars), option, purecap)
    ensures makeArgs.flags == FlagsAfter(old(makeArgs.flags), option, purecap)
    ensures makeArgs.withOptions == old(makeArgs.withOptions) && makeArgs.envVars == old(makeArgs.envVars)
    ensures makeArgs.kind == old(makeArgs.kind) && makeArgs.command == old(makeArgs.command)
    ensures makeArgs.canPassJFlagSetting == old(makeArgs.canPassJFlagSetting)
  {
    if Skipped(option, purecap) {
    } else if '=' in option {
      var kv := SplitOption(option);
      makeArgs.Set([(kv.0, Projects.StrSetting(kv.1))]);
      assert Projects.Rendered([(kv.0, Projects.StrSetting(kv.1))]) == [kv];
    } else {
      makeArgs.AddFlags([option]);
    }
  }

  /** The constructor's loop over the extra make options: an option naming
      "CHERI_" is skipped unless the target is pure-capability, "K=V" sets
      make variable K, and anything else becomes a raw flag. */
  method AddMakeOptions(makeArgs: Projects.MakeOptions, options: seq<string>, purecap: bool)
    requires makeArgs.Valid()
    modifies makeArgs
    ensures makeArgs.Valid()
    ensures makeArgs.vars == PutAll(old(makeArgs.vars), OptionVars(options, purecap))
    ensures makeArgs.flags == old(makeArgs.flags) + OptionFlags(options, purecap)
    ensures makeArgs.withOptions == old(makeArgs.withOptions) && makeArgs.envVars == old(makeArgs.envVars)
    ensures makeArgs.kind == old(makeArgs.kind) && makeArgs.command == old(makeArgs.command)
    ensures makeArgs.canPassJFlagSetting == old(makeArgs.canPassJFlagSetting)
  {
    ghost var vars0, flags0 := makeArgs.vars, makeArgs.flags;
    var i := 0;
    while i < |options|
      invariant 0 <= i <= |options| && makeArgs.Valid()
      invariant makeArgs.vars == PutAll(vars0, OptionVars(options[..i], purecap))
      invariant makeArgs.flags == flags0 + OptionFlags(options[..i], purecap)
      invariant makeArgs.withOptions == old(makeArgs.withOptions) && makeArgs.envVars == old(makeArgs.envVars)
      invariant makeArgs.kind == old(makeArgs.kind) && makeArgs.command == old(makeArgs.command)
      invariant makeArgs.canPassJFlagSetting == old(makeArgs.canPassJFlagSetting)
    {
      LoopStep(vars0, flags0, options, i, purecap);
      AddMakeOption(makeArgs, options[i], purecap);
      i := i + 1;
    }
    assert options[..i] == options;
  }

  /** `build_and_install_subdir`: a subdirectory holds a library when it
      starts with "lib/", contains "/lib/" or ends with "/lib". */
  predicate IsLibSubdir(subdir: string) {
    StartsWith(subdir, "lib/") || Contains(subdir, "/lib/") || EndsWith(subdir, "/lib")
  }

  /** A "lib" component anywhere in the path makes it a library
      subdirectory: first, in the middle or last. */
  lemma LibComponent(a: string, b: string)
    ensures IsLibSubdir("lib/" + b)
    ensures IsLibSubdir(a + "/lib/" + b)
    ensures IsLibSubdir(a + "/lib")
  {
    assert ("lib/" + b)[..4] == "lib/";
    ContainsAt(a + "/lib/" + b, "/lib/", |a|);
    assert (a + "/lib")[|a + "/lib"| - 4..] == "/lib";
  }

  /** The root file systems a kernel can mount instead of an embedded one. */
  const NonMfsRoots: seq<string> := ["USBROOT", "NFSROOT", "MDROOT"]

  predicate NonMfsKernel(kernconf: string) {
    exists i :: 0 <= i < |NonMfsRoots| && Contains(kernconf, "_" + NonMfsRoots[i])
  }

  /** The loop in `compile`: a kernel configuration that names a USB, NFS or
      memory-disk root gets no embedded root file-system image. */
  method EmbeddedMfsImage(kernconf: string, image: Option<string>) returns (r: Option<string>)
    ensures r == if NonMfsKernel(kernconf) then None else image
  {
    r := image;
    var i := 0;
    while i < |NonMfsRoots|
      invariant 0 <= i <= |NonMfsRoots|
      invariant r == image && forall j :: 0 <= j < i ==> !Contains(kernconf, "_" + NonMfsRoots[j])
    {
      if Contains(kernconf, "_" + NonMfsRoots[i]) {
        r := None;
        return;
      }
      i := i + 1;
    }
  }

  /** `_get_kernconf_to_build`: the kernel with an embedded root file
      system uses the CheriBSD configuration plus "_MFS_ROOT". */
  function MfsKernconf(kernelConfig: string): (r: string)
    ensures StartsWith(r, kernelConfig) && EndsWith(r, "_MFS_ROOT")
  {
    kernelConfig + "_MFS_ROOT"
  }

  /** `installed_kernel_for_config`: "kernel", the capability bits and ABI,
      "." and the configuration, in the image root. */
  function InstalledKernel(imageRoot: string, bitsAndAbi: string, kernconf: string): (r: string)
    ensures imageRoot != "" ==> StartsWith(r, imageRoot)
  {
    var n := "kernel" + bitsAndAbi + "." + kernconf;
    assert n[0] == 'k';
    PathJoin(imageRoot, n)
  }

  /** The benchmark kernel sits next to the plain one, its file name
      followed by "_BENCHMARK". */
  lemma BenchmarkKernelBeside(imageRoot: string, bitsAndAbi: string, kernelConfig: string)
    ensures InstalledKernel(imageRoot, bitsAndAbi, MfsKernconf(kernelConfig) + "_BENCHMARK") ==
      InstalledKernel(imageRoot, bitsAndAbi, MfsKernconf(kernelConfig)) + "_BENCHMARK"
    ensures var n := "kernel" + bitsAndAbi + "." + MfsKernconf(kernelConfig);
      imageRoot != "" ==> EndsWith(InstalledKernel(imageRoot, bitsAndAbi, MfsKernconf(kernelConfig)), n)
  {
    var n := "kernel" + bitsAndAbi + "." + MfsKernconf(kernelConfig);
    assert n[0] == 'k';
    assert (n + "_BENCHMARK")[0] == 'k';
    assert "kernel" + bitsAndAbi + "." + (MfsKernconf(kernelConfig) + "_BENCHMARK") == n + "_BENCHMARK";
  }

  /** The configuration prefix of the FPGA kernels: CHERI128_DE4_ or
      CHERI_DE4_ for pure-capability MIPS by capability size, BERI_DE4_ for
      plain MIPS. Other capability sizes fail the assertion. Other
      architectures are a fatal error, which in pretend mode is only
      reported: the constructor goes on with the prefix INVALID_KERNCONF_. */
  function FpgaPrefix(t: TI.Target, cheriBits: nat, pretend: bool): (r: Result<string>)
    ensures t.arch == Some(TI.MIPS64) ==>
      (r.Ok? <==> (t.purecap ==> cheriBits == 128 || cheriBits == 256))
    ensures t.arch == Some(TI.MIPS64) && r.Ok? ==> EndsWith(r.value, "DE4_")
    ensures t.arch != Some(TI.MIPS64) ==>
      r == (if Utils.FatalExit(pretend, false).None? then Ok(InvalidKernconf) else Err("Invalid CHERI BITS"))
    ensures r.Ok? ==> EndsWith(r.value, "_")
  {
    if TI.IsMips(t, Some(true)) == Ok(true) then
      if TI.IsCheriPurecap(t, Some([TI.MIPS64])) then
        if cheriBits == 128 then Ok("CHERI128_DE4_")
        else if cheriBits == 256 then Ok("CHERI_DE4_")
        else Err("assertion failed: unreachable")
      else Ok("BERI_DE4_")
    else if Utils.FatalExit(pretend, false).None? then Ok(InvalidKernconf)
    else Err("Invalid CHERI BITS")
  }

  const InvalidKernconf: string := "INVALID_KERNCONF_"

  /** The constructor's FPGA kernels: with FPGA kernels requested, the USB
      root kernel and its benchmark variant, and with a root file-system
      image also the embedded-root kernel and its benchmark variant. */
  method ExtraKernels(t: TI.Target, cheriBits: nat, pretend: bool, buildFpgaKernels: bool, hasMfsImage: bool)
    returns (r: Result<(seq<string>, seq<string>)>)
    ensures !buildFpgaKernels ==> r == Ok(([], []))
    ensures buildFpgaKernels ==> (r.Ok? <==> FpgaPrefix(t, cheriBits, pretend).Ok?)
    ensures buildFpgaKernels && r.Ok? ==>
      var p := FpgaPrefix(t, cheriBits, pretend).value;
      r.value.0 == [p + "USBROOT", p + "USBROOT_BENCHMARK"] &&
      r.value.1 == (if hasMfsImage then [p + "MFS_ROOT", p + "MFS_ROOT_BENCHMARK"] else [])
  {
    var extra: seq<string> := [];
    var withMfs: seq<string> := [];
    if buildFpgaKernels {
      var prefix := FpgaPrefix(t, cheriBits, pretend);
      if prefix.Err? {
        return Err(prefix.msg);
      }
      var confs := ["USBROOT", "USBROOT_BENCHMARK"];
      var i := 0;
      while i < |confs|
        invariant 0 <= i <= |confs|
        invariant extra == seq(i, k requires 0 <= k < i => prefix.value + confs[k])
      {
        extra := extra + [prefix.value + confs[i]];
        i := i + 1;
      }
      if hasMfsImage {
        withMfs := withMfs + [prefix.value + "MFS_ROOT"];
        withMfs := withMfs + [prefix.value + "MFS_ROOT_BENCHMARK"];
      }
    }
    r := Ok((extra, withMfs));
  }

  /** Outside MIPS a pretend run still lists the FPGA kernels, under the
      INVALID_KERNCONF_ prefix, while a real run stops with status 3. */
  lemma PretendInvalidKernels(t: TI.Target, cheriBits: nat)
    requires t.arch != Some(TI.MIPS64)
    ensures FpgaPrefix(t, cheriBits, true) == Ok(InvalidKernconf)
    ensures FpgaPrefix(t, cheriBits, false).Err? && Utils.FatalExit(false, false) == Some(3)
  {
  }

  /** Every FPGA kernel configuration carries the board prefix, and the
      USB-root ones are always there. */
  lemma FpgaKernelsPrefixed(t: TI.Target, cheriBits: nat, pretend: bool, hasMfsImage: bool,
                             extra: seq<string>, withMfs: seq<string>)
    requires FpgaPrefix(t, cheriBits, pretend).Ok?
    requires var p := FpgaPrefix(t, cheriBits, pretend).value;
      extra == [p + "USBROOT", p + "USBROOT_BENCHMARK"] &&
      withMfs == (if hasMfsImage then [p + "MFS_ROOT", p + "MFS_ROOT_BENCHMARK"] else [])
    ensures forall k :: k in extra + withMfs ==> StartsWith(k, FpgaPrefix(t, cheriBits, pretend).value)
    ensures |extra| == 2 && (|withMfs| == 2 <==> hasMfsImage)
  {
    var p := FpgaPrefix(t, cheriBits, pretend).value;
    forall k | k in extra + withMfs ensures StartsWith(k, p) {
      var s :| k == p + s;
      assert k[..|p|] == p;
    }
  }
}
