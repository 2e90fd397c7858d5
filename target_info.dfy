/** The cross-compilation targets of `pycheribuild/config/target_info.py`:
    the fixed table of targets (CPU architecture, pure-capability or not, and
    the operating system family that supplies triple and sysroot), their
    names and build-directory suffixes, the architecture queries, the target
    triples and the pointer size. */
module TargetInfo {

  import opened Wrappers
  import opened Strs

  datatype Arch = X86_64 | MIPS64 | RISCV64 | I386 | AARCH64

  /** The architecture's `value`, as the triples spell it. */
  function ArchValue(a: Arch): string {
    match a
    case X86_64 => "x86_64"
    case MIPS64 => "mips64"
    case RISCV64 => "riscv64"
    case I386 => "i386"
    case AARCH64 => "aarch64"
  }

  /** The `TargetInfo` class of a target: the host, FreeBSD, CheriBSD or
      bare-metal newlib. */
  datatype Family = Native | FreeBSD | CheriBSD | Newlib

  function Shortname(f: Family): (r: string)
    ensures r != "" && (EndsWith(r, "BSD") <==> f == FreeBSD || f == CheriBSD)
  {
    match f
    case Native => "native"
    case FreeBSD => "FreeBSD"
    case CheriBSD => "CheriBSD"
    case Newlib => "Newlib"
  }

  /** A `CrossCompileTarget`: its generic suffix, architecture (absent only
      for the `NONE` placeholder), whether it is pure-capability, and its
      family (absent only for `NONE`). */
  datatype Target = Target(suffix: string, arch: Option<Arch>, purecap: bool, family: Option<Family>)

  const NONE := Target("invalid", None, false, None)
  const NATIVE := Target("native", Some(X86_64), false, Some(Native))
  const CHERIBSD_MIPS := Target("mips", Some(MIPS64), false, Some(CheriBSD))
  const CHERIBSD_MIPS_PURECAP := Target("cheri", Some(MIPS64), true, Some(CheriBSD))
  const CHERIBSD_RISCV := Target("riscv", Some(RISCV64), false, Some(CheriBSD))
  const CHERIBSD_X86_64 := Target("native", Some(X86_64), false, Some(CheriBSD))
  const BAREMETAL_NEWLIB_MIPS64 := Target("baremetal-mips", Some(MIPS64), false, Some(Newlib))
  const BAREMETAL_NEWLIB_MIPS64_PURECAP := Target("baremetal-purecap-mips", Some(MIPS64), true, Some(Newlib))
  const FREEBSD_MIPS := Target("mips", Some(MIPS64), false, Some(FreeBSD))
  const FREEBSD_RISCV := Target("riscv", Some(RISCV64), false, Some(FreeBSD))
  const FREEBSD_I386 := Target("i386", Some(I386), false, Some(FreeBSD))
  const FREEBSD_AARCH64 := Target("aarch64", Some(AARCH64), false, Some(FreeBSD))
  const FREEBSD_X86_64 := Target("x86_64", Some(X86_64), false, Some(FreeBSD))

  /** The targets the table defines besides the `NONE` placeholder. */
  const Known: seq<Target> := [NATIVE, CHERIBSD_MIPS, CHERIBSD_MIPS_PURECAP, CHERIBSD_RISCV, CHERIBSD_X86_64,
    BAREMETAL_NEWLIB_MIPS64, BAREMETAL_NEWLIB_MIPS64_PURECAP, FREEBSD_MIPS, FREEBSD_RISCV, FREEBSD_I386,
    FREEBSD_AARCH64, FREEBSD_X86_64]

  /** The target's name: the family's short name followed by the suffix,
      or the bare suffix without a family. */
  function Name(t: Target): (r: string)
    ensures EndsWith(r, t.suffix)
    ensures t.family.Some? ==> StartsWith(r, Shortname(t.family.value))
    ensures |r| == |t.suffix| + (if t.family.Some? then |Shortname(t.family.value)| else 0)
  {
    if t.family.None? then t.suffix else Shortname(t.family.value) + t.suffix
  }

  /** The floating-point ABI of a MIPS target: the FreeBSD architecture name
      and the clang flag that selects it. */
  datatype MipsFloatAbi = Soft | Hard

  function FreebsdTargetArch(f: MipsFloatAbi): string {
    if f.Soft? then "mips64" else "mips64hf"
  }

  function ClangFloatFlag(f: MipsFloatAbi): string {
    if f.Soft? then "-msoft-float" else "-mhard-float"
  }

  /** The two ABIs differ in both their architecture name and their flag. */
  lemma FloatAbisDistinct()
    ensures FreebsdTargetArch(Soft) != FreebsdTargetArch(Hard)
    ensures ClangFloatFlag(Soft) != ClangFloatFlag(Hard)
  {
    assert |FreebsdTargetArch(Soft)| != |FreebsdTargetArch(Hard)|;
    assert ClangFloatFlag(Soft)[2] != ClangFloatFlag(Hard)[2];
  }

  /** The part of the configuration the target queries read: the capability
      size, its "bits and ABI" string, the MIPS float ABI and the optional
      suffix of the cross build ("" when unset). */
  datatype Config = Config(cheriBits: nat, bitsAndAbi: string, floatAbi: MipsFloatAbi, crossSuffix: string)

  /** The suffix of a project's build and install directories for target
      `t`. The `NONE` placeholder fails the assertion. */
  function BuildSuffix(t: Target, c: Config, hybrid: bool): (r: Result<string>)
    ensures r.Err? <==> t == NONE
  {
    if t == NONE then Err("assertion failed: build_suffix of the NONE target")
    else
      var base :=
        if t == CHERIBSD_MIPS_PURECAP then ""
        else if t == CHERIBSD_MIPS then
          "-" + t.suffix + (if hybrid then "-hybrid" + c.bitsAndAbi else "") +
          (if c.floatAbi == Hard then "-hardfloat" else "")
        else "-" + t.suffix;
      var abi := if t.purecap then base + "-" + c.bitsAndAbi else base;
      Ok(if c.crossSuffix != "" then abi + "-" + c.crossSuffix else abi)
  }

  /** The cross suffix, when set, comes last: the suffix is the one without
      it followed by "-" and the cross suffix. */
  lemma CrossSuffixLast(t: Target, c: Config, hybrid: bool)
    requires t != NONE && c.crossSuffix != ""
    ensures BuildSuffix(t, c, hybrid).value ==
      BuildSuffix(t, c.(crossSuffix := ""), hybrid).value + "-" + c.crossSuffix
  {
  }

  /** The pure-capability CheriBSD target has only the "bits and ABI" part
      (kept for the build directories of older versions). */
  lemma PurecapSuffix(c: Config, hybrid: bool)
    requires c.crossSuffix == ""
    ensures BuildSuffix(CHERIBSD_MIPS_PURECAP, c, hybrid) == Ok("-" + c.bitsAndAbi)
  {
    assert CHERIBSD_MIPS_PURECAP != NONE;
    assert "" + "-" + c.bitsAndAbi == "-" + c.bitsAndAbi;
  }

  /** The hybrid CheriBSD MIPS target: "-mips", then "-hybrid" and the bits
      when hybrid, and "-hardfloat" last for hard-float. */
  lemma MipsSuffix(c: Config, hybrid: bool)
    requires c.crossSuffix == ""
    ensures var r := BuildSuffix(CHERIBSD_MIPS, c, hybrid).value;
      StartsWith(r, "-mips") &&
      (c.floatAbi == Hard ==> EndsWith(r, "-hardfloat")) &&
      (hybrid ==> StartsWith(r[5..], "-hybrid" + c.bitsAndAbi)) &&
      (!hybrid && c.floatAbi == Soft ==> r == "-mips")
  {
    var tail := if hybrid then "-hybrid" + c.bitsAndAbi else "";
    var hard := if c.floatAbi == Hard then "-hardfloat" else "";
    var r := BuildSuffix(CHERIBSD_MIPS, c, hybrid).value;
    MipsSuffixParts(c, hybrid);
    ThreeParts(r, "-mips", tail, hard);
  }

  /** The MIPS suffix is "-mips", the hybrid part, then the float part. */
  lemma MipsSuffixParts(c: Config, hybrid: bool)
    requires c.crossSuffix == ""
    ensures BuildSuffix(CHERIBSD_MIPS, c, hybrid).value ==
      "-mips" + (if hybrid then "-hybrid" + c.bitsAndAbi else "") +
      (if c.floatAbi == Hard then "-hardfloat" else "")
  {
    assert "-" + CHERIBSD_MIPS.suffix == "-mips";
  }

  /** The three parts of a concatenation can be read back from it. */
  lemma ThreeParts(r: string, a: string, b: string, c: string)
    requires r == a + b + c
    ensures StartsWith(r, a) && EndsWith(r, c)
    ensures r[|a|..] == b + c && StartsWith(b + c, b)
  {
    assert r[..|a|] == a;
    assert r[|a|..] == b + c;
    assert (b + c)[..|b|] == b;
  }

  /** `is_native`: the host target. */
  predicate IsNative(t: Target) {
    t == NATIVE
  }

  /** `is_mips(include_purecap)`, with `None` for the argument left out.
      Leaving it out is refused for the pure-capability CheriBSD target,
      whose callers must decide; any other pure-capability target is not
      MIPS unless `include_purecap` is true. */
  function IsMips(t: Target, includePurecap: Option<bool>): (r: Result<bool>)
    ensures r.Err? <==> includePurecap.None? && t == CHERIBSD_MIPS_PURECAP
  {
    if includePurecap.None? && t == CHERIBSD_MIPS_PURECAP then
      Err("assertion failed: Should check purecap cases first")
    else if includePurecap != Some(true) && t.purecap then Ok(false)
    else Ok(t.arch == Some(MIPS64))
  }

  /** Without `include_purecap`, pure-capability targets are not MIPS; with
      it, exactly the MIPS architecture is. */
  lemma IsMipsPurecap(t: Target, includePurecap: Option<bool>)
    requires IsMips(t, includePurecap).Ok?
    ensures includePurecap == Some(true) ==> (IsMips(t, includePurecap).value <==> t.arch == Some(MIPS64))
    ensures t.purecap && includePurecap != Some(true) ==> !IsMips(t, includePurecap).value
    ensures !t.purecap ==> (IsMips(t, includePurecap).value <==> t.arch == Some(MIPS64))
  {
  }

  predicate IsRiscv(t: Target) { t.arch == Some(RISCV64) }
  predicate IsAarch64(t: Target) { t.arch == Some(AARCH64) }
  predicate IsI386(t: Target) { t.arch == Some(I386) }
  predicate IsX86_64(t: Target) { t.arch == Some(X86_64) }
  predicate IsAnyX86(t: Target) { IsI386(t) || IsX86_64(t) }

  /** The loop of `is_cheri_purecap(valid_cpu_archs)`: is the architecture
      one of `archs`? */
  function ArchIn(a: Option<Arch>, archs: seq<Arch>): (r: bool)
    ensures r <==> exists i :: 0 <= i < |archs| && a == Some(archs[i])
  {
    if |archs| == 0 then false
    else if a == Some(archs[0]) then true
    else
      var rest := ArchIn(a, archs[1..]);
      assert forall i :: 1 <= i < |archs| ==> archs[i] == archs[1..][i - 1];
      rest
  }

  /** `is_cheri_purecap(valid_cpu_archs)`: the target is pure-capability
      and, when a list of architectures is given, its architecture is in
      it. */
  function IsCheriPurecap(t: Target, archs: Option<seq<Arch>>): (r: bool)
    ensures r <==> t.purecap && (archs.None? || (t.arch.Some? && t.arch.value in archs.value))
  {
    if archs.None? then t.purecap
    else if !t.purecap then false
    else ArchIn(t.arch, archs.value)
  }

  const FreeBSDVersion: nat := 13

  /** "<arch>-unknown-freebsd13". */
  function FreeBSDTriple(a: Arch): string {
    ArchValue(a) + "-unknown-freebsd" + NatToString(FreeBSDVersion)
  }

  function PurecapPrefix(bits: nat): string {
    "mips64c" + NatToString(bits)
  }

  /** The target triple. The host's comes from its compiler and is a
      parameter. A pure-capability CheriBSD target that is not MIPS, a
      bare-metal target that is not MIPS, and `NONE` fail. */
  function TargetTriple(t: Target, cheriBits: nat, hostTriple: string): (r: Result<string>)
    ensures r.Err? <==> (t.family.None? || t.arch.None? ||
      (t.family == Some(CheriBSD) && t.purecap && t.arch != Some(MIPS64)) ||
      (t.family == Some(Newlib) && t.arch != Some(MIPS64)))
  {
    if t.family.None? || t.arch.None? then Err("no target information for " + t.suffix)
    else match t.family.value
      case Native => Ok(hostTriple)
      case FreeBSD => Ok(FreeBSDTriple(t.arch.value))
      case CheriBSD =>
        if t.purecap then
          if t.arch != Some(MIPS64) then Err("assertion failed: Only MIPS purecap is supported")
          else Ok(PurecapPrefix(cheriBits) + "-unknown-freebsd" + NatToString(FreeBSDVersion) + "-purecap")
        else Ok(FreeBSDTriple(t.arch.value))
      case Newlib =>
        if t.arch != Some(MIPS64) then Err("assertion failed: Other baremetal cases have not been tested yet!")
        else if t.purecap then Ok(PurecapPrefix(cheriBits) + "-qemu-elf-purecap")
        else Ok("mips64-qemu-elf")
  }

  /** The capability size can be read back from a pure-capability triple:
      different sizes give different triples. */
  lemma {:induction false} PurecapTripleBits(t: Target, b1: nat, b2: nat, host: string)
    requires t.purecap && t.arch == Some(MIPS64) && (t.family == Some(CheriBSD) || t.family == Some(Newlib))
    requires TargetTriple(t, b1, host) == TargetTriple(t, b2, host)
    ensures b1 == b2
  {
    var tail := if t.family == Some(CheriBSD) then "-unknown-freebsd" + NatToString(FreeBSDVersion) + "-purecap"
      else "-qemu-elf-purecap";
    assert TargetTriple(t, b1, host).value == PurecapPrefix(b1) + tail;
    assert TargetTriple(t, b2, host).value == PurecapPrefix(b2) + tail;
    StripTail(PurecapPrefix(b1), PurecapPrefix(b2), tail);
    StripHead("mips64c", NatToString(b1), NatToString(b2));
    DigitsValueOfNatToString(b1);
    DigitsValueOfNatToString(b2);
  }

  lemma StripTail(a: string, b: string, tail: string)
    requires a + tail == b + tail
    ensures a == b
  {
    assert a == (a + tail)[..|a|];
  }

  lemma StripHead(head: string, a: string, b: string)
    requires head + a == head + b
    ensures a == b
  {
    assert a == (head + a)[|head|..];
  }

  /** Every defined target has a triple, and the triples of the FreeBSD
      targets and of the CheriBSD targets that are not pure-capability start
      with the architecture. */
  lemma KnownTriples(i: nat, bits: nat, host: string)
    requires i < |Known|
    ensures TargetTriple(Known[i], bits, host).Ok?
    ensures var t := Known[i];
      (t.family == Some(FreeBSD) || t.family == Some(CheriBSD)) && !t.purecap ==>
        StartsWith(TargetTriple(t, bits, host).value, ArchValue(t.arch.value))
  {
    var t := Known[i];
    if (t.family == Some(FreeBSD) || t.family == Some(CheriBSD)) && !t.purecap {
      var a := t.arch.value;
      assert TargetTriple(t, bits, host).value == ArchValue(a) + ("-unknown-freebsd" + NatToString(FreeBSDVersion));
    }
  }

  /** `pointer_size`: a pure-capability MIPS target has pointers of the
      capability size (which must be 128 or 256 bits); other
      pure-capability targets are not handled; i386 has 4-byte pointers and
      every other target 8-byte ones. */
  function PointerSize(t: Target, cheriBits: nat): (r: Result<nat>)
    ensures r.Err? <==> t.purecap && (t.arch != Some(MIPS64) || (cheriBits != 128 && cheriBits != 256))
    ensures r.Ok? && t.purecap ==> r.value * 8 == cheriBits
  {
    if IsCheriPurecap(t, Some([MIPS64])) then
      if cheriBits == 128 || cheriBits == 256 then Ok((cheriBits / 8) as nat)
      else Err("assertion failed: No other cap size supported yet")
    else if IsCheriPurecap(t, None) then Err("assertion failed: RISC-V not handled yet")
    else if IsI386(t) then Ok(4)
    else Ok(8)
  }

  /** The pointer size of every target that is not pure-capability: 4 bytes
      on i386, 8 everywhere else. */
  lemma PlainPointerSize(t: Target, cheriBits: nat)
    requires !t.purecap
    ensures PointerSize(t, cheriBits) == Ok(if t.arch == Some(I386) then 4 else 8)
  {
  }
}
