/** The snmalloc allocator project of
    `pycheribuild/projects/cross/snmalloc.py`: its options, the chain by
    which revocation and CHERI bounds switch on the features they need, and
    the compiler definitions the options become. */
module Snmalloc {

  import opened Wrappers
  import opened Strs
  import PB = ProjectBase
  import Projects

  /** The features revocation and CHERI bounds depend on. */
  datatype Features = Features(
    revoke: bool, quarantine: bool, cheriBounds: bool, pagemapRederive: bool, cheriAlign: bool,
    pagemapPointers: bool)

  /** The project's options, as the configuration gives them. */
  datatype Settings = Settings(
    justSo: bool, debug: bool, stats: bool, features: Features,
    qpathresh: Option<int>, qpacthresh: Option<int>, qcsc: Option<int>, decommit: Option<string>,
    zero: bool, revokeDryRun: bool, revokeParanoia: bool, revokeThroughput: bool, revokeVerbose: bool)

  /** Revocation needs quarantine, CHERI bounds and pointer rederivation;
      CHERI bounds need rederivation and aligned sizes; rederivation needs
      pointers in the pagemap. */
  predicate Closed(f: Features) {
    (f.revoke ==> f.quarantine && f.cheriBounds && f.pagemapRederive) &&
    (f.cheriBounds ==> f.pagemapRederive && f.cheriAlign) &&
    (f.pagemapRederive ==> f.pagemapPointers)
  }

  /** `g` switches on every feature `f` does and asks for revocation
      exactly when `f` does. */
  predicate Below(f: Features, g: Features) {
    f.revoke == g.revoke &&
    (f.quarantine ==> g.quarantine) && (f.cheriBounds ==> g.cheriBounds) &&
    (f.pagemapRederive ==> g.pagemapRederive) && (f.cheriAlign ==> g.cheriAlign) &&
    (f.pagemapPointers ==> g.pagemapPointers)
  }

  /** The features once every feature a switched-on feature needs is on. */
  function Implied(f: Features): (r: Features)
    ensures Closed(r) && Below(f, r)
  {
    var bounds := f.cheriBounds || f.revoke;
    var rederive := f.pagemapRederive || bounds;
    Features(f.revoke, f.quarantine || f.revoke, bounds, rederive, f.cheriAlign || bounds,
      f.pagemapPointers || rederive)
  }

  /** The chain switches on no more than it must: any closed choice of
      features above the given ones is above the implied ones. */
  lemma ImpliedLeast(f: Features, g: Features)
    requires Closed(g) && Below(f, g)
    ensures Below(Implied(f), g)
  {
  }

  /** Features that already satisfy the chain are left as they are. */
  lemma ImpliedClosed(f: Features)
    requires Closed(f)
    ensures Implied(f) == f
  {
  }

  /** Revocation ends up with all five features it depends on. */
  lemma RevokeNeedsAll(f: Features)
    requires f.revoke
    ensures var r := Implied(f);
      r.revoke && r.quarantine && r.cheriBounds && r.pagemapRederive && r.pagemapPointers && r.cheriAlign
  {
  }

  /** A definition of a switch: "-DSNMALLOC_<name>=" then 1 or 0. */
  function Bit(name: string, b: bool): (r: string)
    ensures |r| > 0 && (r[|r| - 1] == '1' <==> b)
  {
    "-DSNMALLOC_" + name + "=" + (if b then "1" else "0")
  }

  /** The switches, in the order they are defined. */
  function Switches(s: Settings): (r: seq<bool>)
    ensures |r| == 10
  {
    var f := s.features;
    [f.cheriAlign, f.pagemapPointers, f.pagemapRederive, f.cheriBounds, f.quarantine,
     f.revoke, s.revokeDryRun, s.revokeParanoia, s.revokeThroughput, s.revokeVerbose]
  }

  const SwitchNames: seq<string> := ["CHERI_ALIGN", "PAGEMAP_POINTERS", "PAGEMAP_REDERIVE", "CHERI_SETBOUNDS",
    "QUARANTINE_DEALLOC", "REVOKE_QUARANTINE", "REVOKE_DRY_RUN", "REVOKE_PARANOIA", "REVOKE_THROUGHPUT",
    "QUARANTINE_CHATTY"]

  function SwitchFlags(s: Settings): (r: seq<string>)
    ensures |r| == 10
  {
    var v := Switches(s);
    seq(10, i requires 0 <= i < 10 => Bit(SwitchNames[i], v[i]))
  }

  function IntFlag(prefix: string, v: Option<int>): (r: seq<string>)
    ensures |r| == if v.Some? then 1 else 0
  {
    if v.Some? then [prefix + IntToString(v.value)] else []
  }

  /** The definitions an instance adds to its compiler flags: one per
      switch, the zeroing policy, then the decommit strategy and the
      quarantine thresholds that are set, and "-DNDEBUG" unless debugging. */
  function SnFlags(s: Settings): (r: seq<string>)
  {
    SwitchFlags(s) + [ZeroFlag(s.zero)] + TailFlags(s)
  }

  function ZeroFlag(zero: bool): string {
    "-DSNMALLOC_DEFAULT_ZERO=" + (if zero then "ZeroMem::YesZero" else "ZeroMem::NoZero")
  }

  /** The definitions after the zeroing policy. */
  function TailFlags(s: Settings): (r: seq<string>)
  {
    (if s.decommit.Some? then ["-DUSE_DECOMMIT_STRATEGY=" + s.decommit.value] else []) +
    IntFlag("-DSNMALLOC_QUARANTINE_PER_ALLOC_THRESHOLD=", s.qpathresh) +
    IntFlag("-DSNMALLOC_QUARANTINE_PER_ALLOC_CHUNK_THRESHOLD=", s.qpacthresh) +
    IntFlag("-DSNMALLOC_QUARANTINE_CHUNK_SIZECLASS=", s.qcsc) +
    (if s.debug then [] else ["-DNDEBUG"])
  }

  /** Each of the first ten definitions reads back as its switch's value:
      it ends in "1" exactly when the switch is on. */
  lemma SwitchesReadBack(s: Settings)
    ensures |SnFlags(s)| >= 11
    ensures forall i :: 0 <= i < 10 ==>
      var f := SnFlags(s)[i]; |f| > 0 && (f[|f| - 1] == '1' <==> Switches(s)[i])
  {
    var f := SnFlags(s);
    forall i | 0 <= i < 10
      ensures |f[i]| > 0 && (f[i][|f[i]| - 1] == '1' <==> Switches(s)[i])
    {
      assert f[i] == SwitchFlags(s)[i];
    }
  }

  /** One definition per optional setting that is given, and "-DNDEBUG"
      last exactly when debugging is off. */
  lemma OptionalFlags(s: Settings)
    ensures var f := SnFlags(s);
      |f| == 11 + (if s.decommit.Some? then 1 else 0) + (if s.qpathresh.Some? then 1 else 0) +
        (if s.qpacthresh.Some? then 1 else 0) + (if s.qcsc.Some? then 1 else 0) + (if s.debug then 0 else 1) &&
      (!s.debug ==> f[|f| - 1] == "-DNDEBUG")
  {
    var t := TailFlags(s);
    assert !s.debug ==> t[|t| - 1] == "-DNDEBUG";
  }

  /** With revocation asked for, the five features it needs are defined as on. */
  lemma RevokeDefinesAll(s: Settings)
    requires s.features.revoke
    ensures var f := SnFlags(s.(features := Implied(s.features)));
      f[0] == Bit("CHERI_ALIGN", true) && f[1] == Bit("PAGEMAP_POINTERS", true) &&
      f[2] == Bit("PAGEMAP_REDERIVE", true) && f[3] == Bit("CHERI_SETBOUNDS", true) &&
      f[4] == Bit("QUARANTINE_DEALLOC", true) && f[5] == Bit("REVOKE_QUARANTINE", true)
  {
    var t := s.(features := Implied(s.features));
    var f := SnFlags(t);
    assert f[..10] == SwitchFlags(t);
  }

  /** An snmalloc project: its options after the constructor, the common
      compiler flags it extends and the CMake project it configures. */
  class SnMalloc {
    var settings: Settings
    var commonFlags: seq<string>
    const cmake: Projects.CMakeProject

    /** The constructor: settle the option chain, pass revocation and
        statistics to CMake, and append the definitions. */
    constructor(given: Settings, commonFlags: seq<string>, cmake: Projects.CMakeProject)
      modifies cmake
      ensures settings == given.(features := Implied(given.features)) && this.cmake == cmake
      ensures this.commonFlags == commonFlags + SnFlags(settings)
      ensures cmake.configureArgs == old(cmake.configureArgs) +
        PB.CMakeFlags(Projects.DefaultsKept(cmake.cmakeOptions, [("USE_REVOCATION", PB.Flag(given.features.revoke))])) +
        PB.CMakeFlags(Projects.DefaultsKept(cmake.cmakeOptions, [("USE_SNMALLOC_STATS", PB.Flag(given.stats))]))
    {
      settings := given;
      this.commonFlags := commonFlags;
      this.cmake := cmake;
      new;
      Settle();
      ghost var args0 := cmake.configureArgs;
      cmake.AddCMakeOptions([("USE_REVOCATION", PB.Flag(settings.features.revoke))]);
      ghost var args1 := cmake.configureArgs;
      cmake.AddCMakeOptions([("USE_SNMALLOC_STATS", PB.Flag(settings.stats))]);
      assert cmake.configureArgs == args1 + PB.CMakeFlags(Projects.DefaultsKept(cmake.cmakeOptions, [("USE_SNMALLOC_STATS", PB.Flag(given.stats))]));
      AppendFlags();
    }

    /** Switch on what the switched-on features need (the constructor's
        three checks, in the source's order). */
    method Settle()
      modifies this`settings
      ensures settings == old(settings).(features := Implied(old(settings).features))
    {
      var f := settings.features;
      if f.revoke {
        f := f.(quarantine := true, cheriBounds := true, pagemapRederive := true);
      }
      if f.cheriBounds {
        f := f.(pagemapRederive := true, cheriAlign := true);
      }
      if f.pagemapRederive {
        f := f.(pagemapPointers := true);
      }
      settings := settings.(features := f);
    }

    /** Append the definitions for the current options. */
    method AppendFlags()
      modifies this`commonFlags
      ensures commonFlags == old(commonFlags) + SnFlags(settings)
    {
      var s := settings;
      var defs: seq<string> := [];
      var i := 0;
      while i < 10
        invariant 0 <= i <= 10
        invariant defs == SwitchFlags(s)[..i]
      {
        defs := defs + [Bit(SwitchNames[i], Switches(s)[i])];
        i := i + 1;
      }
      assert defs == SwitchFlags(s);
      defs := defs + [ZeroFlag(s.zero)];
      var tail: seq<string> := [];
      if s.decommit.Some? {
        tail := ["-DUSE_DECOMMIT_STRATEGY=" + s.decommit.value];
      }
      tail := tail + IntFlag("-DSNMALLOC_QUARANTINE_PER_ALLOC_THRESHOLD=", s.qpathresh);
      tail := tail + IntFlag("-DSNMALLOC_QUARANTINE_PER_ALLOC_CHUNK_THRESHOLD=", s.qpacthresh);
      tail := tail + IntFlag("-DSNMALLOC_QUARANTINE_CHUNK_SIZECLASS=", s.qcsc);
      if !s.debug {
        tail := tail + ["-DNDEBUG"];
      }
      assert tail == TailFlags(s);
      commonFlags := commonFlags + (defs + tail);
    }
  }
}
