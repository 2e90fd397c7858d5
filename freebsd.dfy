/** The FreeBSD build steps shared by the CheriBSD projects: the kernel
    configuration name, the make-option bag `FreeBSDMakeOptions`, and the
    argument lists of `buildworld`, `buildkernel` and the one-off
    `kernel-toolchain` step. */
module FreeBSD {

  import opened Wrappers
  import opened Strs
  import opened Paths
  import opened OrderedMaps
  import TI = TargetInfo
  import CX = CrossCheriBSD
  import Projects
  import CheriConfigs

  // ---------------------------------------------------------------------
  // Kernel configuration

  /** `defaultKernelConfig`: the MALTA64 kernel with 128-bit capabilities
      and a pure-capability kernel marked in its name. */
  function DefaultKernelConfig(cheriBits: nat, purecapKernel: bool): string {
    "CHERI" + (if cheriBits == 128 then "128" else "") + (if purecapKernel then "_PURECAP" else "") + "_MALTA64"
  }

  /** Every name is a CHERI MALTA64 configuration, and the name records both
      choices: two names agree exactly when the 128-bit choice and the
      kernel ABI agree. */
  lemma KernelConfigNames(b1: nat, p1: bool, b2: nat, p2: bool)
    ensures StartsWith(DefaultKernelConfig(b1, p1), "CHERI")
    ensures EndsWith(DefaultKernelConfig(b1, p1), "_MALTA64")
    ensures DefaultKernelConfig(b1, p1) == DefaultKernelConfig(b2, p2) <==> ((b1 == 128 <==> b2 == 128) && p1 == p2)
  {
    var r1, r2 := DefaultKernelConfig(b1, p1), DefaultKernelConfig(b2, p2);
    assert r1[..5] == "CHERI";
    assert r1[|r1| - 8..] == "_MALTA64";
    assert |r1| == 13 + (if b1 == 128 then 3 else 0) + (if p1 then 8 else 0);
    assert |r2| == 13 + (if b2 == 128 then 3 else 0) + (if p2 then 8 else 0);
  }

  /** The newer per-architecture `default_kernel_config` gives the same name
      for a pure-capability MIPS target. */
  lemma SameAsCrossConfig(t: TI.Target, cheriBits: nat, purecapKernel: bool)
    requires t.purecap && t.arch == Some(TI.MIPS64)
    ensures CX.DefaultKernelConfig(t, cheriBits, purecapKernel) == Ok(DefaultKernelConfig(cheriBits, purecapKernel))
  {
    assert TI.IsCheriPurecap(t, Some([TI.MIPS64]));
  }

  // ---------------------------------------------------------------------
  // Make options

  /** The value of a keyword argument to `add`: a boolean, `None` or a
      string, or a value of any other type. */
  datatype MakeValue = Boolean(b: bool) | Text(s: Option<string>) | Unsupported

  /** "-DWITH_K" or "-DWITHOUT_K". */
  function WithFlag(k: string, v: bool): string {
    (if v then "-DWITH_" else "-DWITHOUT_") + k
  }

  /** "-DK" for a variable set to `None`, "K=V" otherwise. */
  function VarFlag(k: string, v: Option<string>): string {
    if v.None? then "-D" + k else k + "=" + v.value
  }

  /** A with-option flag names its option and its setting, so two flags
      agree exactly when both agree. */
  lemma WithFlagReadsBack(k1: string, v1: bool, k2: string, v2: bool)
    ensures WithFlag(k1, v1) == WithFlag(k2, v2) <==> k1 == k2 && v1 == v2
  {
    var f1, f2 := WithFlag(k1, v1), WithFlag(k2, v2);
    if f1 == f2 {
      assert f1[6] == (if v1 then '_' else 'O');
      assert f2[6] == (if v2 then '_' else 'O');
      var n := if v1 then 7 else 10;
      assert f1[n..] == k1;
      assert f2[n..] == k2;
    }
  }

  /** A variable with a value is read back from its flag: the name is
      everything before the first "=", the value everything after it. */
  lemma VarFlagReadsBack(k: string, v: string)
    requires '=' !in k
    ensures Find(VarFlag(k, Some(v)), '=') == |k|
    ensures VarFlag(k, Some(v))[..|k|] == k && VarFlag(k, Some(v))[|k| + 1..] == v
  {
    assert VarFlag(k, Some(v)) == k + ("=" + v);
    FindAfter(k, "=" + v, '=');
  }

  /** The with-option flags of the options `keys`, in order. */
  function WithFlags(keys: seq<string>, options: map<string, bool>): (r: seq<string>)
    requires forall k <- keys :: k in options
    ensures |r| == |keys|
    decreases |keys|
  {
    if |keys| == 0 then []
    else
      var last := keys[|keys| - 1];
      WithFlags(keys[..|keys| - 1], options) + [WithFlag(last, options[last])]
  }

  /** The variable flags of the variables `keys`, in order. */
  function VarFlags(keys: seq<string>, vars: map<string, Option<string>>): (r: seq<string>)
    requires forall k <- keys :: k in vars
    ensures |r| == |keys|
    decreases |keys|
  {
    if |keys| == 0 then []
    else
      var last := keys[|keys| - 1];
      VarFlags(keys[..|keys| - 1], vars) + [VarFlag(last, vars[last])]
  }

  /** `commandline_flags` of a bag of options. */
  function Flags(w: OrderedMap<bool>, c: OrderedMap<Option<string>>): seq<string>
    requires w.Valid() && c.Valid()
  {
    WithFlags(w.keys, w.values) + VarFlags(c.keys, c.values)
  }

  /** The flag of each option sits at the option's place. */
  lemma {:induction false} WithFlagsAt(keys: seq<string>, options: map<string, bool>, i: int)
    requires forall k <- keys :: k in options
    requires 0 <= i < |keys|
    ensures WithFlags(keys, options)[i] == WithFlag(keys[i], options[keys[i]])
    decreases |keys|
  {
    if i < |keys| - 1 {
      WithFlagsAt(keys[..|keys| - 1], options, i);
    }
  }

  /** The flag of each variable sits at the variable's place. */
  lemma {:induction false} VarFlagsAt(keys: seq<string>, vars: map<string, Option<string>>, i: int)
    requires forall k <- keys :: k in vars
    requires 0 <= i < |keys|
    ensures VarFlags(keys, vars)[i] == VarFlag(keys[i], vars[keys[i]])
    decreases |keys|
  {
    if i < |keys| - 1 {
      VarFlagsAt(keys[..|keys| - 1], vars, i);
    }
  }

  /** The with-option flags come first, one per option in insertion order. */
  lemma FlagsOptionsFirst(w: OrderedMap<bool>, c: OrderedMap<Option<string>>, i: int)
    requires w.Valid() && c.Valid() && 0 <= i < |w.keys|
    ensures |Flags(w, c)| == |w.keys| + |c.keys|
    ensures Flags(w, c)[i] == WithFlag(w.keys[i], w.values[w.keys[i]])
    ensures StartsWith(Flags(w, c)[i], "-DWITH")
  {
    WithFlagsAt(w.keys, w.values, i);
  }

  /** The variable flags follow, one per variable in insertion order. */
  lemma FlagsVarsAfter(w: OrderedMap<bool>, c: OrderedMap<Option<string>>, j: int)
    requires w.Valid() && c.Valid() && 0 <= j < |c.keys|
    ensures |Flags(w, c)| == |w.keys| + |c.keys|
    ensures Flags(w, c)[|w.keys| + j] == VarFlag(c.keys[j], c.values[c.keys[j]])
  {
    VarFlagsAt(c.keys, c.values, j);
  }

  /** Every stored variable is passed. */
  lemma FlagsHaveVar(w: OrderedMap<bool>, c: OrderedMap<Option<string>>, k: string)
    requires w.Valid() && c.Valid() && k in c.values
    ensures VarFlag(k, c.values[k]) in Flags(w, c)
  {
    var j :| 0 <= j < |c.keys| && c.keys[j] == k;
    FlagsVarsAfter(w, c, j);
  }

  /** Every stored option is passed. */
  lemma FlagsHaveOption(w: OrderedMap<bool>, c: OrderedMap<Option<string>>, k: string)
    requires w.Valid() && c.Valid() && k in w.values
    ensures WithFlag(k, w.values[k]) in Flags(w, c)
  {
    var i :| 0 <= i < |w.keys| && w.keys[i] == k;
    FlagsOptionsFirst(w, c, i);
  }

  /** The number of leading keyword arguments `add` stores before it meets a
      value that is neither a boolean nor `None` nor a string, at which its
      assertion fails. */
  function Accepted(kwargs: seq<(string, MakeValue)>): (r: nat)
    ensures r <= |kwargs|
    decreases |kwargs|
  {
    if |kwargs| == 0 || kwargs[0].1.Unsupported? then 0
    else 1 + Accepted(kwargs[1..])
  }

  /** Up to the accepted prefix, a value is unsupported exactly at the
      position `Accepted` names. */
  lemma {:induction false} AcceptedStops(kwargs: seq<(string, MakeValue)>, j: int)
    requires 0 <= j <= Accepted(kwargs) && j < |kwargs|
    ensures kwargs[j].1.Unsupported? <==> j == Accepted(kwargs)
    decreases |kwargs|
  {
    if j > 0 {
      assert kwargs[1..][j - 1] == kwargs[j];
      AcceptedStops(kwargs[1..], j - 1);
    }
  }

  /** The boolean keyword arguments, in order. */
  function BoolItems(kwargs: seq<(string, MakeValue)>): (r: seq<(string, bool)>)
    ensures |r| <= |kwargs|
    decreases |kwargs|
  {
    if |kwargs| == 0 then []
    else
      var init, last := kwargs[..|kwargs| - 1], kwargs[|kwargs| - 1];
      BoolItems(init) + (if last.1.Boolean? then [(last.0, last.1.b)] else [])
  }

  /** The `None` and string keyword arguments, in order. */
  function VarItems(kwargs: seq<(string, MakeValue)>): (r: seq<(string, Option<string>)>)
    ensures |r| <= |kwargs|
    decreases |kwargs|
  {
    if |kwargs| == 0 then []
    else
      var init, last := kwargs[..|kwargs| - 1], kwargs[|kwargs| - 1];
      VarItems(init) + (if last.1.Text? then [(last.0, last.1.s)] else [])
  }

  /** Every option comes from a boolean keyword argument and every
      variable from a `None` or string one. */
  lemma {:induction false} ItemsFrom(kwargs: seq<(string, MakeValue)>)
    ensures forall p <- BoolItems(kwargs) :: (p.0, Boolean(p.1)) in kwargs
    ensures forall p <- VarItems(kwargs) :: (p.0, Text(p.1)) in kwargs
    decreases |kwargs|
  {
    if |kwargs| > 0 {
      var init := kwargs[..|kwargs| - 1];
      ItemsFrom(init);
      assert forall x <- init :: x in kwargs;
    }
  }

  /** Each accepted keyword argument goes to exactly one of the two places. */
  lemma {:induction false} ItemsPartition(kwargs: seq<(string, MakeValue)>)
    requires Accepted(kwargs) == |kwargs|
    ensures |BoolItems(kwargs)| + |VarItems(kwargs)| == |kwargs|
    decreases |kwargs|
  {
    if |kwargs| > 0 {
      var init := kwargs[..|kwargs| - 1];
      AcceptedStops(kwargs, |kwargs| - 1);
      forall j | 0 <= j < |init| ensures !init[j].1.Unsupported? {
        AcceptedStops(kwargs, j);
        assert init[j] == kwargs[j];
      }
      AcceptedAll(init);
      ItemsPartition(init);
    }
  }

  /** A list without unsupported values is accepted whole. */
  lemma {:induction false} AcceptedAll(kwargs: seq<(string, MakeValue)>)
    requires forall j :: 0 <= j < |kwargs| ==> !kwargs[j].1.Unsupported?
    ensures Accepted(kwargs) == |kwargs|
    decreases |kwargs|
  {
    if |kwargs| > 0 {
      forall j | 0 <= j < |kwargs| - 1 ensures !kwargs[1..][j].1.Unsupported? {
        assert kwargs[1..][j] == kwargs[j + 1];
      }
      AcceptedAll(kwargs[1..]);
    }
  }

  /** Keyword arguments that are all booleans all become options. */
  lemma {:induction false} AllOptions(kwargs: seq<(string, MakeValue)>)
    requires forall j :: 0 <= j < |kwargs| ==> kwargs[j].1.Boolean?
    ensures Accepted(kwargs) == |kwargs| && VarItems(kwargs) == []
    ensures |BoolItems(kwargs)| == |kwargs|
    ensures forall j :: 0 <= j < |kwargs| ==> BoolItems(kwargs)[j] == (kwargs[j].0, kwargs[j].1.b)
    decreases |kwargs|
  {
    AcceptedAll(kwargs);
    if |kwargs| > 0 {
      var init := kwargs[..|kwargs| - 1];
      AllOptions(init);
    }
  }

  /** Keyword arguments that are all `None` or strings all become variables. */
  lemma {:induction false} AllVariables(kwargs: seq<(string, MakeValue)>)
    requires forall j :: 0 <= j < |kwargs| ==> kwargs[j].1.Text?
    ensures Accepted(kwargs) == |kwargs| && BoolItems(kwargs) == []
    ensures |VarItems(kwargs)| == |kwargs|
    ensures forall j :: 0 <= j < |kwargs| ==> VarItems(kwargs)[j] == (kwargs[j].0, kwargs[j].1.s)
    decreases |kwargs|
  {
    AcceptedAll(kwargs);
    if |kwargs| > 0 {
      var init := kwargs[..|kwargs| - 1];
      AllVariables(init);
    }
  }

  /** Putting one more entry after a list of entries. */
  lemma PutAllSnoc<V>(d: OrderedMap<V>, items: seq<(string, V)>, k: string, v: V)
    requires d.Valid()
    ensures PutAll(d, items + [(k, v)]) == PutAll(d, items).Put(k, v)
  {
    assert (items + [(k, v)])[..|items|] == items;
  }

  /** One more keyword argument routed. */
  lemma RouteStep(kwargs: seq<(string, MakeValue)>, i: int)
    requires 0 <= i < |kwargs|
    ensures BoolItems(kwargs[..i + 1]) ==
      BoolItems(kwargs[..i]) + (if kwargs[i].1.Boolean? then [(kwargs[i].0, kwargs[i].1.b)] else [])
    ensures VarItems(kwargs[..i + 1]) ==
      VarItems(kwargs[..i]) + (if kwargs[i].1.Text? then [(kwargs[i].0, kwargs[i].1.s)] else [])
  {
    assert kwargs[..i + 1][..i] == kwargs[..i];
  }

  /** Routing one more keyword argument puts it into the map its kind
      selects and leaves the other map as it was. */
  lemma RouteNext(w0: OrderedMap<bool>, c0: OrderedMap<Option<string>>,
                  kwargs: seq<(string, MakeValue)>, i: int)
    requires 0 <= i < |kwargs| && w0.Valid() && c0.Valid()
    ensures kwargs[i].1.Boolean? ==>
      PutAll(w0, BoolItems(kwargs[..i + 1])) == PutAll(w0, BoolItems(kwargs[..i])).Put(kwargs[i].0, kwargs[i].1.b) &&
      PutAll(c0, VarItems(kwargs[..i + 1])) == PutAll(c0, VarItems(kwargs[..i]))
    ensures kwargs[i].1.Text? ==>
      PutAll(c0, VarItems(kwargs[..i + 1])) == PutAll(c0, VarItems(kwargs[..i])).Put(kwargs[i].0, kwargs[i].1.s) &&
      PutAll(w0, BoolItems(kwargs[..i + 1])) == PutAll(w0, BoolItems(kwargs[..i]))
  {
    RouteStep(kwargs, i);
    if kwargs[i].1.Boolean? {
      PutAllSnoc(w0, BoolItems(kwargs[..i]), kwargs[i].0, kwargs[i].1.b);
      assert VarItems(kwargs[..i + 1]) == VarItems(kwargs[..i]);
    } else if kwargs[i].1.Text? {
      PutAllSnoc(c0, VarItems(kwargs[..i]), kwargs[i].0, kwargs[i].1.s);
      assert BoolItems(kwargs[..i + 1]) == BoolItems(kwargs[..i]);
    }
  }

  /** The loop of `add`: each keyword argument goes into the option map
      or the variable map according to its kind, until the first one of
      neither kind, whose assertion stops the loop. */
  method Route(w0: OrderedMap<bool>, c0: OrderedMap<Option<string>>,
               kwargs: seq<(string, MakeValue)>)
    returns (w: OrderedMap<bool>, c: OrderedMap<Option<string>>, n: nat)
    requires w0.Valid() && c0.Valid()
    ensures n == Accepted(kwargs)
    ensures w == PutAll(w0, BoolItems(kwargs[..n])) && w.Valid()
    ensures c == PutAll(c0, VarItems(kwargs[..n])) && c.Valid()
  {
    w, c, n := w0, c0, 0;
    while n < |kwargs| && !kwargs[n].1.Unsupported?
      invariant n <= Accepted(kwargs)
      invariant w == PutAll(w0, BoolItems(kwargs[..n])) && w.Valid()
      invariant c == PutAll(c0, VarItems(kwargs[..n])) && c.Valid()
    {
      AcceptedStops(kwargs, n);
      RouteNext(w0, c0, kwargs, n);
      match kwargs[n].1 {
        case Boolean(b) => w := w.Put(kwargs[n].0, b);
        case Text(v) => c := c.Put(kwargs[n].0, v);
      }
      n := n + 1;
    }
    if n < |kwargs| {
      AcceptedStops(kwargs, n);
    }
  }

  /** `FreeBSDMakeOptions`: command-line variables and WITH_/WITHOUT_
      options, both kept in insertion order, and environment variables. */
  class FreeBSDMakeOptions {
    var cmdlineVars: OrderedMap<Option<string>>
    var withOptions: OrderedMap<bool>
    var envVars: map<string, string>

    ghost predicate Valid()
      reads this
    {
      cmdlineVars.Valid() && withOptions.Valid()
    }

    /** An empty bag of options. */
    constructor()
      ensures Valid() && cmdlineVars == Empty() && withOptions == Empty() && envVars == map[]
    {
      cmdlineVars := Empty();
      withOptions := Empty();
      envVars := map[];
    }

    /** `add`: booleans become options and `None`/strings variables, in
        argument order; a value of another type stops it (the assertion
        fails) after the arguments before it were stored. */
    method Add(kwargs: seq<(string, MakeValue)>) returns (ok: bool)
      requires Valid()
      modifies this
      ensures Valid() && envVars == old(envVars)
      ensures ok <==> Accepted(kwargs) == |kwargs|
      ensures withOptions == PutAll(old(withOptions), BoolItems(kwargs[..Accepted(kwargs)]))
      ensures cmdlineVars == PutAll(old(cmdlineVars), VarItems(kwargs[..Accepted(kwargs)]))
    {
      var w, c, n := Route(withOptions, cmdlineVars, kwargs);
      withOptions := w;
      cmdlineVars := c;
      ok := n == |kwargs|;
    }

    /** `commandline_flags`: the option flags, then the variable flags. */
    method CommandlineFlags() returns (r: seq<string>)
      requires Valid()
      ensures r == Flags(withOptions, cmdlineVars)
    {
      var w := withOptions;
      r := [];
      var i := 0;
      while i < |w.keys|
        invariant 0 <= i <= |w.keys|
        invariant r == WithFlags(w.keys[..i], w.values)
      {
        assert w.keys[..i + 1][..i] == w.keys[..i];
        r := r + [WithFlag(w.keys[i], w.values[w.keys[i]])];
        i := i + 1;
      }
      assert w.keys[..i] == w.keys;
      var c := cmdlineVars;
      var vs: seq<string> := [];
      var j := 0;
      while j < |c.keys|
        invariant 0 <= j <= |c.keys|
        invariant vs == VarFlags(c.keys[..j], c.values)
      {
        assert c.keys[..j + 1][..j] == c.keys[..j];
        vs := vs + [VarFlag(c.keys[j], c.values[c.keys[j]])];
        j := j + 1;
      }
      assert c.keys[..j] == c.keys;
      r := r + vs;
    }

    /** `copy.deepcopy`: a fresh bag with the same contents. */
    method Copy() returns (c: FreeBSDMakeOptions)
      requires Valid()
      ensures fresh(c) && c.Valid()
      ensures c.cmdlineVars == cmdlineVars && c.withOptions == withOptions && c.envVars == envVars
    {
      c := new FreeBSDMakeOptions();
      c.cmdlineVars := cmdlineVars;
      c.withOptions := withOptions;
      c.envVars := envVars;
    }
  }

  // ---------------------------------------------------------------------
  // Kernel arguments

  const AutoObj := "-DWITH_AUTO_OBJ"

  /** `jflag`: the `-j` flag only when more than one job runs. */
  function JFlag(makeJobs: nat): (r: seq<string>)
    ensures r == [] <==> makeJobs <= 1
    ensures |r| <= 1
  {
    if makeJobs > 1 then [CheriConfigs.MakeJFlag(makeJobs)] else []
  }

  /** A `-j` flag that is passed names its job count. */
  lemma JFlagNamesJobs(a: nat, b: nat)
    requires JFlag(a) != [] && JFlag(a) == JFlag(b)
    ensures a == b
  {
    CheriConfigs.JFlagReadsBack(a, b);
  }

  /** The prefix of the external toolchain's tools for the kernel. */
  function KernelToolPrefix(native: bool, sdkBinDir: string, mipsToolchainPath: string): string {
    if native then sdkBinDir + "/" else PathJoin(mipsToolchainPath, "bin/mips64-unknown-freebsd-")
  }

  /** The kernel linker and its `-fuse-ld` flag: LLD from the toolchain, or
      BFD, which is taken from the toolchain only when crossbuilding. */
  function KernelLinker(prefix: string, lld: bool, crossbuild: bool): (r: (string, string))
    ensures r.1 == "-fuse-ld=lld" <==> lld
    ensures lld || crossbuild ==> StartsWith(r.0, prefix)
    ensures !lld && !crossbuild ==> r.0 == "ld.bfd"
  {
    if lld then (prefix + "ld.lld", "-fuse-ld=lld")
    else (if crossbuild then prefix + "ld.bfd" else "ld.bfd", "-fuse-ld=bfd")
  }

  /** The linker settings added to the copy of the cross-toolchain options. */
  function LinkerSettings(linker: string, fuse: string): seq<(string, MakeValue)> {
    [("LD", Text(Some(linker))), ("XLD", Text(Some(linker))), ("LDFLAGS", Text(Some(fuse))),
     ("HACK_LDFLAGS", Text(Some(fuse))), ("TRAMP_LDFLAGS", Text(Some(fuse)))]
  }

  /** All linker settings are variables. */
  lemma LinkerSettingsRouted(linker: string, fuse: string)
    ensures Accepted(LinkerSettings(linker, fuse)) == 5
    ensures BoolItems(LinkerSettings(linker, fuse)) == []
  {
    AllVariables(LinkerSettings(linker, fuse));
  }

  /** The flags of the kernel's toolchain options: the cross-toolchain
      options with the linker settings put on top. */
  function KernelToolchainFlags(w: OrderedMap<bool>, c: OrderedMap<Option<string>>, linker: string, fuse: string): seq<string>
    requires w.Valid() && c.Valid()
  {
    Flags(w, PutAll(c, VarItems(LinkerSettings(linker, fuse))))
  }

  /** The kernel is linked with the chosen linker and `-fuse-ld` flag. */
  lemma KernelToolchainLinks(w: OrderedMap<bool>, c: OrderedMap<Option<string>>, linker: string, fuse: string)
    requires w.Valid() && c.Valid()
    ensures "LD=" + linker in KernelToolchainFlags(w, c, linker, fuse)
    ensures "LDFLAGS=" + fuse in KernelToolchainFlags(w, c, linker, fuse)
  {
    var items := VarItems(LinkerSettings(linker, fuse));
    LinkerItems(linker, fuse);
    PutVarFlag(w, c, items, "LD", Some(linker));
    PutVarFlag(w, c, items, "LDFLAGS", Some(fuse));
    assert VarFlag("LD", Some(linker)) == "LD=" + linker by {
      assert "LD" + "=" == "LD=";
    }
    assert VarFlag("LDFLAGS", Some(fuse)) == "LDFLAGS=" + fuse by {
      assert "LDFLAGS" + "=" == "LDFLAGS=";
    }
  }

  /** A variable that entries put last set is passed with that value. */
  lemma PutVarFlag(w: OrderedMap<bool>, c: OrderedMap<Option<string>>, items: seq<(string, Option<string>)>,
                   k: string, v: Option<string>)
    requires w.Valid() && c.Valid()
    requires k in AsMap(items) && AsMap(items)[k] == v
    ensures VarFlag(k, v) in Flags(w, PutAll(c, items))
  {
    PutAllValues(c, items);
    FlagsHaveVar(w, PutAll(c, items), k);
  }

  /** The linker settings map LD to the linker and LDFLAGS to the flag. */
  lemma LinkerItems(linker: string, fuse: string)
    ensures var m := AsMap(VarItems(LinkerSettings(linker, fuse)));
      "LD" in m && m["LD"] == Some(linker) && "LDFLAGS" in m && m["LDFLAGS"] == Some(fuse)
  {
    var items := VarItems(LinkerSettings(linker, fuse));
    AllVariables(LinkerSettings(linker, fuse));
    assert |items| == 5;
    assert items[0] == ("LD", Some(linker)) && items[1].0 == "XLD";
    assert items[2] == ("LDFLAGS", Some(fuse)) && items[3].0 == "HACK_LDFLAGS";
    assert items[4].0 == "TRAMP_LDFLAGS";
    AsMapOfFive(items);
  }

  /** In five entries whose first and third keys are not repeated later, the
      mapping keeps the first and third values. */
  lemma AsMapOfFive<V>(items: seq<(string, V)>)
    requires |items| == 5
    requires items[0].0 != items[1].0 && items[0].0 != items[2].0 && items[0].0 != items[3].0 && items[0].0 != items[4].0
    requires items[2].0 != items[3].0 && items[2].0 != items[4].0
    ensures items[0].0 in AsMap(items) && AsMap(items)[items[0].0] == items[0].1
    ensures items[2].0 in AsMap(items) && AsMap(items)[items[2].0] == items[2].1
  {
    AsMapLast(items, 0);
    AsMapLast(items, 2);
  }

  /** Every argument that does not start with "DEBUG", in order. */
  function Undebugged(args: seq<string>): (r: seq<string>)
    ensures |r| <= |args|
    decreases |args|
  {
    if |args| == 0 then []
    else
      var rest := Undebugged(args[1..]);
      if StartsWith(args[0], "DEBUG") then rest else [args[0]] + rest
  }

  /** The filter keeps exactly the arguments that do not start with "DEBUG". */
  lemma {:induction false} UndebuggedKeeps(args: seq<string>)
    ensures forall x <- Undebugged(args) :: x in args && !StartsWith(x, "DEBUG")
    ensures forall x <- args :: !StartsWith(x, "DEBUG") ==> x in Undebugged(args)
    decreases |args|
  {
    if |args| > 0 {
      UndebuggedKeeps(args[1..]);
      assert forall x <- args[1..] :: x in args;
      assert forall x <- args :: x == args[0] || x in args[1..];
    }
  }

  /** The arguments `kernelMakeArgsForConfig` computes from the make flags
      and, when the external toolchain builds the kernel, its flags. */
  function KernelArgs(makeFlags: seq<string>, toolchain: Option<seq<string>>, crossbuild: bool, kernconf: string)
    : (r: seq<string>)
    ensures crossbuild ==> |r| >= 2 && r[|r| - 2] == "-DINSTALL_NODEBUG"
    ensures !crossbuild && toolchain.None? ==> |r| == |makeFlags| + (if AutoObj in makeFlags then 0 else 1)
  {
    var a := RemoveFirst(makeFlags, AutoObj);
    var b := if toolchain.Some? then a + toolchain.value else a;
    var c := if crossbuild then Undebugged(b + ["-DWITHOUT_KERNEL_TRAMPOLINE"]) + ["-DINSTALL_NODEBUG"] else b;
    c + ["KERNCONF=" + kernconf]
  }

  /** The kernel arguments end with the configuration, and a crossbuild
      passes no "DEBUG" argument but does pass "-DINSTALL_NODEBUG". */
  lemma KernelArgsShape(makeFlags: seq<string>, toolchain: Option<seq<string>>, crossbuild: bool, kernconf: string)
    ensures var r := KernelArgs(makeFlags, toolchain, crossbuild, kernconf);
      |r| > 0 && r[|r| - 1] == "KERNCONF=" + kernconf
    ensures var r := KernelArgs(makeFlags, toolchain, crossbuild, kernconf);
      crossbuild ==> (forall x <- r :: !StartsWith(x, "DEBUG")) && "-DINSTALL_NODEBUG" in r
  {
    var r := KernelArgs(makeFlags, toolchain, crossbuild, kernconf);
    if crossbuild {
      var a := RemoveFirst(makeFlags, AutoObj);
      var b := if toolchain.Some? then a + toolchain.value else a;
      UndebuggedKeeps(b + ["-DWITHOUT_KERNEL_TRAMPOLINE"]);
      assert !StartsWith("-DINSTALL_NODEBUG", "DEBUG") by {
        assert "-DINSTALL_NODEBUG"[0] == '-';
      }
      assert !StartsWith("KERNCONF=" + kernconf, "DEBUG") by {
        assert ("KERNCONF=" + kernconf)[0] == 'K';
      }
      assert r[|r| - 2] == "-DINSTALL_NODEBUG";
    }
  }

  /** Outside a crossbuild, the first "-DWITH_AUTO_OBJ" of the make flags is
      taken out and the rest kept in order in front. */
  lemma KernelArgsDropAutoObj(a: seq<string>, b: seq<string>, toolchain: Option<seq<string>>, kernconf: string)
    requires AutoObj !in a
    ensures |a + b| <= |KernelArgs(a + [AutoObj] + b, toolchain, false, kernconf)|
    ensures KernelArgs(a + [AutoObj] + b, toolchain, false, kernconf)[..|a + b|] == a + b
  {
    RemoveFirstAt(a, AutoObj, b);
  }

  // ---------------------------------------------------------------------
  // The FreeBSD build project

  /** One `runMake` call: its arguments, make target and environment. */
  datatype MakeRun = MakeRun(args: seq<string>, target: string, env: map<string, string>)

  /** How many runs built the kernel toolchain. */
  function ToolchainRuns(runs: seq<MakeRun>): (r: nat)
    ensures r <= |runs|
    decreases |runs|
  {
    if |runs| == 0 then 0
    else ToolchainRuns(runs[..|runs| - 1]) + (if runs[|runs| - 1].target == "kernel-toolchain" then 1 else 0)
  }

  /** Counting runs over two stretches of runs. */
  lemma {:induction false} ToolchainRunsAppend(a: seq<MakeRun>, b: seq<MakeRun>)
    ensures ToolchainRuns(a + b) == ToolchainRuns(a) + ToolchainRuns(b)
    decreases |b|
  {
    if |b| > 0 {
      var init := b[..|b| - 1];
      assert (a + b)[..|a + b| - 1] == a + init;
      ToolchainRunsAppend(a, init);
    } else {
      assert a + b == a;
    }
  }

  /** A buildkernel run does not count as a kernel-toolchain run. */
  lemma KernelRunCounted(runs: seq<MakeRun>, kernel: MakeRun)
    requires kernel.target == "buildkernel"
    ensures ToolchainRuns(runs + [kernel]) == ToolchainRuns(runs)
  {
    assert (runs + [kernel])[..|runs|] == runs;
  }

  /** The project's settings after `__init__` and the cross-toolchain setup:
      whether the target is the native one, the option values, the SDK's
      bin directory, the MIPS toolchain path, whether the external compiler
      exists, pretend mode and the job count. */
  datatype Settings = Settings(
    native: bool, autoObj: bool, externalWorld: bool, externalKernel: bool, linkKernelWithLLD: bool,
    crossbuild: bool, sdkBinDir: string, mipsToolchainPath: string, compilerExists: bool, pretend: bool,
    makeJobs: nat)
  {
    /** `fatalError` stops the build only outside pretend mode. */
    predicate MissingCompilerFatal(external: bool) {
      external && !compilerExists && !pretend
    }

    /** The kernel needs the GCC kernel toolchain unless it is crossbuilt or
        built and linked by the external toolchain with LLD. */
    predicate NeedsKernelToolchain() {
      !((externalKernel && linkKernelWithLLD) || crossbuild)
    }
  }

  /** The options the kernel-toolchain step's bag is created with. */
  const BootstrapsOff: seq<(string, MakeValue)> :=
    [("LLD_BOOTSTRAP", Boolean(false)), ("CLANG", Boolean(false)), ("CLANG_BOOTSTRAP", Boolean(false))]

  /** The option added next: GCC is bootstrapped when the external
      toolchain builds the kernel. */
  function GccBootstrap(useExternal: bool): seq<(string, MakeValue)> {
    [("GCC_BOOTSTRAP", Boolean(useExternal))]
  }

  /** The with-options of the kernel-toolchain step. */
  function ToolchainOptions(gccBootstrap: bool): (r: OrderedMap<bool>)
    ensures r.Valid()
  {
    PutAll(PutAll(Empty(), BoolItems(BootstrapsOff)), BoolItems(GccBootstrap(gccBootstrap)))
  }

  /** Three boolean keyword arguments are three options. */
  lemma ThreeOptions(a: (string, bool), b: (string, bool), c: (string, bool))
    ensures var kw := [(a.0, Boolean(a.1)), (b.0, Boolean(b.1)), (c.0, Boolean(c.1))];
      Accepted(kw) == 3 && VarItems(kw) == [] && BoolItems(kw) == [a, b, c]
  {
    var kw := [(a.0, Boolean(a.1)), (b.0, Boolean(b.1)), (c.0, Boolean(c.1))];
    RouteStep(kw, 0);
    RouteStep(kw, 1);
    RouteStep(kw, 2);
    assert kw[..0] == [] && kw[..3] == kw;
    AcceptedAll(kw);
  }

  /** One boolean keyword argument is one option. */
  lemma OneOption(a: (string, bool))
    ensures var kw := [(a.0, Boolean(a.1))];
      Accepted(kw) == 1 && VarItems(kw) == [] && BoolItems(kw) == [a]
  {
    var kw := [(a.0, Boolean(a.1))];
    assert kw[..0] == [];
  }

  /** Both keyword lists are all options. */
  lemma ToolchainKwargs(g: bool)
    ensures Accepted(BootstrapsOff) == 3 && VarItems(BootstrapsOff) == []
    ensures BoolItems(BootstrapsOff) == [("LLD_BOOTSTRAP", false), ("CLANG", false), ("CLANG_BOOTSTRAP", false)]
    ensures Accepted(GccBootstrap(g)) == 1 && VarItems(GccBootstrap(g)) == []
    ensures BoolItems(GccBootstrap(g)) == [("GCC_BOOTSTRAP", g)]
  {
    ThreeOptions(("LLD_BOOTSTRAP", false), ("CLANG", false), ("CLANG_BOOTSTRAP", false));
    OneOption(("GCC_BOOTSTRAP", g));
  }

  /** Three entries with different keys map each key to its value. */
  lemma AsMapOfThree<V>(a: (string, V), b: (string, V), c: (string, V))
    requires a.0 != b.0 && a.0 != c.0 && b.0 != c.0
    ensures var m := AsMap([a, b, c]);
      a.0 in m && m[a.0] == a.1 && b.0 in m && m[b.0] == b.1 && c.0 in m && m[c.0] == c.1
  {
    assert AsMap([a]) == map[a.0 := a.1] by {
      assert [a][..0] == [];
    }
    assert AsMap([a, b]) == AsMap([a])[b.0 := b.1] by {
      assert [a, b][..1] == [a];
    }
    assert AsMap([a, b, c]) == AsMap([a, b])[c.0 := c.1] by {
      assert [a, b, c][..2] == [a, b];
    }
  }

  /** The kernel-toolchain options switch LLD, Clang and the Clang bootstrap
      off and the GCC bootstrap to `g`. */
  lemma ToolchainOptionsValues(g: bool)
    ensures var m := ToolchainOptions(g).values;
      "LLD_BOOTSTRAP" in m && !m["LLD_BOOTSTRAP"] && "CLANG" in m && !m["CLANG"] &&
      "CLANG_BOOTSTRAP" in m && !m["CLANG_BOOTSTRAP"] && "GCC_BOOTSTRAP" in m && m["GCC_BOOTSTRAP"] == g
  {
    ToolchainKwargs(g);
    var off := [("LLD_BOOTSTRAP", false), ("CLANG", false), ("CLANG_BOOTSTRAP", false)];
    var d := PutAll(Empty(), off);
    PutAllValues(Empty(), off);
    PutAllValues(d, [("GCC_BOOTSTRAP", g)]);
    AsMapOfThree(off[0], off[1], off[2]);
    assert AsMap([("GCC_BOOTSTRAP", g)]) == map["GCC_BOOTSTRAP" := g] by {
      assert [("GCC_BOOTSTRAP", g)][..0] == [];
    }
  }

  /** The kernel-toolchain step passes the LLD, Clang and Clang-bootstrap
      options switched off and the GCC bootstrap switched on exactly when
      the external toolchain builds the kernel. */
  lemma ToolchainOptionsFlags(g: bool)
    ensures var f := Flags(ToolchainOptions(g), Empty());
      WithFlag("LLD_BOOTSTRAP", false) in f && WithFlag("CLANG", false) in f &&
      WithFlag("CLANG_BOOTSTRAP", false) in f && WithFlag("GCC_BOOTSTRAP", g) in f
  {
    var w := ToolchainOptions(g);
    ToolchainOptionsValues(g);
    FlagsHaveOption(w, Empty(), "LLD_BOOTSTRAP");
    FlagsHaveOption(w, Empty(), "CLANG");
    FlagsHaveOption(w, Empty(), "CLANG_BOOTSTRAP");
    FlagsHaveOption(w, Empty(), "GCC_BOOTSTRAP");
  }

  /** `FreeBSDMakeOptions(LLD_BOOTSTRAP=False, CLANG=False,
      CLANG_BOOTSTRAP=False)` with `GCC_BOOTSTRAP` added. */
  method ToolchainOptionsBag(g: bool) returns (opts: FreeBSDMakeOptions)
    ensures fresh(opts) && opts.Valid()
    ensures opts.withOptions == ToolchainOptions(g) && opts.cmdlineVars == Empty()
  {
    opts := new FreeBSDMakeOptions();
    ToolchainKwargs(g);
    assert BootstrapsOff[..3] == BootstrapsOff && GccBootstrap(g)[..1] == GccBootstrap(g);
    var _ := opts.Add(BootstrapsOff);
    var _ := opts.Add(GccBootstrap(g));
    assert PutAll(Empty<Option<string>>(), []) == Empty();
  }

  /** `_BuildFreeBSD`: the common make arguments and options, the
      cross-toolchain options, whether the kernel toolchain was built, and
      the make runs issued so far. */
  class BuildFreeBSD {
    const s: Settings
    const commonOptions: FreeBSDMakeOptions
    const crossToolchainConfig: FreeBSDMakeOptions
    const commonMakeArgs: seq<string>
    var kernelToolchainAlreadyBuilt: bool
    var runs: seq<MakeRun>

    /** The kernel toolchain is built once at most, and the flag records
        whether it was. */
    ghost predicate Valid()
      reads this, commonOptions, crossToolchainConfig
    {
      BagsValid() && ToolchainRuns(runs) == (if kernelToolchainAlreadyBuilt then 1 else 0)
    }

    /** Both bags of options are well formed. */
    ghost predicate BagsValid()
      reads commonOptions, crossToolchainConfig
    {
      commonOptions.Valid() && crossToolchainConfig.Valid()
    }

    constructor(s: Settings, commonMakeArgs: seq<string>, commonOptions: FreeBSDMakeOptions,
                crossToolchainConfig: FreeBSDMakeOptions)
      requires commonOptions.Valid() && crossToolchainConfig.Valid()
      ensures Valid() && this.s == s && this.commonMakeArgs == commonMakeArgs
      ensures this.commonOptions == commonOptions && this.crossToolchainConfig == crossToolchainConfig
      ensures !kernelToolchainAlreadyBuilt && runs == []
    {
      this.s := s;
      this.commonMakeArgs := commonMakeArgs;
      this.commonOptions := commonOptions;
      this.crossToolchainConfig := crossToolchainConfig;
      kernelToolchainAlreadyBuilt := false;
      runs := [];
    }

    /** The common make arguments, then the common options' flags. */
    function MakeFlags(): seq<string>
      reads commonOptions
      requires commonOptions.Valid()
    {
      commonMakeArgs + Flags(commonOptions.withOptions, commonOptions.cmdlineVars)
    }

    /** The cross-toolchain options' flags. */
    function CrossFlags(): seq<string>
      reads crossToolchainConfig
      requires crossToolchainConfig.Valid()
    {
      Flags(crossToolchainConfig.withOptions, crossToolchainConfig.cmdlineVars)
    }

    /** The kernel's linker and `-fuse-ld` flag. */
    function Linker(): (string, string) {
      KernelLinker(KernelToolPrefix(s.native, s.sdkBinDir, s.mipsToolchainPath), s.linkKernelWithLLD, s.crossbuild)
    }

    /** The flags of the external toolchain when it builds the kernel. */
    function KernelToolchain(): Option<seq<string>>
      reads crossToolchainConfig
      requires crossToolchainConfig.Valid()
    {
      if s.externalKernel then
        Some(KernelToolchainFlags(crossToolchainConfig.withOptions, crossToolchainConfig.cmdlineVars, Linker().0, Linker().1))
      else None
    }

    /** `make_cmdline_flags`: the common make arguments, then the common
        options' flags, in their insertion order. */
    method MakeCmdlineFlags() returns (r: seq<string>)
      requires Valid()
      ensures r == MakeFlags()
      ensures commonMakeArgs <= r
    {
      var flags := commonOptions.CommandlineFlags();
      r := commonMakeArgs + flags;
    }

    /** `buildworldArgs`: the make flags, "-DWITH_AUTO_OBJ" exactly when
        `auto_obj` is set, then the cross-toolchain flags exactly when the
        external toolchain builds world, whose compiler must then exist. */
    method BuildworldArgs() returns (r: Result<seq<string>>)
      requires Valid()
      ensures r.Err? <==> s.MissingCompilerFatal(s.externalWorld)
      ensures r.Ok? ==>
        r.value == MakeFlags() + (if s.autoObj then [AutoObj] else []) + (if s.externalWorld then CrossFlags() else [])
    {
      var result := MakeCmdlineFlags();
      if s.autoObj {
        result := result + [AutoObj];
      }
      if s.externalWorld {
        if s.MissingCompilerFatal(true) {
          return Err("fatal: external compiler missing");
        }
        var cross := crossToolchainConfig.CommandlineFlags();
        result := result + cross;
      }
      return Ok(result);
    }

    /** `kernelMakeArgsForConfig`: the kernel arguments for `kernconf`; the
        external toolchain's compiler must exist when it builds the kernel. */
    method KernelMakeArgsForConfig(kernconf: string) returns (r: Result<seq<string>>)
      requires Valid()
      ensures r.Err? <==> s.MissingCompilerFatal(s.externalKernel)
      ensures r.Ok? ==> r.value == KernelArgs(MakeFlags(), KernelToolchain(), s.crossbuild, kernconf)
    {
      var flags := MakeCmdlineFlags();
      flags := RemoveFirst(flags, AutoObj);
      if s.externalKernel {
        if s.MissingCompilerFatal(true) {
          return Err("fatal: external compiler missing");
        }
        var toolchainFlags := KernelOptionsFlags();
        flags := flags + toolchainFlags;
      }
      if s.crossbuild {
        flags := Undebugged(flags + ["-DWITHOUT_KERNEL_TRAMPOLINE"]) + ["-DINSTALL_NODEBUG"];
      }
      return Ok(flags + ["KERNCONF=" + kernconf]);
    }

    /** The flags of a deep copy of the cross-toolchain options with the
        kernel's linker settings added. */
    method KernelOptionsFlags() returns (r: seq<string>)
      requires Valid()
      ensures r == KernelToolchainFlags(crossToolchainConfig.withOptions, crossToolchainConfig.cmdlineVars, Linker().0, Linker().1)
    {
      var kernelOptions := crossToolchainConfig.Copy();
      var linker := Linker();
      var kw := LinkerSettings(linker.0, linker.1);
      LinkerSettingsRouted(linker.0, linker.1);
      assert kw[..5] == kw && [][..0] == BoolItems(kw);
      var _ := kernelOptions.Add(kw);
      r := kernelOptions.CommandlineFlags();
    }

    /** The arguments of the kernel-toolchain run. */
    function ToolchainArgs(): seq<string>
      reads commonOptions
      requires commonOptions.Valid()
    {
      MakeFlags() + Flags(ToolchainOptions(s.externalKernel), Empty()) + (if s.autoObj then [AutoObj] else []) +
      JFlag(s.makeJobs)
    }

    /** The kernel-toolchain run, if the kernel needs it and it was not
        built yet. */
    function ToolchainSteps(built: bool): seq<MakeRun>
      reads commonOptions
      requires commonOptions.Valid()
    {
      if s.NeedsKernelToolchain() && !built then [MakeRun(ToolchainArgs(), "kernel-toolchain", commonOptions.envVars)]
      else []
    }

    /** The buildkernel run for `kernconf`. */
    function KernelStep(kernconf: string): MakeRun
      reads commonOptions, crossToolchainConfig
      requires commonOptions.Valid() && crossToolchainConfig.Valid()
    {
      MakeRun(KernelArgs(MakeFlags(), KernelToolchain(), s.crossbuild, kernconf) + JFlag(s.makeJobs),
              "buildkernel", commonOptions.envVars)
    }

    /** The `kernel-toolchain` run: the make flags, the toolchain options'
        flags, "-DWITH_AUTO_OBJ" when `auto_obj` is set, and the `-j` flag. */
    method ToolchainRun() returns (run: MakeRun)
      requires Valid()
      ensures run == MakeRun(ToolchainArgs(), "kernel-toolchain", commonOptions.envVars)
    {
      var opts := ToolchainOptionsBag(s.externalKernel);
      var make := MakeCmdlineFlags();
      var toolchainFlags := opts.CommandlineFlags();
      var autoObj := if s.autoObj then [AutoObj] else [];
      run := MakeRun(make + toolchainFlags + autoObj + JFlag(s.makeJobs), "kernel-toolchain", commonOptions.envVars);
    }

    /** The first half of `_buildkernel`: the kernel-toolchain run when
        the kernel needs it and it was not built yet, after which the flag
        is set. */
    method BuildKernelToolchain()
      requires Valid()
      modifies this`runs, this`kernelToolchainAlreadyBuilt
      ensures Valid()
      ensures runs == old(runs + ToolchainSteps(kernelToolchainAlreadyBuilt))
      ensures kernelToolchainAlreadyBuilt <==> old(kernelToolchainAlreadyBuilt) || s.NeedsKernelToolchain()
      ensures !s.NeedsKernelToolchain() ==> runs == old(runs)
    {
      if s.NeedsKernelToolchain() && !kernelToolchainAlreadyBuilt {
        var run := ToolchainRun();
        assert [run] == ToolchainSteps(kernelToolchainAlreadyBuilt);
        ToolchainRunsAppend(runs, [run]);
        runs := runs + [run];
        kernelToolchainAlreadyBuilt := true;
      } else {
        assert runs + [] == runs;
      }
    }

    /** `_buildkernel`: the kernel-toolchain step when the kernel needs it
        and it was not built yet, then the `buildkernel` step; the kernel
        toolchain is built once at most and never when it is not needed. */
    method BuildKernel(kernconf: string) returns (r: Result<bool>)
      requires Valid()
      modifies this`runs, this`kernelToolchainAlreadyBuilt
      ensures Valid()
      ensures r.Err? <==> s.MissingCompilerFatal(s.externalKernel)
      ensures r.Err? ==> runs == old(runs) && kernelToolchainAlreadyBuilt == old(kernelToolchainAlreadyBuilt)
      ensures r.Ok? ==> runs == old(runs + ToolchainSteps(kernelToolchainAlreadyBuilt)) + [KernelStep(kernconf)]
      ensures kernelToolchainAlreadyBuilt <==> old(kernelToolchainAlreadyBuilt) || (r.Ok? && s.NeedsKernelToolchain())
      ensures !s.NeedsKernelToolchain() ==> ToolchainRuns(runs) == ToolchainRuns(old(runs))
    {
      var args := KernelMakeArgsForConfig(kernconf);
      if args.Err? {
        return Err(args.msg);
      }
      var kernelRun := MakeRun(args.value + JFlag(s.makeJobs), "buildkernel", commonOptions.envVars);
      assert kernelRun == KernelStep(kernconf);
      BuildKernelToolchain();
      KernelRunCounted(runs, kernelRun);
      runs := runs + [kernelRun];
      return Ok(true);
    }
  }
}
