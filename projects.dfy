/** The project base of `pycheribuild/projects/project.py`: the make options
    a project passes (`MakeOptions`), the ordered list of its recursive
    dependencies, the make command line it runs and the CMake options it
    adds. */
module Projects {

  import opened Wrappers
  import opened Strs
  import opened Paths
  import opened Graphs
  import opened OrderedMaps
  import PB = ProjectBase

  // ---------------------------------------------------------------------
  // recursive_dependencies

  /** `recursive_dependencies`: each direct dependency followed by its own
      recursive dependencies, every target listed once, in the order first
      met. The recursion only ends when no cycle is reachable. */
  method RecursiveDependencies(deps: PB.DepLists, n: string) returns (r: seq<string>)
    requires Closed(PB.DepGraph(deps)) && Acyclic(PB.DepGraph(deps)) && n in deps
    ensures Distinct(r)
    ensures forall x :: x in r <==> x in AllDeps(PB.DepGraph(deps), n)
    ensures |deps[n]| > 0 ==> |r| > 0 && r[0] == deps[n][0]
    decreases |AllDeps(PB.DepGraph(deps), n)|
  {
    var g := PB.DepGraph(deps);
    var list := deps[n];
    assert forall x :: x in list <==> x in g[n];
    r := [];
    var i := 0;
    assert list[..0] == [];
    while i < |list|
      invariant 0 <= i <= |list|
      invariant Distinct(r)
      invariant PB.Elems(r) == Covered(g, list[..i])
      invariant i == 0 ==> r == []
      invariant i > 0 ==> |r| > 0 && r[0] == list[0]
    {
      var t := list[i];
      DirectDep(g, n, t);
      CoveredNext(g, list, i);
      ghost var before := r;
      r := AppendNew(r, [t]);
      var rec := RecursiveDependencies(deps, t);
      ghost var mid := r;
      r := AppendNew(r, rec);
      assert r[0] == mid[0];
      ElemsUnion(mid, before, [t], {t});
      ElemsUnion(r, mid, rec, AllDeps(g, t));
      UnionAssoc(Covered(g, list[..i]), {t}, AllDeps(g, t));
      i := i + 1;
    }
    assert list[..i] == list;
    CoveredAllDeps(g, n, list);
  }

  /** The loop that appends each of `xs` not yet in the list. */
  method AppendNew(r: seq<string>, xs: seq<string>) returns (s: seq<string>)
    requires Distinct(r)
    ensures Distinct(s) && r <= s
    ensures forall x :: x in s <==> x in r || x in xs
    ensures |xs| > 0 && xs[0] !in r ==> |s| > |r| && s[|r|] == xs[0]
  {
    s := r;
    var j := 0;
    while j < |xs|
      invariant 0 <= j <= |xs|
      invariant Distinct(s) && r <= s
      invariant forall x :: x in s <==> x in r || x in xs[..j]
      invariant j == 0 ==> s == r
      invariant j > 0 && xs[0] !in r ==> |s| > |r| && s[|r|] == xs[0]
    {
      if xs[j] !in s {
        DistinctSnoc(s, xs[j]);
        s := s + [xs[j]];
      }
      assert xs[..j + 1] == xs[..j] + [xs[j]];
      j := j + 1;
    }
    assert xs[..j] == xs;
  }

  /** A list holding the members of `a` and `b` has as its elements those of
      `a` and the set `e` of the elements of `b`. */
  lemma ElemsUnion(s: seq<string>, a: seq<string>, b: seq<string>, e: set<string>)
    requires forall x :: x in s <==> x in a || x in b
    requires forall x :: x in b <==> x in e
    ensures PB.Elems(s) == PB.Elems(a) + e
  {
  }

  lemma DistinctSnoc(s: seq<string>, x: string)
    requires Distinct(s) && x !in s
    ensures Distinct(s + [x])
  {
    var t := s + [x];
    forall i, j | 0 <= i < j < |t| ensures t[i] != t[j] {
      assert t[i] == s[i];
      if j < |s| {
        assert t[j] == s[j];
      }
    }
  }

  // ---------------------------------------------------------------------
  // MakeOptions

  datatype MakeCommandKind = DefaultMake | GnuMake | BsdMake | Ninja | CustomMakeTool

  /** A keyword argument of `set` or `set_env`. */
  datatype Setting = BoolSetting(b: bool) | StrSetting(s: string)

  /** How `__do_set` stores a value: a boolean as "1" or "0", anything else
      as its `str()`. */
  function SettingValue(v: Setting): (r: string)
    ensures v.BoolSetting? ==> (r == "1" <==> v.b) && (r == "0" <==> !v.b)
    ensures v.StrSetting? ==> r == v.s
  {
    match v
    case BoolSetting(b) => if b then "1" else "0"
    case StrSetting(s) => s
  }

  /** The keyword arguments with their values as stored. */
  function Rendered(kwargs: seq<(string, Setting)>): (r: seq<(string, string)>)
    ensures |r| == |kwargs|
    ensures forall i :: 0 <= i < |kwargs| ==> r[i] == (kwargs[i].0, SettingValue(kwargs[i].1))
  {
    seq(|kwargs|, i requires 0 <= i < |kwargs| => (kwargs[i].0, SettingValue(kwargs[i].1)))
  }

  /** `__do_set`: each keyword argument stored in turn. */
  method DoSet(d: OrderedMap<string>, kwargs: seq<(string, Setting)>) returns (r: OrderedMap<string>)
    requires d.Valid()
    ensures r == PutAll(d, Rendered(kwargs))
  {
    r := d;
    var items := Rendered(kwargs);
    var i := 0;
    while i < |kwargs|
      invariant 0 <= i <= |kwargs|
      invariant r == PutAll(d, items[..i])
    {
      assert items[..i + 1][..i] == items[..i];
      r := r.Put(kwargs[i].0, SettingValue(kwargs[i].1));
      i := i + 1;
    }
    assert items[..i] == items;
  }

  /** Python keyword arguments have distinct names. */
  predicate DistinctNames<V>(kwargs: seq<(string, V)>) {
    forall i, j :: 0 <= i < j < |kwargs| ==> kwargs[i].0 != kwargs[j].0
  }

  /** After `set`, a key given as a keyword argument holds the stored form
      of its value, keys not given keep theirs, and the keys set before stay
      first, in their order. */
  lemma SetEffect(d: OrderedMap<string>, kwargs: seq<(string, Setting)>, k: string)
    requires d.Valid() && DistinctNames(kwargs)
    ensures d.keys <= PutAll(d, Rendered(kwargs)).keys
    ensures forall i :: 0 <= i < |kwargs| && kwargs[i].0 == k ==>
      k in PutAll(d, Rendered(kwargs)).values && PutAll(d, Rendered(kwargs)).values[k] == SettingValue(kwargs[i].1)
    ensures k in d.values && (forall i :: 0 <= i < |kwargs| ==> kwargs[i].0 != k) ==>
      k in PutAll(d, Rendered(kwargs)).values && PutAll(d, Rendered(kwargs)).values[k] == d.values[k]
  {
    var items := Rendered(kwargs);
    PutAllKeepsOrder(d, items);
    PutAllValues(d, items);
    AsMapKeys(items, k);
    forall i | 0 <= i < |kwargs| && kwargs[i].0 == k
      ensures k in PutAll(d, items).values && PutAll(d, items).values[k] == SettingValue(kwargs[i].1)
    {
      AsMapLast(items, i);
    }
  }

  /** `_get_defined_var`: "-DNAME" for BSD make, "NAME=1" for GNU make; for
      any other kind the assertion fails. */
  function DefinedVar(kind: MakeCommandKind, name: string): (r: Result<string>)
    ensures r.Ok? <==> kind == BsdMake || kind == GnuMake
  {
    if kind == BsdMake then Ok("-D" + name)
    else if kind == GnuMake then Ok(name + "=1")
    else Err("assertion: defining a variable needs BSD or GNU make")
  }

  /** One variable on the command line: a value of "1" defines it, any other
      value is passed as "K=V". */
  function VarArg(kind: MakeCommandKind, k: string, v: string): Result<string> {
    if v == "1" then DefinedVar(kind, k) else Ok(k + "=" + v)
  }

  /** One WITH_/WITHOUT_ option, the prefix and the name defined together. */
  function WithArg(kind: MakeCommandKind, k: string, b: bool): Result<string> {
    DefinedVar(kind, (if b then "WITH_" else "WITHOUT_") + k)
  }

  /** One WITH_/WITHOUT_ option as `all_commandline_args` writes it: only
      the prefix is defined, and the name is appended afterwards. */
  function WithArgAsWritten(kind: MakeCommandKind, k: string, b: bool): Result<string> {
    match DefinedVar(kind, if b then "WITH_" else "WITHOUT_")
    case Err(m) => Err(m)
    case Ok(s) => Ok(s + k)
  }

  /** For BSD make, the kind every user of WITH_ options has, the two agree. */
  lemma WithArgBsd(k: string, b: bool)
    ensures WithArgAsWritten(BsdMake, k, b) == WithArg(BsdMake, k, b)
  {
    var p := if b then "WITH_" else "WITHOUT_";
    assert "-D" + p + k == "-D" + (p + k);
  }

  /** For GNU make, `set_with_options(MAN=True)` is rendered "WITH_=1MAN"
      rather than "WITH_MAN=1". */
  lemma WithArgGnuMake()
    ensures WithArgAsWritten(GnuMake, "MAN", true) == Ok("WITH_=1MAN")
    ensures WithArg(GnuMake, "MAN", true) == Ok("WITH_MAN=1")
    ensures WithArgAsWritten(GnuMake, "MAN", true) != WithArg(GnuMake, "MAN", true)
  {
    assert "WITH_" + "=1" + "MAN" == "WITH_=1MAN";
    assert "WITH_" + "MAN" + "=1" == "WITH_MAN=1";
    assert "WITH_=1MAN"[5] != "WITH_MAN=1"[5];
  }

  /** The results of the loop bodies collected in order; the first failure
      ends the loop. */
  function Collect(xs: seq<Result<string>>): Result<seq<string>>
    decreases |xs|
  {
    if |xs| == 0 then Ok([])
    else
      match Collect(xs[..|xs| - 1])
      case Err(m) => Err(m)
      case Ok(a) =>
        var x := xs[|xs| - 1];
        if x.Err? then Err(x.msg) else Ok(a + [x.value])
  }

  /** Collecting succeeds exactly when every item does, and then gives the
      items' values in order. */
  lemma {:induction false} CollectAt(xs: seq<Result<string>>)
    ensures Collect(xs).Ok? <==> forall i :: 0 <= i < |xs| ==> xs[i].Ok?
    ensures Collect(xs).Ok? ==> |Collect(xs).value| == |xs|
    ensures Collect(xs).Ok? ==> forall i :: 0 <= i < |xs| ==> Collect(xs).value[i] == xs[i].value
    decreases |xs|
  {
    if |xs| > 0 {
      var init := xs[..|xs| - 1];
      CollectAt(init);
      assert forall i :: 0 <= i < |init| ==> init[i] == xs[i];
    }
  }

  /** One more item collected after the first `i`: its failure is the
      failure of the whole, its value is appended otherwise. */
  lemma CollectNext(xs: seq<Result<string>>, i: nat, result: seq<string>)
    requires i < |xs| && Collect(xs[..i]) == Ok(result)
    ensures xs[i].Err? ==> Collect(xs) == Err(xs[i].msg)
    ensures xs[i].Ok? ==> Collect(xs[..i + 1]) == Ok(result + [xs[i].value])
  {
    assert xs[..i + 1][..i] == xs[..i];
    if xs[i].Err? {
      CollectErr(xs, i + 1);
    }
  }

  /** A failure in a prefix is the failure of the whole. */
  lemma {:induction false} CollectErr(xs: seq<Result<string>>, j: int)
    requires 0 <= j <= |xs| && Collect(xs[..j]).Err?
    ensures Collect(xs) == Collect(xs[..j])
    decreases |xs| - j
  {
    if j < |xs| {
      assert xs[..j + 1][..j] == xs[..j];
      CollectErr(xs, j + 1);
    } else {
      assert xs[..j] == xs;
    }
  }

  function VarResults(kind: MakeCommandKind, vars: OrderedMap<string>): (r: seq<Result<string>>)
    requires vars.Valid()
    ensures |r| == |vars.keys|
    ensures forall i :: 0 <= i < |r| ==> r[i] == VarArg(kind, vars.keys[i], vars.values[vars.keys[i]])
  {
    seq(|vars.keys|, i requires 0 <= i < |vars.keys| => VarArg(kind, vars.keys[i], vars.values[vars.keys[i]]))
  }

  function WithResults(kind: MakeCommandKind, options: OrderedMap<bool>): (r: seq<Result<string>>)
    requires options.Valid()
    ensures |r| == |options.keys|
    ensures forall i :: 0 <= i < |r| ==> r[i] == WithArg(kind, options.keys[i], options.values[options.keys[i]])
  {
    seq(|options.keys|, i requires 0 <= i < |options.keys| => WithArg(kind, options.keys[i], options.values[options.keys[i]]))
  }

  /** `all_commandline_args`: the variables, then the WITH_/WITHOUT_ options,
      then the raw flags, each in insertion order. */
  function CommandLineArgs(kind: MakeCommandKind, vars: OrderedMap<string>, options: OrderedMap<bool>,
                           flags: seq<string>): (r: Result<seq<string>>)
    requires vars.Valid() && options.Valid()
    ensures r.Ok? ==> |flags| <= |r.value| && r.value[|r.value| - |flags|..] == flags
  {
    match Collect(VarResults(kind, vars))
    case Err(m) => Err(m)
    case Ok(a) =>
      match Collect(WithResults(kind, options))
      case Err(m) => Err(m)
      case Ok(b) => Ok(a + b + flags)
  }

  /** Only BSD and GNU make can define variables: with any other kind the
      arguments fail exactly when a variable has the value "1" or a WITH_
      option is set. */
  lemma CommandLineArgsOk(kind: MakeCommandKind, vars: OrderedMap<string>, options: OrderedMap<bool>,
                          flags: seq<string>)
    requires vars.Valid() && options.Valid()
    ensures (kind == BsdMake || kind == GnuMake) ==> CommandLineArgs(kind, vars, options, flags).Ok?
    ensures kind != BsdMake && kind != GnuMake ==>
      (CommandLineArgs(kind, vars, options, flags).Ok? <==>
         |options.keys| == 0 && forall i :: 0 <= i < |vars.keys| ==> vars.values[vars.keys[i]] != "1")
  {
    VarResultsOk(kind, vars);
    WithResultsOk(kind, options);
  }

  lemma VarResultsOk(kind: MakeCommandKind, vars: OrderedMap<string>)
    requires vars.Valid()
    ensures Collect(VarResults(kind, vars)).Ok? <==>
      kind == BsdMake || kind == GnuMake || forall i :: 0 <= i < |vars.keys| ==> vars.values[vars.keys[i]] != "1"
  {
    var vs := VarResults(kind, vars);
    CollectAt(vs);
    if kind != BsdMake && kind != GnuMake {
      forall i | 0 <= i < |vars.keys| && vars.values[vars.keys[i]] == "1" ensures !Collect(vs).Ok? {
        assert !vs[i].Ok?;
      }
    }
  }

  lemma WithResultsOk(kind: MakeCommandKind, options: OrderedMap<bool>)
    requires options.Valid()
    ensures Collect(WithResults(kind, options)).Ok? <==> kind == BsdMake || kind == GnuMake || |options.keys| == 0
  {
    var ws := WithResults(kind, options);
    CollectAt(ws);
    if kind != BsdMake && kind != GnuMake && |options.keys| > 0 {
      assert !ws[0].Ok?;
    }
  }

  /** The order of the arguments: one per variable, then one per WITH_
      option, then the flags unchanged. */
  lemma CommandLineArgsOrder(kind: MakeCommandKind, vars: OrderedMap<string>, options: OrderedMap<bool>,
                             flags: seq<string>)
    requires vars.Valid() && options.Valid()
    ensures var r := CommandLineArgs(kind, vars, options, flags);
      r.Ok? ==> |r.value| == |vars.keys| + |options.keys| + |flags|
    ensures var r := CommandLineArgs(kind, vars, options, flags);
      r.Ok? ==> r.value[|vars.keys| + |options.keys|..] == flags
    ensures var r := CommandLineArgs(kind, vars, options, flags);
      r.Ok? ==> forall i :: 0 <= i < |options.keys| ==>
        r.value[|vars.keys| + i] == WithArg(kind, options.keys[i], options.values[options.keys[i]]).value
  {
    var vs, ws := VarResults(kind, vars), WithResults(kind, options);
    if CommandLineArgs(kind, vars, options, flags).Ok? {
      CollectAt(vs);
      CollectAt(ws);
      ConcatParts(Collect(vs).value, Collect(ws).value, flags);
    }
  }

  lemma ConcatParts(a: seq<string>, b: seq<string>, c: seq<string>)
    ensures |a + b + c| == |a| + |b| + |c| && (a + b + c)[|a| + |b|..] == c
    ensures forall i :: 0 <= i < |b| ==> (a + b + c)[|a| + i] == b[i]
  {
  }

  /** A variable whose value is "1" is passed as "-DK" to BSD make and as
      "K=1" to GNU make; any other value as "K=V". */
  lemma CommandLineArgsVars(kind: MakeCommandKind, vars: OrderedMap<string>, options: OrderedMap<bool>,
                            flags: seq<string>)
    requires vars.Valid() && options.Valid()
    ensures var r := CommandLineArgs(kind, vars, options, flags);
      r.Ok? ==> |r.value| >= |vars.keys| && forall i :: 0 <= i < |vars.keys| ==>
        r.value[i] == (if vars.values[vars.keys[i]] != "1" then vars.keys[i] + "=" + vars.values[vars.keys[i]]
                       else if kind == BsdMake then "-D" + vars.keys[i] else vars.keys[i] + "=1")
  {
    var vs := VarResults(kind, vars);
    CollectAt(vs);
    var r := CommandLineArgs(kind, vars, options, flags);
    if r.Ok? {
      var a := Collect(vs).value;
      assert forall i :: 0 <= i < |a| ==> r.value[i] == a[i];
    }
  }

  /** A flag `remove_var` drops: one that defines the variable ("-Dv", white
      space around it ignored) or assigns it ("v=..."). */
  predicate SetsVar(flag: string, variable: string) {
    Strip(flag) == "-D" + variable || StartsWith(flag, variable + "=")
  }

  /** The flags `remove_var` keeps, in their order. */
  function KeptFlags(flags: seq<string>, variable: string): (r: seq<string>)
    ensures forall f :: f in r ==> f in flags && !SetsVar(f, variable)
    decreases |flags|
  {
    if |flags| == 0 then []
    else
      var last := flags[|flags| - 1];
      var init := KeptFlags(flags[..|flags| - 1], variable);
      if SetsVar(last, variable) then init else init + [last]
  }

  /** Every flag that does not set the variable is kept. */
  lemma {:induction false} KeptFlagsKeeps(flags: seq<string>, variable: string, f: string)
    requires f in flags && !SetsVar(f, variable)
    ensures f in KeptFlags(flags, variable)
    decreases |flags|
  {
    var init := flags[..|flags| - 1];
    if f != flags[|flags| - 1] {
      assert flags == init + [flags[|flags| - 1]];
      KeptFlagsKeeps(init, variable, f);
    }
  }

  /** Dropping the flags of a list with one more flag at its end. */
  lemma KeptFlagsSnoc(flags: seq<string>, f: string, variable: string)
    ensures KeptFlags(flags + [f], variable) == if SetsVar(f, variable) then KeptFlags(flags, variable)
                                                else KeptFlags(flags, variable) + [f]
  {
    assert (flags + [f])[..|flags|] == flags;
  }

  /** The loop of `remove_var` over a copy of the flags, removing each flag
      that sets the variable from the list. */
  method RemoveVarFlags(flags: seq<string>, variable: string) returns (r: seq<string>)
    ensures r == KeptFlags(flags, variable)
  {
    var copy := flags;
    r := flags;
    var i := 0;
    while i < |copy|
      invariant 0 <= i <= |copy|
      invariant r == KeptFlags(copy[..i], variable) + copy[i..]
    {
      var flag := copy[i];
      RemoveVarStep(copy, i, variable);
      if SetsVar(flag, variable) {
        r := RemoveFirst(r, flag);
      }
      i := i + 1;
    }
    assert copy[..i] == copy;
  }

  /** One step of the loop of `remove_var`: removing the next flag from the
      list when it sets the variable keeps the list equal to the kept flags
      seen so far followed by the flags still to be looked at. */
  lemma RemoveVarStep(copy: seq<string>, i: int, variable: string)
    requires 0 <= i < |copy|
    ensures var r := KeptFlags(copy[..i], variable) + copy[i..];
      (if SetsVar(copy[i], variable) then RemoveFirst(r, copy[i]) else r)
      == KeptFlags(copy[..i + 1], variable) + copy[i + 1..]
  {
    var flag := copy[i];
    var done := KeptFlags(copy[..i], variable);
    SplitAtIndex(copy, i);
    KeptFlagsSnoc(copy[..i], flag, variable);
    assert done + copy[i..] == done + [flag] + copy[i + 1..];
    RemoveOrKeep(done, flag, copy[i + 1..], SetsVar(flag, variable), KeptFlags(copy[..i + 1], variable));
  }

  /** Removing a flag that the kept flags do not hold, or keeping it, moves
      it from the flags to look at to the kept ones. */
  lemma RemoveOrKeep(done: seq<string>, flag: string, rest: seq<string>, drop: bool, next: seq<string>)
    requires next == if drop then done else done + [flag]
    requires drop ==> flag !in done
    ensures (if drop then RemoveFirst(done + [flag] + rest, flag) else done + [flag] + rest) == next + rest
  {
    if drop {
      RemoveFirstAt(done, flag, rest);
    }
  }

  /** The element at index `i` closes the prefix before it and opens the
      suffix from it. */
  lemma SplitAtIndex(s: seq<string>, i: int)
    requires 0 <= i < |s|
    ensures s[..i + 1] == s[..i] + [s[i]] && s[i..] == [s[i]] + s[i + 1..]
  {
    assert s[..i + 1] == s[..i] + [s[i]];
    assert s[i..] == [s[i]] + s[i + 1..];
  }

  /** The entries of `items` put one after another, as the loop of
      `set_with_options` does. */
  method PutEach<V>(d: OrderedMap<V>, items: seq<(string, V)>) returns (r: OrderedMap<V>)
    requires d.Valid()
    ensures r == PutAll(d, items)
  {
    r := d;
    var i := 0;
    while i < |items|
      invariant 0 <= i <= |items|
      invariant r == PutAll(d, items[..i])
    {
      assert items[..i + 1][..i] == items[..i];
      r := r.Put(items[i].0, items[i].1);
      i := i + 1;
    }
    assert items[..i] == items;
  }

  /** The variables whose names satisfy the predicate removed one by one. */
  function Dropped(d: OrderedMap<string>, ks: seq<string>, pred: string -> bool): (r: OrderedMap<string>)
    requires d.Valid()
    ensures r.Valid()
    ensures forall k :: k in r.values <==> k in d.values && !(k in ks && pred(k))
    ensures forall k :: k in r.values ==> r.values[k] == d.values[k]
    decreases |ks|
  {
    if |ks| == 0 then d
    else
      var m := Dropped(d, ks[..|ks| - 1], pred);
      var k := ks[|ks| - 1];
      assert forall x :: x in ks <==> x in ks[..|ks| - 1] || x == k;
      if pred(k) then m.Remove(k) else m
  }

  /** The loop of `remove_all` over a snapshot of the variable names. */
  method RemoveAllVars(d: OrderedMap<string>, pred: string -> bool) returns (r: OrderedMap<string>)
    requires d.Valid()
    ensures r == Dropped(d, d.keys, pred)
  {
    var keys := d.keys;
    r := d;
    var i := 0;
    while i < |keys|
      invariant 0 <= i <= |keys|
      invariant r == Dropped(d, keys[..i], pred)
    {
      assert keys[..i + 1][..i] == keys[..i];
      if pred(keys[i]) {
        r := r.Remove(keys[i]);
      }
      i := i + 1;
    }
    assert keys[..i] == keys;
  }

  /** `MakeOptions`: the variables, WITH_/WITHOUT_ options, raw flags and
      environment variables a make invocation gets. */
  class MakeOptions {
    var kind: MakeCommandKind
    var vars: OrderedMap<string>
    var withOptions: OrderedMap<bool>
    var flags: seq<string>
    var envVars: OrderedMap<string>
    var command: Option<string>
    var canPassJFlagSetting: Option<bool>

    ghost predicate Valid()
      reads this
    {
      vars.Valid() && withOptions.Valid() && envVars.Valid()
    }

    constructor(kind: MakeCommandKind, kwargs: seq<(string, Setting)>)
      ensures Valid() && this.kind == kind && vars == PutAll(Empty(), Rendered(kwargs))
      ensures withOptions == Empty() && flags == [] && envVars == Empty()
      ensures command == None && canPassJFlagSetting == None
    {
      var v := DoSet(Empty(), kwargs);
      this.kind := kind;
      vars := v;
      withOptions := Empty();
      flags := [];
      envVars := Empty();
      command := None;
      canPassJFlagSetting := None;
    }

    /** `set`: the keyword arguments stored in the variables. */
    method Set(kwargs: seq<(string, Setting)>)
      requires Valid()
      modifies this
      ensures Valid() && vars == PutAll(old(vars), Rendered(kwargs))
      ensures withOptions == old(withOptions) && flags == old(flags) && envVars == old(envVars)
      ensures kind == old(kind) && command == old(command) && canPassJFlagSetting == old(canPassJFlagSetting)
    {
      vars := DoSet(vars, kwargs);
    }

    /** `set_env`: the keyword arguments stored in the environment variables. */
    method SetEnv(kwargs: seq<(string, Setting)>)
      requires Valid()
      modifies this
      ensures Valid() && envVars == PutAll(old(envVars), Rendered(kwargs))
      ensures vars == old(vars) && withOptions == old(withOptions) && flags == old(flags)
      ensures kind == old(kind) && command == old(command) && canPassJFlagSetting == old(canPassJFlagSetting)
    {
      envVars := DoSet(envVars, kwargs);
    }

    /** `set_with_options`: a WITH_ or WITHOUT_ option per keyword argument. */
    method SetWithOptions(kwargs: seq<(string, bool)>)
      requires Valid()
      modifies this
      ensures Valid() && withOptions == PutAll(old(withOptions), kwargs)
      ensures vars == old(vars) && flags == old(flags) && envVars == old(envVars)
      ensures kind == old(kind) && command == old(command) && canPassJFlagSetting == old(canPassJFlagSetting)
    {
      withOptions := PutEach(withOptions, kwargs);
    }

    /** `add_flags`. */
    method AddFlags(args: seq<string>)
      modifies this
      ensures flags == old(flags) + args
      ensures vars == old(vars) && withOptions == old(withOptions) && envVars == old(envVars)
      ensures kind == old(kind) && command == old(command) && canPassJFlagSetting == old(canPassJFlagSetting)
    {
      flags := flags + args;
    }

    /** `is_gnu_make`: known for GNU make and for the other explicit kinds;
        for the system default make, what `make --version` says. */
    predicate IsGnuMake(versionSaysGnuMake: bool)
      reads this
    {
      kind == GnuMake || (kind == DefaultMake && versionSaysGnuMake)
    }

    /** `command`: the command set explicitly, else the one inferred from
        the kind on this host. */
    function Command(isLinux: bool, hasGmake: bool, isFreeBSD: bool): (r: Result<string>)
      reads this
      ensures command.Some? ==> r == Ok(command.value)
      ensures command.None? ==> (r.Err? <==> kind == CustomMakeTool)
      ensures command.None? && r.Ok? ==> !IsAbsolute(r.value)
    {
      if command.Some? then Ok(command.value)
      else
        match InferCommand(kind, isLinux, hasGmake, isFreeBSD)
        case Err(m) => Err(m)
        case Ok(cmd) => Ok(cmd)
    }

    /** `set_command`. */
    method SetCommand(value: string, canPassJFlag: bool)
      modifies this
      ensures command == Some(value) && canPassJFlagSetting == Some(canPassJFlag)
      ensures vars == old(vars) && withOptions == old(withOptions) && flags == old(flags)
      ensures envVars == old(envVars) && kind == old(kind)
    {
      command := Some(value);
      canPassJFlagSetting := Some(canPassJFlag);
    }

    /** `can_pass_jflag`: the explicit setting, else every kind but a custom tool. */
    predicate CanPassJFlag()
      reads this
    {
      if canPassJFlagSetting.Some? then canPassJFlagSetting.value else kind != CustomMakeTool
    }

    /** `all_commandline_args`. */
    method AllCommandlineArgs() returns (r: Result<seq<string>>)
      requires Valid()
      ensures r == CommandLineArgs(kind, vars, withOptions, flags)
    {
      r := CommandLineArgsOf(kind, vars, withOptions, flags);
    }

    /** `remove_var`: the variable, its WITH_ option and every flag setting
        it are removed. */
    method RemoveVar(variable: string)
      requires Valid()
      modifies this
      ensures Valid()
      ensures vars == if variable in old(vars.values) then old(vars).Remove(variable) else old(vars)
      ensures withOptions == if variable in old(withOptions.values) then old(withOptions).Remove(variable) else old(withOptions)
      ensures flags == KeptFlags(old(flags), variable)
      ensures envVars == old(envVars) && kind == old(kind) && command == old(command)
      ensures canPassJFlagSetting == old(canPassJFlagSetting)
    {
      if variable in vars.values {
        vars := vars.Remove(variable);
      }
      if variable in withOptions.values {
        withOptions := withOptions.Remove(variable);
      }
      flags := RemoveVarFlags(flags, variable);
    }

    /** `remove_flag`: the first occurrence of the flag, if any. */
    method RemoveFlag(flag: string)
      modifies this
      ensures flags == RemoveFirst(old(flags), flag)
      ensures vars == old(vars) && withOptions == old(withOptions) && envVars == old(envVars)
      ensures kind == old(kind) && command == old(command) && canPassJFlagSetting == old(canPassJFlagSetting)
    {
      if flag in flags {
        flags := RemoveFirst(flags, flag);
      }
    }

    /** `remove_all`: every variable whose name satisfies the predicate. */
    method RemoveAll(pred: string -> bool)
      requires Valid()
      modifies this
      ensures Valid() && vars == Dropped(old(vars), old(vars.keys), pred)
      ensures withOptions == old(withOptions) && flags == old(flags) && envVars == old(envVars)
      ensures kind == old(kind) && command == old(command) && canPassJFlagSetting == old(canPassJFlagSetting)
    {
      vars := RemoveAllVars(vars, pred);
    }

    /** `copy`: a new object with its own containers holding the same
        entries; the containers are values, so changing one object never
        changes the other. */
    method Copy() returns (r: MakeOptions)
      ensures fresh(r)
      ensures r.kind == kind && r.vars == vars && r.withOptions == withOptions && r.flags == flags
      ensures r.envVars == envVars && r.command == command && r.canPassJFlagSetting == canPassJFlagSetting
    {
      r := new MakeOptions(kind, []);
      r.vars := vars;
      r.withOptions := withOptions;
      r.flags := flags;
      r.envVars := envVars;
      r.command := command;
      r.canPassJFlagSetting := canPassJFlagSetting;
    }

    /** `update`: the other object's variables, options and environment
        merged in, its flags appended. */
    method Update(other: MakeOptions)
      requires Valid() && other.Valid()
      modifies this
      ensures Valid()
      ensures vars == old(vars).Update(old(other.vars))
      ensures withOptions == old(withOptions).Update(old(other.withOptions))
      ensures flags == old(flags) + old(other.flags)
      ensures envVars == old(envVars).Update(old(other.envVars))
      ensures kind == old(kind) && command == old(command) && canPassJFlagSetting == old(canPassJFlagSetting)
    {
      var ov, ow, of, oe := other.vars, other.withOptions, other.flags, other.envVars;
      vars := vars.Update(ov);
      withOptions := withOptions.Update(ow);
      flags := flags + of;
      envVars := envVars.Update(oe);
    }
  }

  /** The command `__infer_command` picks for each kind on this host. */
  function InferCommand(kind: MakeCommandKind, isLinux: bool, hasGmake: bool, isFreeBSD: bool): (r: Result<string>)
    ensures r.Ok? <==> kind != CustomMakeTool
    ensures r.Ok? ==> r.value in ["make", "gmake", "bmake", "ninja"]
    ensures r.Ok? ==> !IsAbsolute(r.value)
  {
    assert "make"[0] == 'm' && "gmake"[0] == 'g' && "bmake"[0] == 'b' && "ninja"[0] == 'n';
    match kind
    case DefaultMake => Ok("make")
    case GnuMake => if isLinux && !hasGmake then Ok("make") else Ok("gmake")
    case BsdMake => if isFreeBSD then Ok("make") else Ok("bmake")
    case Ninja => Ok("ninja")
    case CustomMakeTool => Err("cannot infer the command of a custom make tool")
  }

  /** The loops of `all_commandline_args`: the variables, then the
      WITH_/WITHOUT_ options, then the flags. */
  method CommandLineArgsOf(kind: MakeCommandKind, vars: OrderedMap<string>, options: OrderedMap<bool>,
                           flags: seq<string>) returns (r: Result<seq<string>>)
    requires vars.Valid() && options.Valid()
    ensures r == CommandLineArgs(kind, vars, options, flags)
  {
    var a := VarArgsOf(kind, vars);
    if a.Err? {
      return Err(a.msg);
    }
    var b := WithArgsOf(kind, options);
    if b.Err? {
      return Err(b.msg);
    }
    r := Ok(a.value + b.value + flags);
  }

  /** The loop over the variables; the first one the make kind cannot
      define ends it with that error. */
  method VarArgsOf(kind: MakeCommandKind, vars: OrderedMap<string>) returns (r: Result<seq<string>>)
    requires vars.Valid()
    ensures r == Collect(VarResults(kind, vars))
  {
    var vs := VarResults(kind, vars);
    var result: seq<string> := [];
    var i := 0;
    while i < |vars.keys|
      invariant 0 <= i <= |vars.keys|
      invariant Collect(vs[..i]) == Ok(result)
    {
      var k := vars.keys[i];
      var v := vars.values[k];
      var arg := VarArg(kind, k, v);
      assert vs[i] == arg;
      CollectNext(vs, i, result);
      if arg.Err? {
        return Err(arg.msg);
      }
      result := result + [arg.value];
      i := i + 1;
    }
    assert vs[..i] == vs;
    r := Ok(result);
  }

  /** The loop over the WITH_/WITHOUT_ options. */
  method WithArgsOf(kind: MakeCommandKind, options: OrderedMap<bool>) returns (r: Result<seq<string>>)
    requires options.Valid()
    ensures r == Collect(WithResults(kind, options))
  {
    var ws := WithResults(kind, options);
    var result: seq<string> := [];
    var j := 0;
    while j < |options.keys|
      invariant 0 <= j <= |options.keys|
      invariant Collect(ws[..j]) == Ok(result)
    {
      var k := options.keys[j];
      var arg := WithArg(kind, k, options.values[k]);
      assert ws[j] == arg;
      CollectNext(ws, j, result);
      if arg.Err? {
        return Err(arg.msg);
      }
      result := result + [arg.value];
      j := j + 1;
    }
    assert ws[..j] == ws;
    r := Ok(result);
  }

  /** `copy` gives containers of its own: changing the copy afterwards leaves
      the original as it was. */
  method CopyThenSet(o: MakeOptions, kwargs: seq<(string, Setting)>) returns (c: MakeOptions)
    requires o.Valid()
    ensures fresh(c) && c.Valid() && c.vars == PutAll(o.vars, Rendered(kwargs))
    ensures o.vars == old(o.vars) && o.flags == old(o.flags) && o.withOptions == old(o.withOptions)
    ensures o.envVars == old(o.envVars)
  {
    c := o.Copy();
    c.Set(kwargs);
  }

  /** The tool that records the compilation database, when one is wanted and
      the build system cannot write it: `bear` or `compiledb`. */
  function CompileDbPrefix(c: PB.MakeConfig, tool: string, toolPath: string, buildDir: string, dbName: string): seq<string> {
    if !(c.createCompilationDB && c.compileDBRequiresBear) then []
    else if tool == "bear" then [toolPath, "--cdb", PathJoin(buildDir, dbName), "--append"]
    else [toolPath, "--output", PathJoin(buildDir, dbName)]
  }

  /** The `-j` flag, when the build runs in parallel and the tool accepts it. */
  function JFlagArgs(useJFlag: bool, jflag: string): seq<string> {
    if useJFlag then [jflag] else []
  }

  /** The command line `_get_make_commandline` builds from the rendered
      options; `verbose` of the configuration stands for its debug output. */
  function MakeCommandline(c: PB.MakeConfig, tool: string, toolPath: string, buildDir: string, dbName: string,
                           make: string, args: seq<string>, target: string, useJFlag: bool, jflag: string)
    : (r: seq<string>)
    ensures make in r && (target != "" ==> target in r) && (useJFlag ==> jflag in r)
    ensures forall a :: a in args ==> a in r
  {
    PB.NicePrefix(c) + (CompileDbPrefix(c, tool, toolPath, buildDir, dbName)
      + ([make] + (args + (PB.TargetArgs(target) + JFlagArgs(useJFlag, jflag))))) + PB.TrailingFlags(c, make)
  }

  /** The pieces in front: "nice" first unless disabled, then the make
      command, the rendered options, the target, and the `-j` flag exactly
      when the build is parallel and the tool accepts it. */
  lemma MakeCommandlineFront(c: PB.MakeConfig, tool: string, toolPath: string, buildDir: string, dbName: string,
                             make: string, args: seq<string>, target: string, useJFlag: bool, jflag: string)
    ensures var argv := MakeCommandline(c, tool, toolPath, buildDir, dbName, make, args, target, useJFlag, jflag);
      !c.makeWithoutNice ==> argv[0] == "nice"
    ensures var argv := MakeCommandline(c, tool, toolPath, buildDir, dbName, make, args, target, useJFlag, jflag);
      var k := |PB.NicePrefix(c)| + |CompileDbPrefix(c, tool, toolPath, buildDir, dbName)|;
      k + 1 + |args| <= |argv| && argv[k] == make && argv[k + 1..k + 1 + |args|] == args
    ensures var argv := MakeCommandline(c, tool, toolPath, buildDir, dbName, make, args, target, useJFlag, jflag);
      var k := |PB.NicePrefix(c)| + |CompileDbPrefix(c, tool, toolPath, buildDir, dbName)| + 1 + |args|;
      target != "" ==> k < |argv| && argv[k] == target
  {
    var t, j := PB.TargetArgs(target), JFlagArgs(useJFlag, jflag);
    PB.Pieces(PB.NicePrefix(c), CompileDbPrefix(c, tool, toolPath, buildDir, dbName), make, args, t + j, PB.TrailingFlags(c, make));
    if target != "" {
      assert (t + j)[0] == target;
    }
  }

  /** The `-j` flag sits right after the target, before the trailing flags,
      exactly when the build is parallel and the tool accepts it. */
  lemma MakeCommandlineJFlag(c: PB.MakeConfig, tool: string, toolPath: string, buildDir: string, dbName: string,
                             make: string, args: seq<string>, target: string, useJFlag: bool, jflag: string)
    ensures var argv := MakeCommandline(c, tool, toolPath, buildDir, dbName, make, args, target, useJFlag, jflag);
      var k := |PB.NicePrefix(c)| + |CompileDbPrefix(c, tool, toolPath, buildDir, dbName)| + 1 + |args| + |PB.TargetArgs(target)|;
      k <= |argv| && (useJFlag <==> k < |argv| - |PB.TrailingFlags(c, make)| && argv[k] == jflag)
  {
    var nice, db := PB.NicePrefix(c), CompileDbPrefix(c, tool, toolPath, buildDir, dbName);
    var t, j, f := PB.TargetArgs(target), JFlagArgs(useJFlag, jflag), PB.TrailingFlags(c, make);
    var front := nice + db + [make] + args + t;
    assert nice + (db + ([make] + (args + (t + j)))) + f == front + j + f;
    assert |front| == |nice| + |db| + 1 + |args| + |t|;
  }

  /** The pieces at the end: "-k" last, or "-k" then "50" for ninja. */
  lemma MakeCommandlineEnd(c: PB.MakeConfig, tool: string, toolPath: string, buildDir: string, dbName: string,
                           make: string, args: seq<string>, target: string, useJFlag: bool, jflag: string)
    ensures var argv := MakeCommandline(c, tool, toolPath, buildDir, dbName, make, args, target, useJFlag, jflag);
      c.passDashKToMake && make == "ninja" ==> |argv| >= 2 && argv[|argv| - 2..] == ["-k", "50"]
    ensures var argv := MakeCommandline(c, tool, toolPath, buildDir, dbName, make, args, target, useJFlag, jflag);
      c.passDashKToMake && make != "ninja" ==> argv[|argv| - 1] == "-k"
  {
    var front := PB.NicePrefix(c) + (CompileDbPrefix(c, tool, toolPath, buildDir, dbName)
      + ([make] + (args + (PB.TargetArgs(target) + JFlagArgs(useJFlag, jflag)))));
    PB.TrailingEnd(c, make, front);
  }

  /** `get_make_commandline`: the options default to the project's own, the
      make command to the project's command; rendering the options fails for
      a kind that cannot define a variable. */
  method GetMakeCommandline(c: PB.MakeConfig, makeArgs: MakeOptions, options: Option<MakeOptions>,
                            makeTarget: string, makeCommand: string, parallel: bool, jflag: string,
                            tool: string, toolPath: string, buildDir: string, dbName: string,
                            isLinux: bool, hasGmake: bool, isFreeBSD: bool) returns (r: Result<seq<string>>)
    requires makeArgs.Valid() && (options.Some? ==> options.value.Valid())
    ensures var o := if options.Some? then options.value else makeArgs;
      var make := if makeCommand != "" then Ok(makeCommand) else makeArgs.Command(isLinux, hasGmake, isFreeBSD);
      var args := CommandLineArgs(o.kind, o.vars, o.withOptions, o.flags);
      r == if make.Err? then Err(make.msg)
           else if args.Err? then Err(args.msg)
           else Ok(MakeCommandline(c, tool, toolPath, buildDir, dbName, make.value, args.value, makeTarget,
                                   parallel && o.CanPassJFlag(), jflag))
  {
    var o := if options.Some? then options.value else makeArgs;
    var make := if makeCommand != "" then Ok(makeCommand) else makeArgs.Command(isLinux, hasGmake, isFreeBSD);
    if make.Err? {
      return Err(make.msg);
    }
    var rendered := o.AllCommandlineArgs();
    if rendered.Err? {
      return Err(rendered.msg);
    }
    var argv := BuildMakeCommandline(c, tool, toolPath, buildDir, dbName, make.value, rendered.value, makeTarget,
                                     parallel && o.CanPassJFlag(), jflag);
    r := Ok(argv);
  }

  /** The successive appends and prefixes of `_get_make_commandline`. */
  method BuildMakeCommandline(c: PB.MakeConfig, tool: string, toolPath: string, buildDir: string, dbName: string,
                              make: string, args: seq<string>, target: string, useJFlag: bool, jflag: string)
    returns (allArgs: seq<string>)
    ensures allArgs == MakeCommandline(c, tool, toolPath, buildDir, dbName, make, args, target, useJFlag, jflag)
  {
    allArgs := args + PB.TargetArgs(target);
    if useJFlag {
      allArgs := allArgs + [jflag];
    }
    assert allArgs == args + (PB.TargetArgs(target) + JFlagArgs(useJFlag, jflag));
    allArgs := [make] + allArgs;
    allArgs := CompileDbPrefix(c, tool, toolPath, buildDir, dbName) + allArgs;
    if !c.makeWithoutNice {
      allArgs := ["nice"] + allArgs;
    }
    assert allArgs == PB.NicePrefix(c) + (CompileDbPrefix(c, tool, toolPath, buildDir, dbName)
      + ([make] + (args + (PB.TargetArgs(target) + JFlagArgs(useJFlag, jflag)))));
    allArgs := PB.AppendTrailingFlags(c, make, allArgs);
  }

  /** Whether a user-supplied CMake option defines `option` (starts with
      "-D" followed by the name). */
  function UserDefines(cmakeOptions: seq<string>, option: string): (r: bool)
    ensures r <==> exists i :: 0 <= i < |cmakeOptions| && StartsWith(cmakeOptions[i], "-D" + option)
    decreases |cmakeOptions|
  {
    if |cmakeOptions| == 0 then false
    else
      var init := cmakeOptions[..|cmakeOptions| - 1];
      assert forall i :: 0 <= i < |init| ==> init[i] == cmakeOptions[i];
      UserDefines(init, option) || StartsWith(cmakeOptions[|cmakeOptions| - 1], "-D" + option)
  }

  /** The options `add_cmake_options` passes on: those the user does not
      define in the configuration, in order. */
  function DefaultsKept(cmakeOptions: seq<string>, opts: seq<(string, PB.CMakeValue)>): (r: seq<(string, PB.CMakeValue)>)
    ensures forall i :: 0 <= i < |r| ==> r[i] in opts && !UserDefines(cmakeOptions, r[i].0)
    decreases |opts|
  {
    if |opts| == 0 then []
    else
      var init := DefaultsKept(cmakeOptions, opts[..|opts| - 1]);
      var last := opts[|opts| - 1];
      if UserDefines(cmakeOptions, last.0) then init else init + [last]
  }

  /** Every option the user does not define is passed on. */
  lemma {:induction false} DefaultsKeptKeeps(cmakeOptions: seq<string>, opts: seq<(string, PB.CMakeValue)>, i: int)
    requires 0 <= i < |opts| && !UserDefines(cmakeOptions, opts[i].0)
    ensures opts[i] in DefaultsKept(cmakeOptions, opts)
    decreases |opts|
  {
    if i < |opts| - 1 {
      DefaultsKeptKeeps(cmakeOptions, opts[..|opts| - 1], i);
    }
  }

  /** The configure arguments of a CMake project and the options the user
      gave in the configuration. */
  class CMakeProject {
    var configureArgs: seq<string>
    const cmakeOptions: seq<string>

    constructor(configureArgs: seq<string>, cmakeOptions: seq<string>)
      ensures this.configureArgs == configureArgs && this.cmakeOptions == cmakeOptions
    {
      this.configureArgs := configureArgs;
      this.cmakeOptions := cmakeOptions;
    }

    /** `add_cmake_options`: a definition per option, in order, except for
        options the user defines in the configuration, which win. */
    method AddCMakeOptions(opts: seq<(string, PB.CMakeValue)>)
      modifies this
      ensures configureArgs == old(configureArgs) + PB.CMakeFlags(DefaultsKept(cmakeOptions, opts))
    {
      var i := 0;
      while i < |opts|
        invariant 0 <= i <= |opts|
        invariant configureArgs == old(configureArgs) + PB.CMakeFlags(DefaultsKept(cmakeOptions, opts[..i]))
      {
        var option, value := opts[i].0, opts[i].1;
        assert opts[..i + 1][..i] == opts[..i];
        if !UserDefines(cmakeOptions, option) {
          PB.CMakeFlagsAppend(DefaultsKept(cmakeOptions, opts[..i]), [opts[i]]);
          configureArgs := configureArgs + ["-D" + option + "=" + PB.Render(value)];
        }
        i := i + 1;
      }
      assert opts[..i] == opts;
    }
  }
}
