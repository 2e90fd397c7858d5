/** The targets of the single-file build script combined.py: plain targets
    that build one project, pseudo targets that run an ordered list of other
    targets, the fixed target table of `AllTargets` and its `run`. Each
    target's `_completed` flag is the membership of its name in the
    `completed` set of the `AllTargets` object; the calls made into
    projects are recorded as events. */
module CombinedTargets {

  import opened Graphs
  import opened Wrappers
  import opened Targets
  import opened Strs

  /** A registered target: its dependency set and, for a `PseudoTarget`,
      the ordered dependencies it runs (its dependency set is their set). */
  datatype TargetSpec = TargetSpec(dependencies: set<string>, ordered: seq<string>, pseudo: bool)

  function TableGraph(table: map<string, TargetSpec>): (g: Graph)
    ensures g.Keys == table.Keys && forall n :: n in g ==> g[n] == table[n].dependencies
  {
    map n | n in table :: table[n].dependencies
  }

  /** What `AllTargets` relies on without checking: every dependency names a
      registered target (`targetMap[dep]` never fails), no target depends on
      itself (the recursions terminate), and a pseudo target has at least one
      dependency (`PseudoTarget.__init__` stops otherwise). */
  ghost predicate WellFormed(table: map<string, TargetSpec>) {
    var g := TableGraph(table);
    Closed(g) && Acyclic(g) &&
    forall n :: n in table && table[n].pseudo ==>
      |table[n].ordered| > 0 && NamesOf(table[n].ordered) == table[n].dependencies
  }

  function Plain(deps: set<string>): TargetSpec {
    TargetSpec(deps, [], false)
  }

  function Pseudo(ordered: seq<string>): TargetSpec {
    TargetSpec(NamesOf(ordered), ordered, true)
  }

  /** `sdkTargetDeps`: on FreeBSD the SDK includes CheriBSD itself. */
  function SdkDeps(isFreeBSD: bool): seq<string> {
    if isFreeBSD then ["llvm", "cheribsd"] else ["awk", "elftoolchain", "binutils", "llvm"]
  }

  function CheriosDeps(isFreeBSD: bool): set<string> {
    if isFreeBSD then {"sdk"} else {"elftoolchain", "binutils", "llvm"}
  }

  /** `AllTargets.targetMap`. */
  function Table(isFreeBSD: bool): (r: map<string, TargetSpec>)
    ensures "all" in r && "sdk" in r && r["all"].pseudo && r["sdk"].pseudo
    ensures forall n :: n in r && r[n].pseudo ==> n == "all" || n == "sdk"
    ensures forall n :: n in r && r[n].pseudo ==> |r[n].ordered| > 0 && NamesOf(r[n].ordered) == r[n].dependencies
    ensures forall n, d :: n in r && d in r[n].dependencies ==> d in r
  {
    map["binutils" := Plain({}), "qemu" := Plain({}), "cmake" := Plain({}), "llvm" := Plain({}),
        "awk" := Plain({}), "elftoolchain" := Plain({}), "cheritrace" := Plain({"llvm"}),
        "cherivis" := Plain({"cheritrace"}), "gnustep" := Plain({}), "cheribsd" := Plain({"llvm"}),
        "disk-image" := Plain({"cheribsd", "qemu"}), "sdk-sysroot" := Plain(NamesOf(SdkDeps(isFreeBSD))),
        "cherios" := Plain(CheriosDeps(isFreeBSD)), "run" := Plain({"qemu", "disk-image"}),
        "all" := Pseudo(["qemu", "sdk", "disk-image", "run"]),
        "sdk" := Pseudo(SdkDeps(isFreeBSD) + ["sdk-sysroot"])]
  }

  /** The events and the completed names after `execute()` on target `n`
      with `done` completed before: a completed target does nothing, a plain
      one is processed, a pseudo one executes each of its ordered
      dependencies that has not completed, then completes. */
  function ExecSpec(table: map<string, TargetSpec>, done: set<string>, n: string): (r: (seq<Event>, set<string>))
    requires WellFormed(table) && n in table
    ensures done + {n} <= r.1
    ensures Fresh(r.0, done, r.1) && EventsDistinct(r.0)
    decreases |AllDeps(TableGraph(table), n)|, 1
  {
    if n in done then ([], done)
    else if !table[n].pseudo then ([Process(n)], done + {n})
    else
      var (es, d) := ExecDeps(table, done, n, table[n].ordered);
      (es, d + {n})
  }

  /** The loop of `PseudoTarget.execute` over `deps`, a suffix of the
      ordered dependencies of `n`. */
  function ExecDeps(table: map<string, TargetSpec>, done: set<string>, n: string, deps: seq<string>)
    : (r: (seq<Event>, set<string>))
    requires WellFormed(table) && n in table && NamesOf(deps) <= table[n].dependencies
    ensures done <= r.1
    ensures Fresh(r.0, done, r.1) && EventsDistinct(r.0)
    decreases |AllDeps(TableGraph(table), n)|, 0, |deps|
  {
    if |deps| == 0 then ([], done)
    else if deps[0] in done then ExecDeps(table, done, n, deps[1..])
    else
      NearerDep(table, n, deps[0]);
      var r := ExecSpec(table, done, deps[0]);
      var rest := ExecDeps(table, r.1, n, deps[1..]);
      FreshAppend(r.0, rest.0, done, r.1, rest.1);
      (r.0 + rest.0, rest.1)
  }

  /** One round of the loop of `PseudoTarget.execute`. */
  lemma ExecDepsStep(table: map<string, TargetSpec>, done: set<string>, n: string, deps: seq<string>, i: int)
    requires WellFormed(table) && n in table && NamesOf(deps) <= table[n].dependencies && 0 <= i < |deps|
    ensures NamesOf(deps[i..]) <= table[n].dependencies && NamesOf(deps[i + 1..]) <= table[n].dependencies
    ensures deps[i] in table
    ensures deps[i] in done ==> ExecDeps(table, done, n, deps[i..]) == ExecDeps(table, done, n, deps[i + 1..])
    ensures deps[i] !in done ==>
      var r := ExecSpec(table, done, deps[i]);
      var rest := ExecDeps(table, r.1, n, deps[i + 1..]);
      ExecDeps(table, done, n, deps[i..]) == (r.0 + rest.0, rest.1)
  {
    assert deps[i..][0] == deps[i] && deps[i..][1..] == deps[i + 1..];
    assert deps[i] in NamesOf(deps);
  }

  lemma CheckDepsStep(table: map<string, TargetSpec>, done: set<string>, n: string, deps: seq<string>, i: int)
    requires WellFormed(table) && n in table && NamesOf(deps) <= table[n].dependencies && 0 <= i < |deps|
    ensures NamesOf(deps[i..]) <= table[n].dependencies && NamesOf(deps[i + 1..]) <= table[n].dependencies
    ensures deps[i] in table
    ensures deps[i] in done ==> CheckDepsSpec(table, done, n, deps[i..]) == CheckDepsSpec(table, done, n, deps[i + 1..])
    ensures deps[i] !in done ==>
      CheckDepsSpec(table, done, n, deps[i..]) == CheckSpec(table, done, deps[i]) + CheckDepsSpec(table, done, n, deps[i + 1..])
  {
    assert deps[i..][0] == deps[i] && deps[i..][1..] == deps[i + 1..];
    assert deps[i] in NamesOf(deps);
  }

  lemma AppendAssoc(a: seq<Event>, b: seq<Event>, c: seq<Event>)
    ensures a + b + c == a + (b + c)
  {
  }

  /** Every event processes a plain target that completes in between. */
  predicate Fresh(es: seq<Event>, before: set<string>, after: set<string>) {
    forall i :: 0 <= i < |es| ==> es[i].Process? && es[i].target in after && es[i].target !in before
  }

  predicate EventsDistinct(es: seq<Event>) {
    forall i, j :: 0 <= i < j < |es| ==> es[i] != es[j]
  }

  lemma FreshAppend(a: seq<Event>, b: seq<Event>, d0: set<string>, d1: set<string>, d2: set<string>)
    requires d0 <= d1 <= d2 && Fresh(a, d0, d1) && Fresh(b, d1, d2)
    requires EventsDistinct(a) && EventsDistinct(b)
    ensures Fresh(a + b, d0, d2) && EventsDistinct(a + b)
  {
    var c := a + b;
    forall i, j | 0 <= i < j < |c| ensures c[i] != c[j] {
      if j >= |a| && i < |a| {
        assert c[i] == a[i] && c[j] == b[j - |a|];
      }
    }
  }

  /** A dependency has fewer transitive dependencies than its dependant. */
  lemma NearerDep(table: map<string, TargetSpec>, n: string, d: string)
    requires WellFormed(table) && n in table && d in table[n].dependencies
    ensures d in table && |AllDeps(TableGraph(table), d)| < |AllDeps(TableGraph(table), n)|
  {
    var g := TableGraph(table);
    FewerDeps(g, n, d);
  }

  /** A second `execute()` of the same target does nothing. */
  lemma ExecIdempotent(table: map<string, TargetSpec>, done: set<string>, n: string)
    requires WellFormed(table) && n in table
    ensures var r := ExecSpec(table, done, n); ExecSpec(table, r.1, n) == ([], r.1)
  {
  }

  /** A target completes only with the targets it depends on. */
  lemma {:induction false} ExecWithin(table: map<string, TargetSpec>, done: set<string>, n: string)
    requires WellFormed(table) && n in table
    ensures ExecSpec(table, done, n).1 <= done + {n} + AllDeps(TableGraph(table), n)
    decreases |AllDeps(TableGraph(table), n)|, 1
  {
    if n !in done && table[n].pseudo {
      ExecDepsWithin(table, done, n, table[n].ordered);
    }
  }

  lemma {:induction false} ExecDepsWithin(table: map<string, TargetSpec>, done: set<string>, n: string, deps: seq<string>)
    requires WellFormed(table) && n in table && NamesOf(deps) <= table[n].dependencies
    ensures ExecDeps(table, done, n, deps).1 <= done + AllDeps(TableGraph(table), n)
    decreases |AllDeps(TableGraph(table), n)|, 0, |deps|
  {
    if |deps| > 0 {
      var g, d := TableGraph(table), deps[0];
      var d1 := if d in done then done else ExecSpec(table, done, d).1;
      if d !in done {
        NearerDep(table, n, d);
        ExecWithin(table, done, d);
        AllDepsOfMember(g, n, d);
      }
      ExecDepsWithin(table, d1, n, deps[1..]);
      assert ExecDeps(table, done, n, deps).1 == ExecDeps(table, d1, n, deps[1..]).1;
    }
  }

  /** The checks `checkSystemDeps()` on target `n` makes: none for a
      completed target, one for a plain one, and for a pseudo one those of
      each ordered dependency that has not completed. Nothing completes. */
  function CheckSpec(table: map<string, TargetSpec>, done: set<string>, n: string): (r: seq<Event>)
    requires WellFormed(table) && n in table
    ensures forall i :: 0 <= i < |r| ==>
      r[i].CheckDeps? && r[i].target in table && !table[r[i].target].pseudo && r[i].target !in done
    decreases |AllDeps(TableGraph(table), n)|, 1
  {
    if n in done then []
    else if !table[n].pseudo then [CheckDeps(n)]
    else CheckDepsSpec(table, done, n, table[n].ordered)
  }

  function CheckDepsSpec(table: map<string, TargetSpec>, done: set<string>, n: string, deps: seq<string>)
    : (r: seq<Event>)
    requires WellFormed(table) && n in table && NamesOf(deps) <= table[n].dependencies
    ensures forall i :: 0 <= i < |r| ==>
      r[i].CheckDeps? && r[i].target in table && !table[r[i].target].pseudo && r[i].target !in done
    decreases |AllDeps(TableGraph(table), n)|, 0, |deps|
  {
    if |deps| == 0 then []
    else
      var d := deps[0];
      (if d in done then [] else (NearerDep(table, n, d); CheckSpec(table, done, d))) +
      CheckDepsSpec(table, done, n, deps[1..])
  }

  /** The checks and executions of `run` over the chosen targets, in order. */
  function CheckAllSpec(table: map<string, TargetSpec>, done: set<string>, chosen: seq<string>): seq<Event>
    requires WellFormed(table) && NamesOf(chosen) <= table.Keys
    decreases |chosen|
  {
    if |chosen| == 0 then []
    else
      var last := chosen[|chosen| - 1];
      CheckAllSpec(table, done, chosen[..|chosen| - 1]) + CheckSpec(table, done, last)
  }

  function ExecAllSpec(table: map<string, TargetSpec>, done: set<string>, chosen: seq<string>)
    : (r: (seq<Event>, set<string>))
    requires WellFormed(table) && NamesOf(chosen) <= table.Keys
    ensures done + NamesOf(chosen) <= r.1
    ensures Fresh(r.0, done, r.1) && EventsDistinct(r.0)
    decreases |chosen|
  {
    if |chosen| == 0 then ([], done)
    else
      var prev := ExecAllSpec(table, done, chosen[..|chosen| - 1]);
      var last := ExecSpec(table, prev.1, chosen[|chosen| - 1]);
      FreshAppend(prev.0, last.0, done, prev.1, last.1);
      assert chosen == chosen[..|chosen| - 1] + [chosen[|chosen| - 1]];
      (prev.0 + last.0, last.1)
  }

  lemma CheckAllStep(table: map<string, TargetSpec>, done: set<string>, chosen: seq<string>, i: int)
    requires WellFormed(table) && NamesOf(chosen) <= table.Keys && 0 <= i < |chosen|
    ensures chosen[i] in table && NamesOf(chosen[..i]) <= table.Keys && NamesOf(chosen[..i + 1]) <= table.Keys
    ensures CheckAllSpec(table, done, chosen[..i + 1]) ==
      CheckAllSpec(table, done, chosen[..i]) + CheckSpec(table, done, chosen[i])
  {
    assert chosen[i] in NamesOf(chosen);
    assert chosen[..i + 1][..i] == chosen[..i];
  }

  lemma ExecAllStep(table: map<string, TargetSpec>, done: set<string>, chosen: seq<string>, i: int)
    requires WellFormed(table) && NamesOf(chosen) <= table.Keys && 0 <= i < |chosen|
    ensures chosen[i] in table && NamesOf(chosen[..i]) <= table.Keys && NamesOf(chosen[..i + 1]) <= table.Keys
    ensures var prev := ExecAllSpec(table, done, chosen[..i]);
      var last := ExecSpec(table, prev.1, chosen[i]);
      ExecAllSpec(table, done, chosen[..i + 1]) == (prev.0 + last.0, last.1)
  {
    assert chosen[i] in NamesOf(chosen);
    assert chosen[..i + 1][..i] == chosen[..i];
  }

  /** The outcome of `AllTargets.run`. */
  datatype RunOutcome =
    | Unknown(name: string)      // `fatalError(...)` and `sys.exit(1)`
    | Done(chosen: seq<string>)  // every chosen target checked, then executed

  class AllTargets {
    const table: map<string, TargetSpec>
    var completed: set<string>
    var events: seq<Event>

    /** `AllTargets.__init__`, on FreeBSD or elsewhere. */
    constructor(isFreeBSD: bool)
      ensures table == Table(isFreeBSD)
      ensures completed == {} && events == []
    {
      table := Table(isFreeBSD);
      completed := {};
      events := [];
    }

    /** `execute()` on target `n`, plain or pseudo. */
    method Execute(n: string)
      requires WellFormed(table) && n in table
      modifies this`completed, this`events
      ensures events == old(events) + ExecSpec(table, old(completed), n).0
      ensures completed == ExecSpec(table, old(completed), n).1
      decreases |AllDeps(TableGraph(table), n)|, 1
    {
      if n in completed {
        return;
      }
      if !table[n].pseudo {
        events := events + [Process(n)];
        completed := completed + {n};
        return;
      }
      ExecuteDeps(n);
      completed := completed + {n};
    }

    /** The loop of `PseudoTarget.execute` over the ordered dependencies of `n`. */
    method ExecuteDeps(n: string)
      requires WellFormed(table) && n in table && table[n].pseudo
      modifies this`completed, this`events
      ensures events == old(events) + ExecDeps(table, old(completed), n, table[n].ordered).0
      ensures completed == ExecDeps(table, old(completed), n, table[n].ordered).1
      decreases |AllDeps(TableGraph(table), n)|, 0
    {
      var deps := table[n].ordered;
      ghost var whole := ExecDeps(table, completed, n, deps);
      var i := 0;
      assert deps[i..] == deps;
      while i < |deps|
        invariant 0 <= i <= |deps|
        invariant NamesOf(deps[i..]) <= table[n].dependencies
        invariant events + ExecDeps(table, completed, n, deps[i..]).0 == old(events) + whole.0
        invariant ExecDeps(table, completed, n, deps[i..]).1 == whole.1
      {
        var d := deps[i];
        ghost var before, done := events, completed;
        ExecDepsStep(table, done, n, deps, i);
        if d !in completed {
          ghost var r := ExecSpec(table, done, d);
          NearerDep(table, n, d);
          Execute(d);
          AppendAssoc(before, r.0, ExecDeps(table, r.1, n, deps[i + 1..]).0);
        }
        i := i + 1;
      }
      assert events + [] == events;
    }

    /** `checkSystemDeps()` on target `n`, plain or pseudo. */
    method CheckSystemDeps(n: string)
      requires WellFormed(table) && n in table
      modifies this`events
      ensures completed == old(completed)
      ensures events == old(events) + CheckSpec(table, completed, n)
      decreases |AllDeps(TableGraph(table), n)|, 1
    {
      if n in completed {
        return;
      }
      if !table[n].pseudo {
        events := events + [CheckDeps(n)];
        return;
      }
      CheckSystemDepsOfDeps(n);
    }

    /** The loop of `PseudoTarget.checkSystemDeps` over the ordered dependencies of `n`. */
    method CheckSystemDepsOfDeps(n: string)
      requires WellFormed(table) && n in table && table[n].pseudo
      modifies this`events
      ensures completed == old(completed)
      ensures events == old(events) + CheckDepsSpec(table, completed, n, table[n].ordered)
      decreases |AllDeps(TableGraph(table), n)|, 0
    {
      var deps := table[n].ordered;
      ghost var done := completed;
      ghost var whole := old(events) + CheckDepsSpec(table, done, n, deps);
      var i := 0;
      assert deps[i..] == deps;
      while i < |deps|
        invariant 0 <= i <= |deps| && completed == done
        invariant NamesOf(deps[i..]) <= table[n].dependencies
        invariant events + CheckDepsSpec(table, done, n, deps[i..]) == whole
      {
        var d := deps[i];
        ghost var before := events;
        ghost var rest := CheckDepsSpec(table, done, n, deps[i + 1..]);
        CheckDepsStep(table, done, n, deps, i);
        if d !in completed {
          NearerDep(table, n, d);
          CheckSystemDeps(d);
          AppendAssoc(before, CheckSpec(table, done, d), rest);
        } else {
          assert CheckDepsSpec(table, done, n, deps[i..]) == rest;
        }
        i := i + 1;
      }
      assert events + [] == events;
    }

    /** `run`: look up the named targets, stopping at the first unknown one;
        choose them alone, or with everything they depend on in the levels of
        the topological sort; check every chosen target, then execute every
        chosen target. */
    method Run(names: seq<string>, includeDependencies: bool) returns (outcome: RunOutcome)
      requires WellFormed(table)
      modifies this`completed, this`events
      ensures outcome.Unknown? <==> !(NamesOf(names) <= table.Keys)
      ensures outcome.Unknown? ==>
        outcome.name in names && outcome.name !in table && events == old(events) && completed == old(completed)
      ensures outcome.Unknown? ==>
        exists k :: 0 <= k < |names| && names[k] == outcome.name && NamesOf(names[..k]) <= table.Keys
      ensures outcome.Done? ==> NamesOf(outcome.chosen) <= table.Keys
      ensures outcome.Done? && !includeDependencies ==> outcome.chosen == names
      ensures outcome.Done? && includeDependencies ==>
        outcome.chosen == Flatten(Rounds(TableGraph(table), Reach(TableGraph(table), NamesOf(names)), {}))
      ensures outcome.Done? && includeDependencies ==>
        Distinct(outcome.chosen) && DepsFirst(TableGraph(table), outcome.chosen) &&
        NamesOf(outcome.chosen) == Reach(TableGraph(table), NamesOf(names))
      ensures outcome.Done? ==>
        events == old(events) + CheckAllSpec(table, old(completed), outcome.chosen) +
                  ExecAllSpec(table, old(completed), outcome.chosen).0 &&
        completed == ExecAllSpec(table, old(completed), outcome.chosen).1
    {
      var i := 0;
      while i < |names|
        invariant 0 <= i <= |names| && NamesOf(names[..i]) <= table.Keys
      {
        if names[i] !in table {
          assert names[i] in names;
          return Unknown(names[i]);
        }
        assert names[..i + 1] == names[..i] + [names[i]];
        i := i + 1;
      }
      assert names[..i] == names;
      var g := TableGraph(table);
      var chosen := names;
      if includeDependencies {
        var levels, ok := TopologicalSort(g, names);
        chosen := FlattenLevels(levels);
        FlattenLevelled(g, levels);
        AcyclicReach(g, NamesOf(names));
      }
      NamesOfElements(chosen);
      CheckAll(chosen);
      ExecuteAll(chosen);
      return Done(chosen);
    }

    method CheckAll(chosen: seq<string>)
      requires WellFormed(table) && NamesOf(chosen) <= table.Keys
      modifies this`events
      ensures completed == old(completed)
      ensures events == old(events) + CheckAllSpec(table, completed, chosen)
    {
      var i := 0;
      while i < |chosen|
        invariant 0 <= i <= |chosen| && completed == old(completed)
        invariant events == old(events) + CheckAllSpec(table, completed, chosen[..i])
      {
        CheckAllStep(table, completed, chosen, i);
        CheckSystemDeps(chosen[i]);
        i := i + 1;
      }
      assert chosen[..i] == chosen;
    }

    method ExecuteAll(chosen: seq<string>)
      requires WellFormed(table) && NamesOf(chosen) <= table.Keys
      modifies this`completed, this`events
      ensures events == old(events) + ExecAllSpec(table, old(completed), chosen).0
      ensures completed == ExecAllSpec(table, old(completed), chosen).1
    {
      var i := 0;
      assert chosen[..i] == [];
      while i < |chosen|
        invariant 0 <= i <= |chosen|
        invariant events == old(events) + ExecAllSpec(table, old(completed), chosen[..i]).0
        invariant completed == ExecAllSpec(table, old(completed), chosen[..i]).1
      {
        ExecAllStep(table, old(completed), chosen, i);
        ghost var prev := ExecAllSpec(table, old(completed), chosen[..i]);
        Execute(chosen[i]);
        AppendAssoc(old(events), prev.0, ExecSpec(table, prev.1, chosen[i]).0);
        i := i + 1;
      }
      assert chosen[..i] == chosen;
    }
  }

  /** `recursiveDependencyNames`: `existing` with every transitive
      dependency of `n` added. */
  method RecursiveDependencyNames(g: Graph, n: string, existing: set<string>) returns (r: set<string>)
    requires Closed(g) && Acyclic(g) && n in g
    ensures r == existing + AllDeps(g, n)
    decreases |AllDeps(g, n)|
  {
    var deps := SetOrder(g[n]);
    r := existing;
    var i := 0;
    assert deps[..0] == [];
    while i < |deps|
      invariant 0 <= i <= |deps|
      invariant r == existing + Covered(g, deps[..i])
    {
      var d := deps[i];
      DirectDep(g, n, d);
      CoveredNext(g, deps, i);
      r := RecursiveDependencyNames(g, d, r + {d});
      UnionRegroup(existing, Covered(g, deps[..i]), {d}, AllDeps(g, d));
      i := i + 1;
    }
    assert deps[..i] == deps;
    CoveredAllDeps(g, n, deps);
  }

  /** Without cycles anywhere there are none among the reachable targets. */
  lemma AcyclicReach(g: Graph, roots: set<string>)
    requires Acyclic(g) && roots <= g.Keys && Closed(g)
    ensures AcyclicOn(g, Reach(g, roots))
  {
  }
}
