/** The target manager of pycheribuild/targets.py: targets with a completion
    flag, the `__lt__` ordering of targets, the level-by-level topological sort
    and `run`, which checks every chosen target before executing any of them.
    What a project does when it is checked or processed is outside the model;
    the calls themselves are recorded as events on a `Trace`. */
module Targets {

  import opened Graphs
  import opened StrOrder
  import opened Strs
  import opened Wrappers

  /** An observable call made while running targets. */
  datatype Event =
    | CheckDeps(target: string)        // `project.checkSystemDependencies()`
    | Process(target: string)          // `project.process()`
    | AlreadyExecuted(target: string)  // the "has already been executed!" warning

  /** The calls made so far, in order. */
  class Trace {
    var events: seq<Event>

    constructor()
      ensures events == []
    {
      events := [];
    }
  }

  class Target {
    const name: string
    /** The project class's `dependencies` list; `Target.dependencies` is its set. */
    const dependencyList: seq<string>
    const dependencies: set<string>
    const isAlias: bool
    const dependenciesMustBeBuilt: bool
    /** `self.project is not None`. */
    var hasProject: bool
    /** `self._completed`. */
    var completed: bool

    constructor(name: string, dependencyList: seq<string>, isAlias: bool, dependenciesMustBeBuilt: bool)
      ensures this.name == name && this.dependencyList == dependencyList
      ensures dependencies == NamesOf(dependencyList)
      ensures this.isAlias == isAlias && this.dependenciesMustBeBuilt == dependenciesMustBeBuilt
      ensures !hasProject && !completed
    {
      this.name := name;
      this.dependencyList := dependencyList;
      this.dependencies := NamesOf(dependencyList);
      this.isAlias := isAlias;
      this.dependenciesMustBeBuilt := dependenciesMustBeBuilt;
      hasProject := false;
      completed := false;
    }

    /** `checkSystemDeps`: nothing for a completed target; otherwise the
        project is instantiated and its system dependencies are checked. */
    method CheckSystemDeps(trace: Trace)
      modifies this, trace
      ensures completed == old(completed)
      ensures old(completed) ==> hasProject == old(hasProject) && trace.events == old(trace.events)
      ensures !old(completed) ==> hasProject && trace.events == old(trace.events) + [CheckDeps(name)]
    {
      if completed {
        return;
      }
      hasProject := true;
      trace.events := trace.events + [CheckDeps(name)];
    }

    /** `execute`: a completed target only warns; otherwise the project is
        processed and only then is the target marked completed. */
    method Execute(trace: Trace)
      requires completed || hasProject
      modifies this, trace
      ensures completed && hasProject == old(hasProject)
      ensures old(completed) ==> trace.events == old(trace.events) + [AlreadyExecuted(name)]
      ensures !old(completed) ==> trace.events == old(trace.events) + [Process(name)]
    {
      if completed {
        trace.events := trace.events + [AlreadyExecuted(name)];
        return;
      }
      trace.events := trace.events + [Process(name)];
      completed := true;
    }
  }

  /** `a < b` for the targets named `a` and `b` (`Target.__lt__`). */
  predicate Precedes(g: Graph, a: string, b: string)
    requires a in g && b in g
  {
    if b == "run" && a != b then true
    else if a in AllDeps(g, b) then true
    else if |AllDeps(g, a)| < |AllDeps(g, b)| then true
    else if |AllDeps(g, a)| > |AllDeps(g, b)| then false
    else Less(a, b)
  }

  /** Fewer transitive dependencies first, then by name. */
  predicate KeyLess(g: Graph, a: string, b: string)
    requires a in g && b in g
  {
    |AllDeps(g, a)| < |AllDeps(g, b)| || (|AllDeps(g, a)| == |AllDeps(g, b)| && Less(a, b))
  }

  /** Every target other than `run` sorts before `run`. */
  lemma RunLast(g: Graph, a: string)
    requires a in g && "run" in g && a != "run"
    ensures Precedes(g, a, "run")
  {
  }

  /** Away from `run` and without cycles, `__lt__` is the order by number of
      transitive dependencies and then by name: a dependency always has fewer. */
  lemma PrecedesIsKeyLess(g: Graph, a: string, b: string)
    requires Closed(g) && Acyclic(g) && a in g && b in g && b != "run"
    ensures Precedes(g, a, b) <==> KeyLess(g, a, b)
  {
    if a in AllDeps(g, b) {
      FewerDeps(g, b, a);
    }
  }

  /** A dependency sorts before the targets that need it, and never after. */
  lemma DependencyFirst(g: Graph, a: string, b: string)
    requires Closed(g) && Acyclic(g) && a in g && b in g && a in AllDeps(g, b) && a != "run"
    ensures Precedes(g, a, b) && !Precedes(g, b, a)
  {
    FewerDeps(g, b, a);
    if b in AllDeps(g, a) {
      FewerDeps(g, a, b);
    }
  }

  /** Without cycles no target sorts before itself. */
  lemma PrecedesIrreflexive(g: Graph, a: string)
    requires Acyclic(g) && a in g
    ensures !Precedes(g, a, a)
  {
    LessIrreflexive(a);
  }

  /** Away from `run` and without cycles, `__lt__` is a strict total order on names. */
  lemma PrecedesStrictTotal(g: Graph, a: string, b: string, c: string)
    requires Closed(g) && Acyclic(g) && a in g && b in g && c in g
    requires a != "run" && b != "run" && c != "run"
    ensures a != b ==> Precedes(g, a, b) || Precedes(g, b, a)
    ensures Precedes(g, a, b) ==> !Precedes(g, b, a)
    ensures Precedes(g, a, b) && Precedes(g, b, c) ==> Precedes(g, a, c)
  {
    PrecedesIsKeyLess(g, a, b);
    PrecedesIsKeyLess(g, b, a);
    PrecedesIsKeyLess(g, b, c);
    PrecedesIsKeyLess(g, a, c);
    if a != b { LessTotal(a, b); }
    if Less(a, b) { LessAsymmetric(a, b); }
    if Less(a, b) && Less(b, c) { LessTransitive(a, b, c); }
  }

  /** Insertion into an ordered list: before the first target `x` sorts before. */
  function InsertTarget(g: Graph, x: string, s: seq<string>): (r: seq<string>)
    requires x in g && forall i :: 0 <= i < |s| ==> s[i] in g
    ensures multiset(r) == multiset(s) + multiset{x}
    ensures forall i :: 0 <= i < |r| ==> r[i] in g
    decreases |s|
  {
    if |s| == 0 || Precedes(g, x, s[0]) then [x] + s
    else
      assert s == [s[0]] + s[1..];
      [s[0]] + InsertTarget(g, x, s[1..])
  }

  /** `sorted(targets)` with `Target.__lt__`, as a stable insertion sort. */
  function SortTargets(g: Graph, s: seq<string>): (r: seq<string>)
    requires forall i :: 0 <= i < |s| ==> s[i] in g
    ensures multiset(r) == multiset(s)
    ensures forall i :: 0 <= i < |r| ==> r[i] in g
    decreases |s|
  {
    if |s| == 0 then []
    else
      assert s == s[..|s| - 1] + [s[|s| - 1]];
      InsertTarget(g, s[|s| - 1], SortTargets(g, s[..|s| - 1]))
  }

  /** No target of `s` sorts before one that comes earlier. */
  predicate SortedTargets(g: Graph, s: seq<string>)
    requires forall i :: 0 <= i < |s| ==> s[i] in g
  {
    forall i, j :: 0 <= i < j < |s| ==> !Precedes(g, s[j], s[i])
  }

  /** `a < b` and `b <= c` give `a < c`, hence not `c < a`. */
  lemma BeforeChain(g: Graph, a: string, b: string, c: string)
    requires Closed(g) && Acyclic(g) && a in g && b in g && c in g
    requires a != "run" && b != "run" && c != "run"
    requires Precedes(g, a, b) && !Precedes(g, c, b)
    ensures !Precedes(g, c, a)
  {
    PrecedesStrictTotal(g, a, b, c);
    PrecedesStrictTotal(g, c, a, b);
    PrecedesStrictTotal(g, b, c, a);
  }

  lemma InsertFrontSorted(g: Graph, x: string, s: seq<string>)
    requires Closed(g) && Acyclic(g) && x in g && x != "run"
    requires forall i :: 0 <= i < |s| ==> s[i] in g && s[i] != "run"
    requires SortedTargets(g, s) && (|s| == 0 || Precedes(g, x, s[0]))
    ensures SortedTargets(g, [x] + s)
  {
    var r := [x] + s;
    forall j | 1 <= j < |r| ensures !Precedes(g, r[j], x) {
      assert r[j] == s[j - 1];
      if j == 1 {
        PrecedesStrictTotal(g, x, s[0], x);
      } else {
        BeforeChain(g, x, s[0], s[j - 1]);
      }
    }
    forall i, j | 0 <= i < j < |r| ensures !Precedes(g, r[j], r[i]) {
      if i > 0 {
        assert r[i] == s[i - 1] && r[j] == s[j - 1];
      }
    }
  }

  lemma {:induction false} InsertTargetSorted(g: Graph, x: string, s: seq<string>)
    requires Closed(g) && Acyclic(g) && x in g && x != "run"
    requires forall i :: 0 <= i < |s| ==> s[i] in g && s[i] != "run"
    requires SortedTargets(g, s)
    ensures SortedTargets(g, InsertTarget(g, x, s))
    decreases |s|
  {
    if |s| == 0 || Precedes(g, x, s[0]) {
      InsertFrontSorted(g, x, s);
    } else {
      InsertTargetSorted(g, x, s[1..]);
      var t := InsertTarget(g, x, s[1..]);
      forall j | 0 <= j < |t| ensures !Precedes(g, t[j], s[0]) {
        assert t[j] in multiset(t);
        if t[j] != x {
          assert t[j] in multiset(s[1..]);
          var k :| 0 <= k < |s[1..]| && s[1..][k] == t[j];
          assert s[k + 1] == t[j];
        }
      }
      ConsSorted(g, s[0], t);
    }
  }

  lemma ConsSorted(g: Graph, x: string, t: seq<string>)
    requires x in g && forall i :: 0 <= i < |t| ==> t[i] in g
    requires SortedTargets(g, t) && forall j :: 0 <= j < |t| ==> !Precedes(g, t[j], x)
    ensures SortedTargets(g, [x] + t)
  {
    var r := [x] + t;
    forall i, j | 0 <= i < j < |r| ensures !Precedes(g, r[j], r[i]) {
      assert r[j] == t[j - 1];
      if i > 0 {
        assert r[i] == t[i - 1];
      }
    }
  }

  /** Without cycles and without `run`, the sorted targets are in `__lt__` order. */
  lemma {:induction false} SortTargetsSorted(g: Graph, s: seq<string>)
    requires Closed(g) && Acyclic(g)
    requires forall i :: 0 <= i < |s| ==> s[i] in g && s[i] != "run"
    ensures SortedTargets(g, SortTargets(g, s))
    decreases |s|
  {
    if |s| > 0 {
      var p := s[..|s| - 1];
      SortTargetsSorted(g, p);
      var q := SortTargets(g, p);
      forall i | 0 <= i < |q| ensures q[i] != "run" {
        assert q[i] in multiset(q);
        assert q[i] in multiset(p);
      }
      InsertTargetSorted(g, s[|s| - 1], q);
    }
  }

  /** The checks `run` makes: one per chosen target that had not completed. */
  function CheckEvents(chosen: seq<string>, done: set<string>): (r: seq<Event>)
    ensures |r| <= |chosen|
    decreases |chosen|
  {
    if |chosen| == 0 then []
    else
      var x := chosen[|chosen| - 1];
      CheckEvents(chosen[..|chosen| - 1], done) + (if x in done then [] else [CheckDeps(x)])
  }

  /** The executions `run` makes: a target is processed the first time it
      comes up unless it had completed before; otherwise it only warns. */
  function ExecEvents(chosen: seq<string>, done: set<string>): (r: seq<Event>)
    ensures |r| == |chosen|
    decreases |chosen|
  {
    if |chosen| == 0 then []
    else
      var prev, x := chosen[..|chosen| - 1], chosen[|chosen| - 1];
      ExecEvents(prev, done) + [if x in done || x in prev then AlreadyExecuted(x) else Process(x)]
  }

  /** `run` checks in one phase and executes in the next: the events of the
      first are all checks, those of the second none. */
  lemma {:induction false} PhasesApart(chosen: seq<string>, done: set<string>)
    ensures forall e :: e in CheckEvents(chosen, done) ==> e.CheckDeps?
    ensures forall e :: e in ExecEvents(chosen, done) ==> !e.CheckDeps?
    decreases |chosen|
  {
    if |chosen| > 0 {
      PhasesApart(chosen[..|chosen| - 1], done);
    }
  }

  lemma CheckEventsStep(chosen: seq<string>, i: int, done: set<string>)
    requires 0 <= i < |chosen|
    ensures CheckEvents(chosen[..i + 1], done) ==
      CheckEvents(chosen[..i], done) + (if chosen[i] in done then [] else [CheckDeps(chosen[i])])
  {
    assert chosen[..i + 1][..i] == chosen[..i];
  }

  lemma ExecEventsStep(chosen: seq<string>, i: int, done: set<string>)
    requires 0 <= i < |chosen|
    ensures ExecEvents(chosen[..i + 1], done) ==
      ExecEvents(chosen[..i], done) +
      [if chosen[i] in done || chosen[i] in NamesOf(chosen[..i]) then AlreadyExecuted(chosen[i]) else Process(chosen[i])]
    ensures NamesOf(chosen[..i + 1]) == NamesOf(chosen[..i]) + {chosen[i]}
  {
    assert chosen[..i + 1] == chosen[..i] + [chosen[i]];
    NamesOfSnoc(chosen[..i], chosen[i]);
  }

  /** How many times `e` occurs in `es`. */
  function Occurrences(es: seq<Event>, e: Event): nat
    decreases |es|
  {
    if |es| == 0 then 0
    else Occurrences(es[..|es| - 1], e) + (if es[|es| - 1] == e then 1 else 0)
  }

  lemma OccurrencesAppend(a: seq<Event>, b: seq<Event>, e: Event)
    ensures Occurrences(a + b, e) == Occurrences(a, e) + Occurrences(b, e)
    decreases |b|
  {
    if |b| > 0 {
      assert (a + b)[..|a + b| - 1] == a + b[..|b| - 1];
      OccurrencesAppend(a, b[..|b| - 1], e);
    } else {
      assert a + b == a;
    }
  }

  /** Each target is processed at most once: exactly once if it was chosen and
      had not completed before, never otherwise. */
  lemma {:induction false} ProcessedOnce(chosen: seq<string>, done: set<string>, n: string)
    ensures Occurrences(ExecEvents(chosen, done), Process(n)) == if n in chosen && n !in done then 1 else 0
    decreases |chosen|
  {
    if |chosen| > 0 {
      var prev, x := chosen[..|chosen| - 1], chosen[|chosen| - 1];
      ProcessedOnce(prev, done, n);
      var last := [if x in done || x in prev then AlreadyExecuted(x) else Process(x)];
      OccurrencesAppend(ExecEvents(prev, done), last, Process(n));
      assert Occurrences(last, Process(n)) == Occurrences([], Process(n)) + (if last[0] == Process(n) then 1 else 0) by {
        assert last[..0] == [];
      }
      assert n in chosen <==> n in prev || n == x by {
        assert chosen == prev + [x];
      }
    }
  }

  /** Python's `sorted()` applied to a set of names iterates in an order the
      program does not fix; sorted order stands for it. */
  function SetOrder(s: set<string>): seq<string> {
    SortedSet(s)
  }

  /** The outcome of `run`. */
  datatype Outcome =
    | InvalidDependency(dependency: string, target: string)  // `sys.exit("Invalid dependency ...")`
    | UnknownTarget(name: string)                            // `sys.exit("Target ... does not exist ...")`
    | CyclicDependency                                       // the final assertion of `topologicalSort`
    | Ran(chosen: seq<string>)                               // every chosen target checked, then executed

  /** The names placed on the levels of `levels`. */
  function Placed(levels: seq<seq<string>>): set<string> {
    set i, x | 0 <= i < |levels| && x in levels[i] :: x
  }

  class TargetManager {
    /** `_allTargets`, by name. */
    var allTargets: map<string, Target>
    /** The names of `_allTargets` in the order the dictionary keeps them:
        the order in which each was first added. */
    var order: seq<string>

    constructor()
      ensures allTargets == map[] && order == []
    {
      allTargets := map[];
      order := [];
    }

    /** `order` lists every registered name once. */
    ghost predicate Ordered()
      reads this
    {
      Distinct(order) && (forall i :: 0 <= i < |order| ==> order[i] in allTargets) &&
      forall n :: n in allTargets ==> n in order
    }

    /** Each target is registered under its own name, and its dependency set
        is the set of its dependency list. */
    ghost predicate Valid()
      reads this
    {
      Registered() && forall n :: n in allTargets ==> allTargets[n].dependencies == NamesOf(allTargets[n].dependencyList)
    }

    /** Each target is registered under its own name. */
    ghost predicate Registered()
      reads this
    {
      forall n :: n in allTargets ==> allTargets[n].name == n
    }

    /** `addTarget`: registers (or replaces) the target under its name; a
        replaced target keeps its place in the order. */
    method AddTarget(t: Target)
      requires Valid() && Ordered() && t.dependencies == NamesOf(t.dependencyList)
      modifies this
      ensures Valid() && Ordered() && allTargets == old(allTargets)[t.name := t]
      ensures order == if t.name in old(allTargets) then old(order) else old(order) + [t.name]
    {
      if t.name !in allTargets {
        order := order + [t.name];
      }
      allTargets := allTargets[t.name := t];
    }

    /** The position in `deps`, from `from` on, of the first name that is
        not a target, or `|deps|` when every one is. */
    function FirstMissing(deps: seq<string>, from: nat): (k: nat)
      reads this
      requires from <= |deps|
      ensures from <= k <= |deps|
      ensures forall i :: from <= i < k ==> deps[i] in allTargets
      ensures k < |deps| ==> deps[k] !in allTargets
      decreases |deps| - from
    {
      if from == |deps| || deps[from] !in allTargets then from else FirstMissing(deps, from + 1)
    }

    /** The position in `names`, from `from` on, of the first target with a
        dependency that is not a target, or `|names|` when there is none. */
    function FirstInvalid(names: seq<string>, from: nat): (k: nat)
      reads this
      requires from <= |names| && forall i :: 0 <= i < |names| ==> names[i] in allTargets
      ensures from <= k <= |names|
      ensures forall i :: from <= i < k ==> allTargets[names[i]].dependencies <= allTargets.Keys
      ensures k < |names| ==> !(allTargets[names[k]].dependencies <= allTargets.Keys)
      decreases |names| - from
    {
      if from == |names| || !(allTargets[names[from]].dependencies <= allTargets.Keys) then from
      else FirstInvalid(names, from + 1)
    }

    /** Every dependency is a target exactly when no target, in the order
        they were added, has an invalid one. */
    lemma ClosedIffNoInvalid()
      requires Valid() && Ordered()
      ensures Closed(Graph()) <==> FirstInvalid(order, 0) == |order|
    {
      GraphKeys();
      var k := FirstInvalid(order, 0);
      if k < |order| {
        var n := order[k];
        var d :| d in allTargets[n].dependencies && d !in allTargets;
        assert n in Graph() && d in Graph()[n] && d !in Graph();
      } else {
        forall n, d | n in Graph() && d in Graph()[n] ensures d in Graph() {
          var i :| 0 <= i < |order| && order[i] == n;
          assert allTargets[order[i]].dependencies <= allTargets.Keys;
        }
      }
    }

    /** The pair `run` reports as invalid: `n` is the first target, in the
        order the targets were added, with a dependency that is not a
        target, and `d` is the first such dependency of `n` in the order its
        dependency set is walked. */
    ghost predicate FirstBad(n: string, d: string)
      reads this
      requires Ordered()
    {
      var k := FirstInvalid(order, 0);
      k < |order| && n == order[k] &&
      var deps := SetOrder(allTargets[n].dependencies);
      var j := FirstMissing(deps, 0);
      j < |deps| && d == deps[j]
    }

    /** The first loop of `run`: every dependency of every target, in
        order, must be a target. */
    method CheckDependencies() returns (bad: Option<(string, string)>)
      requires Valid() && Ordered()
      ensures bad.None? <==> Closed(Graph())
      ensures bad.Some? ==> FirstBad(bad.value.0, bad.value.1)
    {
      ClosedIffNoInvalid();
      var i := 0;
      while i < |order|
        invariant 0 <= i <= |order| && FirstInvalid(order, i) == FirstInvalid(order, 0)
      {
        var t := allTargets[order[i]];
        var deps := SetOrder(t.dependencies);
        var j := 0;
        while j < |deps|
          invariant 0 <= j <= |deps| && FirstMissing(deps, j) == FirstMissing(deps, 0)
        {
          if deps[j] !in allTargets {
            assert deps[j] in t.dependencies;
            return Some((order[i], deps[j]));
          }
          j := j + 1;
        }
        assert t.dependencies <= allTargets.Keys;
        i := i + 1;
      }
      return None;
    }

    /** The dependency graph of the registered targets. */
    function Graph(): Graph
      reads this
    {
      map n | n in allTargets :: allTargets[n].dependencies
    }

    /** The names of the targets that have completed. */
    function CompletedNames(): set<string>
      reads this, allTargets.Values
    {
      set n | n in allTargets && allTargets[n].completed
    }

    lemma GraphKeys()
      ensures Graph().Keys == allTargets.Keys
      ensures forall n :: n in allTargets ==> Graph()[n] == allTargets[n].dependencies
    {
    }

    /** With every dependency valid, the dependencies of a registered target are registered. */
    lemma DepsRegistered(t: Target)
      requires Valid() && Closed(Graph()) && t.name in allTargets && allTargets[t.name] == t
      ensures t.dependencies <= allTargets.Keys
    {
      GraphKeys();
    }

    /** The targets `t` adds in front of itself when it is chosen without
        `--include-dependencies`: an alias whose dependencies must be built
        brings all its transitive dependencies, any other alias its direct
        dependencies, and a target that is not an alias nothing. */
    function AliasDeps(t: Target): (r: seq<string>)
      reads this
      requires Valid() && Closed(Graph()) && t.name in allTargets && allTargets[t.name] == t
      ensures forall i :: 0 <= i < |r| ==> r[i] in allTargets
      ensures !t.isAlias ==> r == []
      ensures t.isAlias && t.dependenciesMustBeBuilt ==> NamesOf(r) == AllDeps(Graph(), t.name)
      ensures t.isAlias && !t.dependenciesMustBeBuilt ==> NamesOf(r) == t.dependencies
    {
      var g := Graph();
      if !t.isAlias then []
      else if t.dependenciesMustBeBuilt then
        AllDepsInGraph(g, t.name);
        GraphKeys();
        SetOrder(AllDeps(g, t.name))
      else
        NamesOfElements(t.dependencyList);
        DepsRegistered(t);
        t.dependencyList
    }

    /** The targets chosen from `names` without `--include-dependencies`,
        before they are sorted: each target after what its alias brings. */
    function Expand(names: seq<string>): (r: seq<string>)
      reads this
      requires Valid() && Closed(Graph()) && NamesOf(names) <= allTargets.Keys
      ensures forall i :: 0 <= i < |r| ==> r[i] in allTargets
      decreases |names|
    {
      if |names| == 0 then []
      else
        var prev, last := names[..|names| - 1], names[|names| - 1];
        NamesOfSnoc(prev, last);
        Expand(prev) + AliasDeps(allTargets[last]) + [last]
    }

    /** Everything the aliases among `names` bring. */
    ghost function Brought(names: seq<string>): set<string>
      reads this
      requires Valid() && Closed(Graph()) && NamesOf(names) <= allTargets.Keys
      decreases |names|
    {
      if |names| == 0 then {}
      else
        var prev, last := names[..|names| - 1], names[|names| - 1];
        NamesOfSnoc(prev, last);
        Brought(prev) + NamesOf(AliasDeps(allTargets[last]))
    }

    /** What is chosen without `--include-dependencies` is exactly the named
        targets and what their aliases bring. */
    lemma {:induction false} ExpandContents(names: seq<string>)
      requires Valid() && Closed(Graph()) && NamesOf(names) <= allTargets.Keys
      ensures NamesOf(Expand(names)) == NamesOf(names) + Brought(names)
      decreases |names|
    {
      if |names| > 0 {
        var prev, last := names[..|names| - 1], names[|names| - 1];
        NamesOfSnoc(prev, last);
        assert names == prev + [last];
        ExpandContents(prev);
        NamesOfAppend(Expand(prev), AliasDeps(allTargets[last]), last);
      }
    }

    /** What `run` decides for `names`: the error it stops with (an invalid
        dependency, the first unknown name, a cycle among what is needed), or
        the targets it checks and executes. */
    ghost predicate Decides(names: seq<string>, includeDependencies: bool, outcome: Outcome)
      reads this
      requires Valid() && Ordered()
    {
      match outcome
      case InvalidDependency(d, n) => FirstBad(n, d)
      case UnknownTarget(x) => FirstUnknown(names, x)
      case CyclicDependency => includeDependencies && NeedsCycle(names)
      case Ran(chosen) => Chosen(names, includeDependencies, chosen)
    }

    /** Target `n` names a dependency `d` that is not a target. */
    ghost predicate BadDependency(n: string, d: string)
      reads this
    {
      n in allTargets && d in allTargets[n].dependencies && d !in allTargets
    }

    /** The pair reported is an invalid dependency, and every target added
        before `n` has only valid ones. */
    lemma FirstBadIsBad(n: string, d: string)
      requires Ordered() && FirstBad(n, d)
      ensures BadDependency(n, d)
      ensures forall i :: 0 <= i < |order| && order[i] == n ==>
        forall j :: 0 <= j < i ==> allTargets[order[j]].dependencies <= allTargets.Keys
    {
      var k := FirstInvalid(order, 0);
      forall i | 0 <= i < |order| && order[i] == n ensures i == k {
        assert order[i] == order[k];
      }
    }

    /** The dependencies are valid and `x` is the first name that is not a target. */
    ghost predicate FirstUnknown(names: seq<string>, x: string)
      reads this
      requires Valid()
    {
      Closed(Graph()) && x !in allTargets &&
      exists k :: 0 <= k < |names| && names[k] == x && NamesOf(names[..k]) <= allTargets.Keys
    }

    /** The dependencies are valid, every name is a target, and what the
        names need holds a cycle. */
    ghost predicate NeedsCycle(names: seq<string>)
      reads this
      requires Valid()
    {
      Closed(Graph()) && NamesOf(names) <= allTargets.Keys &&
      !AcyclicOn(Graph(), Reach(Graph(), NamesOf(names)))
    }

    /** The targets `run` executes, in order: without `--include-dependencies`
        the named ones and what their aliases bring, sorted with `__lt__`;
        with it, the levels of the topological sort one after the other,
        which lists each needed target once, after all its dependencies. */
    ghost predicate Chosen(names: seq<string>, includeDependencies: bool, chosen: seq<string>)
      reads this
      requires Valid()
    {
      Closed(Graph()) && NamesOf(names) <= allTargets.Keys && NamesOf(chosen) <= allTargets.Keys &&
      if includeDependencies then
        AcyclicOn(Graph(), Reach(Graph(), NamesOf(names))) &&
        chosen == Flatten(Rounds(Graph(), Reach(Graph(), NamesOf(names)), {})) &&
        Distinct(chosen) && NamesOf(chosen) == Reach(Graph(), NamesOf(names)) && DepsFirst(Graph(), chosen)
      else
        chosen == SortTargets(Graph(), Expand(names))
    }

    /** Which error `run` stops with, or whether it runs, depends only on the
        targets and the names: invalid dependencies first, then unknown
        names, then (with `--include-dependencies`) cycles. */
    lemma DecidesDetermined(names: seq<string>, includeDependencies: bool, outcome: Outcome)
      requires Valid() && Ordered() && Decides(names, includeDependencies, outcome)
      ensures outcome.InvalidDependency? <==> !Closed(Graph())
      ensures outcome.UnknownTarget? <==> Closed(Graph()) && !(NamesOf(names) <= allTargets.Keys)
      ensures outcome.CyclicDependency? <==>
        includeDependencies && Closed(Graph()) && NamesOf(names) <= allTargets.Keys &&
        !AcyclicOn(Graph(), Reach(Graph(), NamesOf(names)))
    {
      match outcome
      case InvalidDependency(d, n) =>
        ClosedIffNoInvalid();
      case UnknownTarget(x) =>
        NamesOfElements(names);
      case CyclicDependency =>
      case Ran(chosen) =>
    }

    /** `run`: validate every target's dependencies, look up the named
        targets, choose what to execute (see `Expand` and `TopologicalSort`),
        then check every chosen target before executing any of them. */
    method Run(names: seq<string>, includeDependencies: bool, trace: Trace) returns (outcome: Outcome)
      requires Valid() && Ordered()
      modifies allTargets.Values, trace
      ensures old(Decides(names, includeDependencies, outcome))
      ensures !outcome.Ran? ==> trace.events == old(trace.events) && unchanged(allTargets.Values)
      ensures outcome.Ran? ==>
        trace.events == old(trace.events) + CheckEvents(outcome.chosen, old(CompletedNames())) +
                        ExecEvents(outcome.chosen, old(CompletedNames()))
      ensures outcome.Ran? ==> CompletedNames() == old(CompletedNames()) + NamesOf(outcome.chosen)
    {
      outcome := Resolve(names, includeDependencies);
      if outcome.Ran? {
        CheckAndExecute(outcome.chosen, trace);
      }
    }

    /** The part of `run` that decides what to do: validate the dependencies,
        look the names up and choose the targets, changing nothing. */
    method Resolve(names: seq<string>, includeDependencies: bool) returns (outcome: Outcome)
      requires Valid() && Ordered()
      ensures Decides(names, includeDependencies, outcome)
      ensures outcome.Ran? ==> NamesOf(outcome.chosen) <= allTargets.Keys
    {
      var g := Graph();
      GraphKeys();
      var bad := CheckDependencies();
      if bad.Some? {
        return InvalidDependency(bad.value.1, bad.value.0);
      }
      var unknown := Lookup(names);
      if unknown.Some? {
        return UnknownTarget(unknown.value);
      }
      var chosen, cyclic := Choose(names, includeDependencies);
      if cyclic {
        return CyclicDependency;
      }
      return Ran(chosen);
    }

    /** The lookup loop of `run`: the first name that is not a target, if any. */
    method Lookup(names: seq<string>) returns (unknown: Option<string>)
      ensures unknown.None? <==> NamesOf(names) <= allTargets.Keys
      ensures unknown.Some? ==>
        unknown.value !in allTargets &&
        exists k :: 0 <= k < |names| && names[k] == unknown.value && NamesOf(names[..k]) <= allTargets.Keys
    {
      var k := 0;
      while k < |names|
        invariant 0 <= k <= |names| && NamesOf(names[..k]) <= allTargets.Keys
      {
        if names[k] !in allTargets {
          NamesOfElements(names);
          return Some(names[k]);
        }
        NamesOfSnoc(names[..k], names[k]);
        assert names[..k + 1] == names[..k] + [names[k]];
        k := k + 1;
      }
      assert names[..k] == names;
      return None;
    }

    /** The middle of `run`: without `--include-dependencies` the named
        targets and what their aliases bring, sorted with `__lt__`; with it,
        the levels of the topological sort one after the other, or `cyclic`
        when the sort's final assertion fails. */
    method Choose(names: seq<string>, includeDependencies: bool) returns (chosen: seq<string>, cyclic: bool)
      requires Valid() && Closed(Graph()) && NamesOf(names) <= allTargets.Keys
      ensures cyclic <==> includeDependencies && !AcyclicOn(Graph(), Reach(Graph(), NamesOf(names)))
      ensures !cyclic ==> Chosen(names, includeDependencies, chosen)
    {
      var g := Graph();
      if !includeDependencies {
        chosen := ExpandAll(names);
        chosen := SortTargets(g, chosen);
        NamesOfWithin(chosen, allTargets.Keys);
        cyclic := false;
      } else {
        var levels, ok := TopologicalSort(g, names);
        chosen := FlattenLevels(levels);
        cyclic := !ok;
        FlattenLevelled(g, levels);
      }
    }

    /** The loop over the explicitly chosen targets when dependencies are not
        included: each alias brings its dependencies, then comes the target. */
    method ExpandAll(names: seq<string>) returns (chosen: seq<string>)
      requires Valid() && Closed(Graph()) && NamesOf(names) <= allTargets.Keys
      ensures chosen == Expand(names)
    {
      var g := Graph();
      chosen := [];
      var i := 0;
      while i < |names|
        invariant 0 <= i <= |names| && chosen == Expand(names[..i])
      {
        var t := allTargets[names[i]];
        if t.isAlias {
          if t.dependenciesMustBeBuilt {
            AllDepsInGraph(g, t.name);
            chosen := chosen + SetOrder(AllDeps(g, t.name));
          } else {
            chosen := chosen + t.dependencyList;
          }
        }
        chosen := chosen + [t.name];
        assert names[..i + 1][..i] == names[..i];
        i := i + 1;
      }
      assert names[..i] == names;
    }

    /** The two final loops of `run`: every chosen target is checked, then
        every chosen target is executed. */
    method CheckAndExecute(chosen: seq<string>, trace: Trace)
      requires Registered() && NamesOf(chosen) <= allTargets.Keys
      modifies allTargets.Values, trace
      ensures trace.events ==
        old(trace.events) + CheckEvents(chosen, old(CompletedNames())) + ExecEvents(chosen, old(CompletedNames()))
      ensures CompletedNames() == old(CompletedNames()) + NamesOf(chosen)
    {
      NamesOfElements(chosen);
      CheckAll(chosen, trace);
      ExecuteAll(chosen, trace);
    }

    /** `for target in chosenTargets: target.checkSystemDeps(config)` */
    method CheckAll(chosen: seq<string>, trace: Trace)
      requires Registered() && forall i :: 0 <= i < |chosen| ==> chosen[i] in allTargets
      modifies allTargets.Values, trace
      ensures trace.events == old(trace.events) + CheckEvents(chosen, old(CompletedNames()))
      ensures CompletedNames() == old(CompletedNames())
      ensures forall j :: 0 <= j < |chosen| && chosen[j] !in CompletedNames() ==> allTargets[chosen[j]].hasProject
    {
      ghost var done := CompletedNames();
      var i := 0;
      while i < |chosen|
        invariant 0 <= i <= |chosen|
        invariant trace.events == old(trace.events) + CheckEvents(chosen[..i], done)
        invariant forall n :: n in allTargets ==> allTargets[n].completed == old(allTargets[n].completed)
        invariant forall j :: 0 <= j < i && chosen[j] !in done ==> allTargets[chosen[j]].hasProject
      {
        var t := allTargets[chosen[i]];
        t.CheckSystemDeps(trace);
        CheckEventsStep(chosen, i, done);
        i := i + 1;
      }
      assert chosen[..i] == chosen;
      assert CompletedNames() == done;
    }

    /** `for target in chosenTargets: target.execute()` */
    method ExecuteAll(chosen: seq<string>, trace: Trace)
      requires Registered() && forall i :: 0 <= i < |chosen| ==> chosen[i] in allTargets
      requires forall j :: 0 <= j < |chosen| && chosen[j] !in CompletedNames() ==> allTargets[chosen[j]].hasProject
      modifies allTargets.Values, trace
      ensures trace.events == old(trace.events) + ExecEvents(chosen, old(CompletedNames()))
      ensures CompletedNames() == old(CompletedNames()) + NamesOf(chosen)
    {
      ghost var done := CompletedNames();
      CompletedAreNames();
      assert chosen[..0] == [];
      var i := 0;
      while i < |chosen|
        invariant 0 <= i <= |chosen|
        invariant trace.events == old(trace.events) + ExecEvents(chosen[..i], done)
        invariant CompletedAre(done + NamesOf(chosen[..i]))
        invariant forall j :: 0 <= j < |chosen| && chosen[j] !in done ==> allTargets[chosen[j]].hasProject
      {
        ExecuteNext(chosen, i, done, old(trace.events), trace);
        i := i + 1;
      }
      assert chosen[..i] == chosen;
      NamesOfElements(chosen);
      CompletedNamesAre(done + NamesOf(chosen));
    }

    /** The completed targets are those named in `s`. */
    ghost predicate CompletedAre(s: set<string>)
      reads this, allTargets.Values
    {
      forall n :: n in allTargets ==> (allTargets[n].completed <==> n in s)
    }

    lemma CompletedAreNames()
      ensures CompletedAre(CompletedNames())
    {
    }

    lemma CompletedNamesAre(s: set<string>)
      requires CompletedAre(s) && s <= allTargets.Keys
      ensures CompletedNames() == s
    {
    }

    /** One turn of the loop in `ExecuteAll`: `chosen[i].execute()` after
        the first `i` chosen targets, when those named in `done` had
        completed before and the events `before` had happened. */
    method ExecuteNext(chosen: seq<string>, i: nat, ghost done: set<string>, ghost before: seq<Event>, trace: Trace)
      requires Registered() && i < |chosen| && chosen[i] in allTargets
      requires CompletedAre(done + NamesOf(chosen[..i]))
      requires chosen[i] in done || allTargets[chosen[i]].hasProject
      requires trace.events == before + ExecEvents(chosen[..i], done)
      modifies allTargets[chosen[i]], trace
      ensures trace.events == before + ExecEvents(chosen[..i + 1], done)
      ensures CompletedAre(done + NamesOf(chosen[..i + 1]))
      ensures forall n :: n in allTargets ==> allTargets[n].hasProject == old(allTargets[n].hasProject)
    {
      ExecEventsStep(chosen, i, done);
      var t := allTargets[chosen[i]];
      t.Execute(trace);
      forall n | n in allTargets
        ensures allTargets[n].completed <==> n in done + NamesOf(chosen[..i + 1])
      {
        if n != chosen[i] {
          assert allTargets[n].name != t.name;
        }
      }
    }
  }

  /** `topologicalSort`: the targets and everything they need, level by
      level; each level holds the targets whose dependencies are all on
      earlier levels, in name order. `ok` is false when the final assertion
      fails because what remains depends on itself. */
  method TopologicalSort(g: Graph, targets: seq<string>) returns (levels: seq<seq<string>>, ok: bool)
    requires Closed(g) && NamesOf(targets) <= g.Keys
    ensures Reach(g, NamesOf(targets)) <= g.Keys
    ensures Levelled(g, levels)
    ensures Placed(levels) <= Reach(g, NamesOf(targets))
    ensures ok ==> Placed(levels) == Reach(g, NamesOf(targets))
    ensures ok <==> AcyclicOn(g, Reach(g, NamesOf(targets)))
    ensures levels == Rounds(g, Reach(g, NamesOf(targets)), {})
  {
    var s := Reach(g, NamesOf(targets));
    ReachClosed(g, NamesOf(targets));
    var data := Waiting(g, s);
    levels := [];
    ghost var rank: map<string, nat> := map[];
    SortStart(g, s);
    RoundsBegin(g, s, rank);
    while true
      invariant Pending(g, s, data, rank) && Ranked(g, rank, levels)
      invariant levels + Rounds(g, s, rank.Keys) == Rounds(g, s, {})
      decreases |data.Keys|
    {
      var ordered := Ready(data);
      ReadyIsReadyAfter(g, s, data, rank);
      if ordered == {} {
        break;
      }
      var level := SortedSet(ordered);
      var rank' := Promote(rank, ordered, |levels|);
      var data' := Settle(data, ordered);
      LayerStep(g, s, data, rank, levels, ordered, data', rank');
      RoundsStep(g, s, rank.Keys, ordered, rank'.Keys, levels);
      rank, levels, data := rank', levels + [level], data';
    }
    RoundsDone(g, s, rank.Keys, levels);
    ok := data == map[];
    SortOutcome(g, s, data, rank, levels);
  }

  lemma RoundsBegin(g: Graph, s: set<string>, rank: map<string, nat>)
    requires rank == map[]
    ensures [] + Rounds(g, s, rank.Keys) == Rounds(g, s, {})
  {
    assert rank.Keys == {};
  }

  /** When no name is ready, the levels yielded so far are all there are. */
  lemma RoundsDone(g: Graph, s: set<string>, placed: set<string>, levels: seq<seq<string>>)
    requires ReadyAfter(g, s, placed) == {} && levels + Rounds(g, s, placed) == Rounds(g, s, {})
    ensures levels == Rounds(g, s, {})
  {
    assert levels + [] == levels;
  }

  /** The names of `s` not placed yet whose dependencies all are. */
  function ReadyAfter(g: Graph, s: set<string>, placed: set<string>): set<string> {
    set x | x in s && x in g && x !in placed && g[x] <= placed
  }

  /** The levels the sort yields once the names of `placed` are on earlier
      levels: the next level is every name whose dependencies are all
      placed, in name order, and the sort stops when no name is ready. */
  function Rounds(g: Graph, s: set<string>, placed: set<string>): (r: seq<seq<string>>)
    ensures ReadyAfter(g, s, placed) == {} <==> r == []
    decreases |s - placed|
  {
    var ready := ReadyAfter(g, s, placed);
    if ready == {} then []
    else
      RoundShrinks(s, placed, ready);
      [SortedSet(ready)] + Rounds(g, s, placed + ready)
  }

  lemma RoundShrinks(s: set<string>, placed: set<string>, ready: set<string>)
    requires ready != {} && ready <= s - placed
    ensures |s - (placed + ready)| < |s - placed|
  {
    assert s - (placed + ready) == (s - placed) - ready;
    CardDiff(s - placed, ready);
  }

  /** The names waiting for nothing are those whose dependencies are all placed. */
  lemma ReadyIsReadyAfter(g: Graph, s: set<string>, data: map<string, set<string>>, rank: map<string, nat>)
    requires Pending(g, s, data, rank)
    ensures Ready(data) == ReadyAfter(g, s, rank.Keys)
  {
    forall x | x in Ready(data) ensures x in ReadyAfter(g, s, rank.Keys) {
      DiffEmpty(g[x], rank.Keys);
    }
    forall x | x in ReadyAfter(g, s, rank.Keys) ensures x in Ready(data) {
      assert x in data;
      DiffEmpty(g[x], rank.Keys);
    }
  }

  lemma DiffEmpty(a: set<string>, b: set<string>)
    ensures a - b == {} <==> a <= b
  {
    if a <= b {
      forall x | x in a - b ensures false {
      }
    }
    if a - b == {} {
      forall x | x in a ensures x in b {
        assert x !in a - b;
      }
    }
  }

  /** One round of the loop yields the next level of `Rounds`. */
  lemma RoundsStep(g: Graph, s: set<string>, placed: set<string>, ordered: set<string>, placed': set<string>,
                   levels: seq<seq<string>>)
    requires ordered == ReadyAfter(g, s, placed) && ordered != {} && placed' == placed + ordered
    requires levels + Rounds(g, s, placed) == Rounds(g, s, {})
    ensures (levels + [SortedSet(ordered)]) + Rounds(g, s, placed') == Rounds(g, s, {})
  {
    RoundsUnfold(g, s, placed, ordered, placed');
    LevelsAssoc(levels, [SortedSet(ordered)], Rounds(g, s, placed'));
  }

  lemma RoundsUnfold(g: Graph, s: set<string>, placed: set<string>, ordered: set<string>, placed': set<string>)
    requires ordered == ReadyAfter(g, s, placed) && ordered != {} && placed' == placed + ordered
    ensures Rounds(g, s, placed) == [SortedSet(ordered)] + Rounds(g, s, placed')
  {
  }

  lemma LevelsAssoc(a: seq<seq<string>>, b: seq<seq<string>>, c: seq<seq<string>>)
    ensures (a + b) + c == a + (b + c)
  {
  }

  /** Before the first round every name waits for all its dependencies. */
  function Waiting(g: Graph, s: set<string>): (r: map<string, set<string>>)
    requires s <= g.Keys
    ensures r.Keys == s && forall x :: x in r ==> r[x] == g[x]
  {
    map x | x in s :: g[x]
  }

  lemma SortStart(g: Graph, s: set<string>)
    requires s <= g.Keys && forall x, d :: x in s && d in g[x] ==> d in s
    ensures Pending(g, s, Waiting(g, s), map[]) && Ranked(g, map[], [])
  {
  }

  /** The names waiting for nothing. */
  function Ready(data: map<string, set<string>>): (r: set<string>)
    ensures forall x :: x in r <==> x in data && data[x] == {}
  {
    set x | x in data && data[x] == {}
  }

  /** The names of a list. */
  function NamesOf(s: seq<string>): set<string> {
    set x | x in s
  }

  lemma NamesOfSnoc(s: seq<string>, x: string)
    ensures NamesOf(s + [x]) == NamesOf(s) + {x}
  {
  }

  lemma NamesOfAppend(a: seq<string>, b: seq<string>, x: string)
    ensures NamesOf(a + b + [x]) == NamesOf(a) + NamesOf(b) + {x}
  {
  }

  lemma NamesOfWithin(s: seq<string>, k: set<string>)
    requires forall i :: 0 <= i < |s| ==> s[i] in k
    ensures NamesOf(s) <= k
  {
  }

  lemma NamesOfElements(s: seq<string>)
    ensures forall i :: 0 <= i < |s| ==> s[i] in NamesOf(s)
  {
  }

  /** The loop over the levels of the sort when dependencies are included:
      the levels one after the other. */
  method FlattenLevels(levels: seq<seq<string>>) returns (chosen: seq<string>)
    ensures chosen == Flatten(levels)
  {
    chosen := [];
    var i := 0;
    while i < |levels|
      invariant 0 <= i <= |levels| && chosen == Flatten(levels[..i])
    {
      chosen := chosen + levels[i];
      assert levels[..i + 1][..i] == levels[..i];
      i := i + 1;
    }
    assert levels[..i] == levels;
  }

  /** The levels of a topological sort, one after the other. */
  function Flatten(levels: seq<seq<string>>): seq<string>
    decreases |levels|
  {
    if |levels| == 0 then [] else Flatten(levels[..|levels| - 1]) + levels[|levels| - 1]
  }

  /** Every dependency of a target comes before it. */
  ghost predicate DepsFirst(g: Graph, s: seq<string>) {
    forall i :: 0 <= i < |s| ==> s[i] in g && g[s[i]] <= NamesOf(s[..i])
  }

  /** Laid out one level after another, a topological sort lists each
      name once, after all its dependencies. */
  lemma {:induction false} FlattenLevelled(g: Graph, levels: seq<seq<string>>)
    requires Levelled(g, levels)
    ensures Distinct(Flatten(levels)) && NamesOf(Flatten(levels)) == Placed(levels)
    ensures DepsFirst(g, Flatten(levels))
    decreases |levels|
  {
    if |levels| > 0 {
      var n := |levels| - 1;
      var prefix, last := levels[..n], levels[n];
      LevelledPrefix(g, levels);
      FlattenLevelled(g, prefix);
      PlacedSnoc(levels);
      LastLevelFresh(levels);
      LastLevelDeps(g, levels);
      FlattenStep(g, Flatten(prefix), last, Placed(prefix), Placed(levels));
    }
  }

  /** A level of names that are new, in name order, and whose dependencies
      are all listed, may follow a topological order. */
  lemma FlattenStep(g: Graph, f: seq<string>, last: seq<string>, before: set<string>, after: set<string>)
    requires Distinct(f) && NamesOf(f) == before && DepsFirst(g, f)
    requires StrictlySorted(last) && NamesOf(last) !! before
    requires forall x :: x in last ==> x in g && g[x] <= before
    requires after == before + NamesOf(last)
    ensures Distinct(f + last) && NamesOf(f + last) == after && DepsFirst(g, f + last)
  {
    StrictlySortedDistinct(last);
    AppendDistinct(f, last);
    DepsFirstAppend(g, f, last);
  }

  /** The names of the last level are on no earlier level. */
  lemma LastLevelFresh(levels: seq<seq<string>>)
    requires LevelsDisjoint(levels) && |levels| > 0
    ensures NamesOf(levels[|levels| - 1]) !! Placed(levels[..|levels| - 1])
  {
    var n := |levels| - 1;
    forall x | x in levels[n] ensures x !in Placed(levels[..n]) {
      forall i | 0 <= i < n ensures x !in levels[..n][i] {
        assert levels[..n][i] == levels[i];
      }
    }
  }

  /** The dependencies of the last level are placed on earlier levels. */
  lemma LastLevelDeps(g: Graph, levels: seq<seq<string>>)
    requires LevelsAfterDeps(g, levels) && |levels| > 0
    ensures forall x :: x in levels[|levels| - 1] ==> x in g && g[x] <= Placed(levels[..|levels| - 1])
  {
  }

  /** Names whose dependencies are all listed already may follow a list
      that keeps dependencies first. */
  lemma DepsFirstAppend(g: Graph, f: seq<string>, last: seq<string>)
    requires DepsFirst(g, f)
    requires forall x :: x in last ==> x in g && g[x] <= NamesOf(f)
    ensures DepsFirst(g, f + last)
  {
    var c := f + last;
    forall k | 0 <= k < |c| ensures c[k] in g && g[c[k]] <= NamesOf(c[..k]) {
      if k < |f| {
        assert c[..k] == f[..k];
      } else {
        assert c[k] == last[k - |f|];
        assert c[..k] == f + last[..k - |f|];
      }
    }
  }

  /** The first levels of a topological sort form one too. */
  lemma LevelledPrefix(g: Graph, levels: seq<seq<string>>)
    requires Levelled(g, levels) && |levels| > 0
    ensures Levelled(g, levels[..|levels| - 1])
  {
    var p := levels[..|levels| - 1];
    forall i | 0 <= i < |p| ensures p[..i] == levels[..i] {
    }
  }

  /** Placing one more level adds its names. */
  lemma PlacedSnoc(levels: seq<seq<string>>)
    requires |levels| > 0
    ensures Placed(levels) == Placed(levels[..|levels| - 1]) + NamesOf(levels[|levels| - 1])
  {
    var n := |levels| - 1;
    forall x | x in Placed(levels) ensures x in Placed(levels[..n]) + NamesOf(levels[n]) {
      var i :| 0 <= i < |levels| && x in levels[i];
      if i < n {
        assert levels[..n][i] == levels[i];
      }
    }
    forall x | x in Placed(levels[..n]) ensures x in Placed(levels) {
      var i :| 0 <= i < n && x in levels[..n][i];
      assert levels[..n][i] == levels[i];
    }
  }

  lemma StrictlySortedDistinct(s: seq<string>)
    requires StrictlySorted(s)
    ensures Distinct(s)
  {
    forall i, j | 0 <= i < j < |s| ensures s[i] != s[j] {
      LessIrreflexive(s[i]);
    }
  }

  lemma AppendDistinct(a: seq<string>, b: seq<string>)
    requires Distinct(a) && Distinct(b) && NamesOf(a) !! NamesOf(b)
    ensures Distinct(a + b)
  {
    var c := a + b;
    forall i, j | 0 <= i < j < |c| ensures c[i] != c[j] {
      if i >= |a| {
        assert c[i] == b[i - |a|] && c[j] == b[j - |a|];
      } else if j >= |a| {
        assert c[j] == b[j - |a|] && c[j] in NamesOf(b);
        assert c[i] == a[i] && c[i] in NamesOf(a);
      }
    }
  }

  /** Where the sort stops: its levels and whether it placed everything. */
  lemma SortOutcome(g: Graph, s: set<string>, data: map<string, set<string>>, rank: map<string, nat>,
                    levels: seq<seq<string>>)
    requires Closed(g) && Pending(g, s, data, rank) && Ranked(g, rank, levels)
    requires forall x :: x in data ==> data[x] != {}
    ensures Levelled(g, levels) && Placed(levels) <= s
    ensures data == map[] ==> Placed(levels) == s
    ensures data == map[] <==> AcyclicOn(g, s)
  {
    RankedLevelled(g, rank, levels);
    if data == map[] {
      RankedAcyclicOn(g, s, rank, levels);
    } else {
      StuckCyclic(g, s, data, rank);
    }
  }

  /** The levels of a topological sort: each non-empty and in name order, no
      name on two levels, each dependency of a name on an earlier level. */
  ghost predicate Levelled(g: Graph, levels: seq<seq<string>>) {
    LevelsSorted(levels) && LevelsDisjoint(levels) && LevelsAfterDeps(g, levels)
  }

  ghost predicate LevelsDisjoint(levels: seq<seq<string>>) {
    forall i, j, x :: 0 <= i < j < |levels| && x in levels[i] ==> x !in levels[j]
  }

  ghost predicate LevelsAfterDeps(g: Graph, levels: seq<seq<string>>) {
    forall i, x :: 0 <= i < |levels| && x in levels[i] ==> x in g && g[x] <= Placed(levels[..i])
  }

  /** `rank` gives the level of each name placed so far, and each dependency
      of a placed name is placed on a lower level. */
  ghost predicate Ranked(g: Graph, rank: map<string, nat>, levels: seq<seq<string>>) {
    RankIndexes(rank, levels) && LevelsRank(rank, levels) && RankOrdersDeps(g, rank) && LevelsSorted(levels)
  }

  ghost predicate RankIndexes(rank: map<string, nat>, levels: seq<seq<string>>) {
    forall x :: x in rank ==> rank[x] < |levels| && x in levels[rank[x]]
  }

  ghost predicate LevelsRank(rank: map<string, nat>, levels: seq<seq<string>>) {
    forall i, x :: 0 <= i < |levels| && x in levels[i] ==> x in rank && rank[x] == i
  }

  ghost predicate RankOrdersDeps(g: Graph, rank: map<string, nat>) {
    forall x :: x in rank ==> x in g && forall d :: d in g[x] ==> d in rank && rank[d] < rank[x]
  }

  ghost predicate LevelsSorted(levels: seq<seq<string>>) {
    forall i :: 0 <= i < |levels| ==> |levels[i]| > 0 && StrictlySorted(levels[i])
  }

  /** `data` maps every name of `s` not yet placed to its unplaced dependencies. */
  ghost predicate Pending(g: Graph, s: set<string>, data: map<string, set<string>>, rank: map<string, nat>) {
    s <= g.Keys && (forall x, d :: x in s && d in g[x] ==> d in s) &&
    data.Keys !! rank.Keys && data.Keys + rank.Keys == s &&
    forall x :: x in data ==> data[x] == g[x] - rank.Keys
  }

  /** The ranks after a round that places `ordered` on level `k`. */
  ghost function Promote(rank: map<string, nat>, ordered: set<string>, k: nat): (r: map<string, nat>)
    ensures r.Keys == rank.Keys + ordered
    ensures forall x :: x in r ==> r[x] == if x in ordered then k else rank[x]
  {
    rank + map x | x in ordered :: k
  }

  /** What remains pending after a round that places `ordered`. */
  function Settle(data: map<string, set<string>>, ordered: set<string>): (r: map<string, set<string>>)
    ensures r.Keys == data.Keys - ordered
    ensures forall x :: x in r ==> r[x] == data[x] - ordered
  {
    map x | x in data && x !in ordered :: data[x] - ordered
  }

  /** One round of the sort keeps the bookkeeping and shrinks what is pending. */
  lemma LayerStep(g: Graph, s: set<string>, data: map<string, set<string>>, rank: map<string, nat>,
                  levels: seq<seq<string>>, ordered: set<string>,
                  data': map<string, set<string>>, rank': map<string, nat>)
    requires Pending(g, s, data, rank) && Ranked(g, rank, levels)
    requires ordered != {} && forall x :: x in ordered ==> x in data && data[x] == {}
    requires rank' == Promote(rank, ordered, |levels|)
    requires data' == Settle(data, ordered)
    ensures Pending(g, s, data', rank') && Ranked(g, rank', levels + [SortedSet(ordered)])
    ensures |data'.Keys| < |data.Keys|
  {
    PendingStep(g, s, data, rank, ordered, data', rank', |levels|);
    RankedStep(g, data, rank, levels, ordered, rank');
    PendingShrinks(data, ordered, data');
  }

  lemma PendingShrinks(data: map<string, set<string>>, ordered: set<string>, data': map<string, set<string>>)
    requires ordered <= data.Keys && ordered != {}
    requires data' == Settle(data, ordered)
    ensures |data'.Keys| < |data.Keys|
  {
    assert data'.Keys == data.Keys - ordered;
    CardDiff(data.Keys, ordered);
  }

  lemma PendingStep(g: Graph, s: set<string>, data: map<string, set<string>>, rank: map<string, nat>,
                    ordered: set<string>, data': map<string, set<string>>, rank': map<string, nat>, k: nat)
    requires Pending(g, s, data, rank) && ordered <= data.Keys
    requires rank' == Promote(rank, ordered, k)
    requires data' == Settle(data, ordered)
    ensures Pending(g, s, data', rank')
  {
    assert rank'.Keys == rank.Keys + ordered;
  }

  lemma RankedStep(g: Graph, data: map<string, set<string>>, rank: map<string, nat>,
                   levels: seq<seq<string>>, ordered: set<string>, rank': map<string, nat>)
    requires data.Keys !! rank.Keys && forall x :: x in data ==> x in g && data[x] == g[x] - rank.Keys
    requires Ranked(g, rank, levels)
    requires ordered != {} && forall x :: x in ordered ==> x in data && data[x] == {}
    requires rank' == Promote(rank, ordered, |levels|)
    ensures Ranked(g, rank', levels + [SortedSet(ordered)])
  {
    var levels' := levels + [SortedSet(ordered)];
    RankedDeps(g, data, rank, |levels|, ordered, rank');
    RankedLevels(rank, levels, ordered, rank', levels');
    LevelsSortedStep(levels, ordered, levels');
  }

  lemma LevelsSortedStep(levels: seq<seq<string>>, ordered: set<string>, levels': seq<seq<string>>)
    requires LevelsSorted(levels) && ordered != {} && levels' == levels + [SortedSet(ordered)]
    ensures LevelsSorted(levels')
  {
    SortedSetSorted(ordered);
  }

  /** The names placed by a round wait for nothing unplaced, so their
      dependencies sit on lower levels. */
  lemma RankedDeps(g: Graph, data: map<string, set<string>>, rank: map<string, nat>,
                   k: nat, ordered: set<string>, rank': map<string, nat>)
    requires data.Keys !! rank.Keys && forall x :: x in data ==> x in g && data[x] == g[x] - rank.Keys
    requires RankOrdersDeps(g, rank)
    requires forall x :: x in rank ==> rank[x] < k
    requires forall x :: x in ordered ==> x in data && data[x] == {}
    requires rank' == Promote(rank, ordered, k)
    ensures RankOrdersDeps(g, rank')
  {
    forall x, d | x in rank' && d in g[x] ensures d in rank' && rank'[d] < rank'[x] {
      if x in ordered {
        assert d !in data[x];
      } else {
        assert x in rank;
      }
      assert d in rank;
      assert d !in data;
    }
  }

  /** The round's level holds exactly the names it ranks. */
  lemma RankedLevels(rank: map<string, nat>, levels: seq<seq<string>>, ordered: set<string>,
                     rank': map<string, nat>, levels': seq<seq<string>>)
    requires RankIndexes(rank, levels) && LevelsRank(rank, levels)
    requires ordered !! rank.Keys
    requires rank' == Promote(rank, ordered, |levels|)
    requires levels' == levels + [SortedSet(ordered)]
    ensures RankIndexes(rank', levels') && LevelsRank(rank', levels')
  {
    RankedIndexes(rank, levels, ordered, rank', levels');
    RankedRanks(rank, levels, ordered, rank', levels');
  }

  lemma RankedIndexes(rank: map<string, nat>, levels: seq<seq<string>>, ordered: set<string>,
                      rank': map<string, nat>, levels': seq<seq<string>>)
    requires RankIndexes(rank, levels)
    requires rank' == Promote(rank, ordered, |levels|)
    requires levels' == levels + [SortedSet(ordered)]
    ensures RankIndexes(rank', levels')
  {
    forall x | x in rank' ensures rank'[x] < |levels'| && x in levels'[rank'[x]] {
      if x !in ordered {
        assert levels'[rank[x]] == levels[rank[x]];
      }
    }
  }

  lemma RankedRanks(rank: map<string, nat>, levels: seq<seq<string>>, ordered: set<string>,
                    rank': map<string, nat>, levels': seq<seq<string>>)
    requires LevelsRank(rank, levels)
    requires ordered !! rank.Keys
    requires rank' == Promote(rank, ordered, |levels|)
    requires levels' == levels + [SortedSet(ordered)]
    ensures LevelsRank(rank', levels')
  {
    forall i, x | 0 <= i < |levels'| && x in levels'[i] ensures x in rank' && rank'[x] == i {
      if i < |levels| {
        assert levels'[i] == levels[i];
      }
    }
  }

  /** What `Ranked` records gives the properties of the levels. */
  lemma RankedLevelled(g: Graph, rank: map<string, nat>, levels: seq<seq<string>>)
    requires Ranked(g, rank, levels)
    ensures Levelled(g, levels)
    ensures Placed(levels) == rank.Keys
  {
    forall i, j, x | 0 <= i < j < |levels| && x in levels[i] ensures x !in levels[j] {
      assert x in rank && rank[x] == i;
    }
    forall i, x | 0 <= i < |levels| && x in levels[i] ensures x in g && g[x] <= Placed(levels[..i]) {
      forall d | d in g[x] ensures d in Placed(levels[..i]) {
        assert levels[..i][rank[d]] == levels[rank[d]];
      }
    }
    forall x | x in rank ensures x in Placed(levels) {
      assert x in levels[rank[x]];
    }
  }

  /** When everything is placed, no name needs itself. */
  lemma RankedAcyclicOn(g: Graph, s: set<string>, rank: map<string, nat>, levels: seq<seq<string>>)
    requires Closed(g) && Pending(g, s, map[], rank) && Ranked(g, rank, levels)
    ensures AcyclicOn(g, s)
  {
    forall n | n in s ensures n !in AllDeps(g, n) {
      RankedAcyclic(g, rank, n);
    }
  }

  /** When names remain and each of them waits for another, some name needs itself. */
  lemma StuckCyclic(g: Graph, s: set<string>, data: map<string, set<string>>, rank: map<string, nat>)
    requires Closed(g) && Pending(g, s, data, rank) && data != map[]
    requires forall x :: x in data ==> data[x] != {}
    ensures !AcyclicOn(g, s)
  {
    forall x | x in data.Keys ensures g[x] * data.Keys != {} {
      var d :| d in data[x];
      assert d in g[x] && d !in rank.Keys;
      assert d in s;
      assert d in g[x] * data.Keys;
    }
    NoSinkNotAcyclic(g, data.Keys, s);
  }

  lemma CardDiff(a: set<string>, b: set<string>)
    requires b <= a && b != {}
    ensures |a - b| < |a|
  {
    var x :| x in b;
    assert a == (a - b) + b;
  }
}
