/** Target dependency graphs: each target name maps to the names of its direct
    dependencies. The transitive dependencies of a target are the least set
    that holds its direct dependencies and is closed under "depends on". */
module Graphs {

  type Graph = map<string, set<string>>

  /** Every dependency named in the graph is itself a target of the graph. */
  predicate Closed(g: Graph) {
    forall n, d :: n in g && d in g[n] ==> d in g
  }

  /** The direct dependencies of the members of `s`. */
  function Successors(g: Graph, s: set<string>): set<string> {
    set n, d | n in s && n in g && d in g[n] :: d
  }

  /** Every name that is some target's dependency. */
  function AllNamed(g: Graph): set<string> {
    set n, d | n in g && d in g[n] :: d
  }

  lemma SuccessorsNamed(g: Graph, s: set<string>)
    ensures Successors(g, s) <= AllNamed(g)
  {
  }

  /** Growing `s` by a member of `u` leaves fewer members of `u` outside it. */
  lemma Shrinks(u: set<string>, s: set<string>, s': set<string>, x: string)
    requires s <= s' && x in u && x in s' && x !in s
    ensures |u - s'| < |u - s|
  {
    var a, b := u - s', u - s;
    assert a <= b && x in b && x !in a;
    assert b == a + (b - a);
    assert x in b - a;
  }

  /** The least superset of `s` that is closed under dependencies. */
  function Saturate(g: Graph, s: set<string>): (r: set<string>)
    ensures s <= r && Successors(g, r) <= r
    decreases |AllNamed(g) - s|
  {
    var next := Successors(g, s);
    if next <= s then s
    else
      SuccessorsNamed(g, s);
      var x :| x in next && x !in s;
      Shrinks(AllNamed(g), s, s + next, x);
      Saturate(g, s + next)
  }

  /** `Saturate` adds nothing that a closed superset of `s` does not already hold. */
  lemma {:induction false} SaturateLeast(g: Graph, s: set<string>, t: set<string>)
    requires s <= t && Successors(g, t) <= t
    ensures Saturate(g, s) <= t
    decreases |AllNamed(g) - s|
  {
    var next := Successors(g, s);
    if !(next <= s) {
      SuccessorsNamed(g, s);
      var x :| x in next && x !in s;
      Shrinks(AllNamed(g), s, s + next, x);
      assert next <= Successors(g, t);
      SaturateLeast(g, s + next, t);
    }
  }

  /** The transitive dependency names of `n` (`allDependencyNames()`). */
  function AllDeps(g: Graph, n: string): (r: set<string>)
    requires n in g
    ensures g[n] <= r
  {
    Saturate(g, g[n])
  }

  /** The recursion of `allDependencyNames`: the direct dependencies together
      with the transitive dependencies of each of them, and nothing more. */
  lemma AllDepsUnfold(g: Graph, n: string)
    requires Closed(g) && n in g
    ensures AllDeps(g, n) == g[n] + (set d, x | d in g[n] && x in AllDeps(g, d) :: x)
  {
    var r := AllDeps(g, n);
    var u := set d, x | d in g[n] && x in AllDeps(g, d) :: x;
    forall d | d in g[n] ensures AllDeps(g, d) <= r {
      AllDepsOfMember(g, n, d);
    }
    forall y | y in Successors(g, g[n] + u) ensures y in g[n] + u {
      var m :| m in g[n] + u && m in g && y in g[m];
      if m in g[n] {
        assert y in AllDeps(g, m);
      } else {
        var d :| d in g[n] && m in AllDeps(g, d);
        assert y in Successors(g, AllDeps(g, d));
      }
    }
    SaturateLeast(g, g[n], g[n] + u);
  }

  /** A transitive dependency's own dependencies are transitive dependencies too. */
  lemma AllDepsOfMember(g: Graph, n: string, d: string)
    requires n in g && d in g && d in AllDeps(g, n)
    ensures AllDeps(g, d) <= AllDeps(g, n)
  {
    assert g[d] <= Successors(g, AllDeps(g, n));
    SaturateLeast(g, g[d], AllDeps(g, n));
  }

  /** In a closed graph every transitive dependency is a target of the graph. */
  lemma AllDepsInGraph(g: Graph, n: string)
    requires Closed(g) && n in g
    ensures AllDeps(g, n) <= g.Keys
  {
    SaturateLeast(g, g[n], g.Keys);
  }

  /** The targets a set of roots needs: the roots and their transitive dependencies. */
  function Reach(g: Graph, roots: set<string>): (r: set<string>)
    requires roots <= g.Keys
    ensures roots <= r
  {
    roots + (set t, x | t in roots && x in AllDeps(g, t) :: x)
  }

  /** What a set of roots needs is part of the graph and holds its own dependencies. */
  lemma ReachClosed(g: Graph, roots: set<string>)
    requires Closed(g) && roots <= g.Keys
    ensures Reach(g, roots) <= g.Keys
    ensures forall x, d :: x in Reach(g, roots) && d in g[x] ==> d in Reach(g, roots)
  {
    forall t | t in roots ensures AllDeps(g, t) <= g.Keys {
      AllDepsInGraph(g, t);
    }
    forall x, d | x in Reach(g, roots) && d in g[x] ensures d in Reach(g, roots) {
      if x in roots {
        assert d in AllDeps(g, x);
      } else {
        var t :| t in roots && x in AllDeps(g, t);
        assert d in Successors(g, AllDeps(g, t));
      }
    }
  }

  /** No target of `s` is among its own transitive dependencies. */
  predicate AcyclicOn(g: Graph, s: set<string>) {
    forall n :: n in s && n in g ==> n !in AllDeps(g, n)
  }

  predicate Acyclic(g: Graph) {
    AcyclicOn(g, g.Keys)
  }

  /** Without cycles, a transitive dependency has strictly fewer transitive
      dependencies than the target that needs it. */
  lemma FewerDeps(g: Graph, n: string, d: string)
    requires n in g && d in g && d in AllDeps(g, n) && d !in AllDeps(g, d)
    ensures AllDeps(g, d) < AllDeps(g, n)
    ensures |AllDeps(g, d)| < |AllDeps(g, n)|
  {
    AllDepsOfMember(g, n, d);
    var a, b := AllDeps(g, d), AllDeps(g, n);
    assert b == a + (b - a);
    assert d in b - a;
  }

  /** A non-empty set of targets in which every member depends on another
      member holds a target that is among its own transitive dependencies. */
  lemma {:induction false} NoSinkHasCycle(g: Graph, rest: set<string>, n: string)
    requires Closed(g) && rest <= g.Keys && n in rest
    requires forall m :: m in rest ==> g[m] * rest != {}
    ensures exists m :: m in rest && m in AllDeps(g, m)
    decreases |AllDeps(g, n)|
  {
    var d :| d in g[n] * rest;
    if n in AllDeps(g, n) {
      assert n in rest && n in AllDeps(g, n);
    } else if d in AllDeps(g, d) {
      assert d in rest && d in AllDeps(g, d);
    } else {
      assert d in AllDeps(g, n);
      FewerDeps(g, n, d);
      NoSinkHasCycle(g, rest, d);
    }
  }

  /** So a set of targets holding such a part is not free of cycles. */
  lemma NoSinkNotAcyclic(g: Graph, rest: set<string>, s: set<string>)
    requires Closed(g) && rest <= s && rest <= g.Keys && rest != {}
    requires forall m :: m in rest ==> g[m] * rest != {}
    ensures !AcyclicOn(g, s)
  {
    var n :| n in rest;
    NoSinkHasCycle(g, rest, n);
  }

  /** A ranking that puts each dependency strictly below the targets that
      need it rules out cycles among the ranked targets. */
  lemma RankedAcyclic(g: Graph, rank: map<string, nat>, n: string)
    requires Closed(g) && n in rank && rank.Keys <= g.Keys
    requires forall m, d :: m in rank && d in g[m] ==> d in rank && rank[d] < rank[m]
    ensures AllDeps(g, n) <= set m | m in rank && rank[m] < rank[n]
    ensures n !in AllDeps(g, n)
  {
    var below := set m | m in rank && rank[m] < rank[n];
    forall y | y in Successors(g, below) ensures y in below {
      var m :| m in below && m in g && y in g[m];
    }
    SaturateLeast(g, g[n], below);
  }

  lemma UnionAssoc(a: set<string>, b: set<string>, c: set<string>)
    ensures a + b + c == a + (b + c)
  {
  }

  lemma UnionRegroup(a: set<string>, b: set<string>, c: set<string>, d: set<string>)
    ensures a + b + c + d == a + (b + (c + d))
  {
  }

  /** The targets of `ds` together with their transitive dependencies. */
  function Covered(g: Graph, ds: seq<string>): set<string>
    requires forall x :: x in ds ==> x in g
    decreases |ds|
  {
    if |ds| == 0 then {}
    else
      var x := ds[|ds| - 1];
      Covered(g, ds[..|ds| - 1]) + ({x} + AllDeps(g, x))
  }

  lemma CoveredNext(g: Graph, ds: seq<string>, i: nat)
    requires i < |ds| && forall x :: x in ds ==> x in g
    ensures Covered(g, ds[..i + 1]) == Covered(g, ds[..i]) + ({ds[i]} + AllDeps(g, ds[i]))
  {
    assert ds[..i + 1][..i] == ds[..i];
  }

  /** What `Covered` holds: the targets of `ds` and their transitive dependencies. */
  lemma {:induction false} CoveredMembers(g: Graph, ds: seq<string>, y: string)
    requires forall x :: x in ds ==> x in g
    ensures y in Covered(g, ds) <==> exists x :: x in ds && (y == x || y in AllDeps(g, x))
    decreases |ds|
  {
    if |ds| > 0 {
      var p, z := ds[..|ds| - 1], ds[|ds| - 1];
      assert ds == p + [z];
      CoveredMembers(g, p, y);
      if y in Covered(g, p) {
        var x :| x in p && (y == x || y in AllDeps(g, x));
        assert x in ds;
      } else if y == z || y in AllDeps(g, z) {
        assert z in ds;
      }
    }
  }

  /** Listing the direct dependencies of `n` covers exactly its transitive ones. */
  lemma CoveredAllDeps(g: Graph, n: string, deps: seq<string>)
    requires Closed(g) && n in g && forall x :: x in deps <==> x in g[n]
    ensures Covered(g, deps) == AllDeps(g, n)
  {
    AllDepsUnfold(g, n);
    forall y ensures y in Covered(g, deps) <==> y in AllDeps(g, n) {
      CoveredMembers(g, deps, y);
    }
  }

  /** A direct dependency is a transitive one whose own transitive
      dependencies are fewer and among those of the target. */
  lemma DirectDep(g: Graph, n: string, d: string)
    requires Closed(g) && Acyclic(g) && n in g && d in g[n]
    ensures d in g && d in AllDeps(g, n)
    ensures AllDeps(g, d) <= AllDeps(g, n) && |AllDeps(g, d)| < |AllDeps(g, n)|
  {
    AllDepsUnfold(g, n);
    FewerDeps(g, n, d);
  }
}
