/** Python's ordering of `str` values (code point by code point, a proper
    prefix first) and `sorted()` on collections of names. */
module StrOrder {

  /** `a < b` on Python strings. */
  predicate Less(a: string, b: string)
    decreases |a|
  {
    |b| > 0 && (|a| == 0 || a[0] < b[0] || (a[0] == b[0] && Less(a[1..], b[1..])))
  }

  lemma {:induction false} LessIrreflexive(a: string)
    ensures !Less(a, a)
    decreases |a|
  {
    if |a| > 0 {
      LessIrreflexive(a[1..]);
    }
  }

  lemma {:induction false} LessTransitive(a: string, b: string, c: string)
    requires Less(a, b) && Less(b, c)
    ensures Less(a, c)
    decreases |a|
  {
    if |a| > 0 && a[0] == b[0] && b[0] == c[0] {
      LessTransitive(a[1..], b[1..], c[1..]);
    }
  }

  lemma {:induction false} LessTotal(a: string, b: string)
    requires a != b
    ensures Less(a, b) || Less(b, a)
    decreases |a|
  {
    if |a| > 0 && |b| > 0 && a[0] == b[0] {
      LessTotal(a[1..], b[1..]);
    }
  }

  lemma LessAsymmetric(a: string, b: string)
    requires Less(a, b)
    ensures !Less(b, a)
  {
    if Less(b, a) {
      LessTransitive(a, b, a);
      LessIrreflexive(a);
    }
  }

  /** `a <= b` on Python strings. */
  predicate LessEq(a: string, b: string) {
    a == b || Less(a, b)
  }

  predicate StrictlySorted(s: seq<string>) {
    forall i, j :: 0 <= i < j < |s| ==> Less(s[i], s[j])
  }

  predicate Sorted(s: seq<string>) {
    forall i, j :: 0 <= i < j < |s| ==> LessEq(s[i], s[j])
  }

  /** Every non-empty set of names has a least element. */
  lemma {:induction false} MinimumExists(s: set<string>)
    requires s != {}
    ensures exists m :: IsMinimum(s, m)
    decreases |s|
  {
    var x :| x in s;
    if s != {x} {
      var rest := s - {x};
      MinimumExists(rest);
      var m :| IsMinimum(rest, m);
      if Less(m, x) {
        forall y | y in s && y != m ensures Less(m, y) {
          if y != x {
            assert y in rest;
          }
        }
        assert IsMinimum(s, m);
      } else {
        LessTotal(m, x);
        forall y | y in s && y != x ensures Less(x, y) {
          if y != m {
            assert y in rest;
            LessTransitive(x, m, y);
          }
        }
        assert IsMinimum(s, x);
      }
    } else {
      assert IsMinimum(s, x);
    }
  }

  predicate IsMinimum(s: set<string>, m: string) {
    m in s && forall y :: y in s && y != m ==> Less(m, y)
  }

  /** The least name of a non-empty set. */
  function Minimum(s: set<string>): (m: string)
    requires s != {}
    ensures m in s && forall y :: y in s && y != m ==> Less(m, y)
  {
    MinimumExists(s);
    MinimumUnique(s);
    var m :| IsMinimum(s, m);
    m
  }

  lemma MinimumUnique(s: set<string>)
    ensures forall m, m' :: IsMinimum(s, m) && IsMinimum(s, m') ==> m == m'
  {
    forall m, m' | IsMinimum(s, m) && IsMinimum(s, m') ensures m == m' {
      if m != m' {
        LessAsymmetric(m, m');
      }
    }
  }

  /** `sorted(s)` for a set of names: the names in increasing order, each once. */
  function SortedSet(s: set<string>): (r: seq<string>)
    ensures forall x :: x in r <==> x in s
    ensures |r| == |s|
    decreases |s|
  {
    if s == {} then [] else [Minimum(s)] + SortedSet(s - {Minimum(s)})
  }

  lemma {:induction false} SortedSetSorted(s: set<string>)
    ensures StrictlySorted(SortedSet(s))
    decreases |s|
  {
    if s != {} {
      var m := Minimum(s);
      var t := SortedSet(s - {m});
      SortedSetSorted(s - {m});
      var r := SortedSet(s);
      assert r == [m] + t;
      forall i, j | 0 <= i < j < |r| ensures Less(r[i], r[j]) {
        assert r[j] == t[j - 1] && t[j - 1] in s - {m};
        if i > 0 {
          assert r[i] == t[i - 1];
        }
      }
    }
  }

  /** Insert `x` into a sequence in front of the first name not below it. */
  function Insert(x: string, s: seq<string>): (r: seq<string>)
    ensures multiset(r) == multiset(s) + multiset{x}
    decreases |s|
  {
    if |s| == 0 || LessEq(x, s[0]) then [x] + s
    else
      assert s == [s[0]] + s[1..];
      [s[0]] + Insert(x, s[1..])
  }

  lemma {:induction false} InsertSorted(x: string, s: seq<string>)
    requires Sorted(s)
    ensures Sorted(Insert(x, s))
    decreases |s|
  {
    if |s| == 0 || LessEq(x, s[0]) {
      forall j | 0 < j < |s| ensures LessEq(x, s[j]) {
        if x != s[0] && s[0] != s[j] { LessTransitive(x, s[0], s[j]); }
      }
    } else {
      LessTotal(x, s[0]);
      InsertSorted(x, s[1..]);
      var t := Insert(x, s[1..]);
      assert multiset(t) == multiset(s[1..]) + multiset{x};
      forall j | 0 <= j < |t| ensures LessEq(s[0], t[j]) {
        assert t[j] in multiset(t);
        if t[j] != x {
          assert t[j] in multiset(s[1..]);
          var k :| 0 <= k < |s[1..]| && s[1..][k] == t[j];
          assert s[k + 1] == t[j];
        }
      }
    }
  }

  /** `sorted(names)` for a list of names: a permutation in increasing order. */
  function SortNames(s: seq<string>): (r: seq<string>)
    ensures multiset(r) == multiset(s)
    decreases |s|
  {
    if |s| == 0 then []
    else
      assert s == [s[0]] + s[1..];
      Insert(s[0], SortNames(s[1..]))
  }

  lemma {:induction false} SortNamesSorted(s: seq<string>)
    ensures Sorted(SortNames(s))
    decreases |s|
  {
    if |s| > 0 {
      SortNamesSorted(s[1..]);
      InsertSorted(s[0], SortNames(s[1..]));
    }
  }
}
