/** `pathlib` paths as '/'-separated strings: joining, the final component,
    its suffix and `with_suffix`. No normalisation of "." or ".." is done. */
module Paths {

  import opened Strs

  predicate IsAbsolute(p: string) {
    StartsWith(p, "/")
  }

  /** `Path(base) / child`: an absolute child replaces the base. */
  function PathJoin(base: string, child: string): (r: string)
    ensures IsAbsolute(child) ==> r == child
    ensures !IsAbsolute(child) && base != "" ==> StartsWith(r, base) && EndsWith(r, child)
  {
    if IsAbsolute(child) || base == "" then child
    else if EndsWith(base, "/") then base + child
    else base + "/" + child
  }

  /** Everything up to and including the last "/". */
  function Dir(p: string): (r: string)
    ensures r == "" || r[|r| - 1] == '/'
  {
    p[..RFind(p, '/') + 1]
  }

  /** `Path(p).name`: the text after the last "/". */
  function Name(p: string): (r: string)
    ensures '/' !in r
  {
    p[RFind(p, '/') + 1..]
  }

  /** A path is its directory part followed by its name. */
  lemma DirName(p: string)
    ensures p == Dir(p) + Name(p)
  {
  }

  /** A suffix `with_suffix` accepts and `suffix` gives back: a dot and at least one
      other character, none of them a dot or a slash. */
  predicate IsSuffix(s: string) {
    |s| >= 2 && s[0] == '.' && '.' !in s[1..] && '/' !in s
  }

  /** `r` is empty or a proper suffix ending the name `n`. */
  predicate SuffixOf(n: string, r: string) {
    (r == "" || (IsSuffix(r) && |r| < |n|)) && EndsWith(n, r)
  }

  /** The `suffix` of a name: from its last ".", unless that dot starts or ends it. */
  function NameSuffix(n: string): (r: string)
    requires '/' !in n
    ensures SuffixOf(n, r)
  {
    var i := RFind(n, '.');
    if 0 < i < |n| - 1 then
      DotSuffix(n, i);
      n[i..]
    else
      EmptySuffix(n);
      ""
  }

  lemma DotSuffix(n: string, i: int)
    requires 0 < i < |n| - 1 && n[i] == '.' && '.' !in n[i + 1..] && '/' !in n
    ensures SuffixOf(n, n[i..])
  {
    var t := n[i..];
    assert t[1..] == n[i + 1..];
    forall j | 0 <= j < |t| ensures t[j] != '/' {
      assert t[j] == n[i + j];
    }
  }

  lemma EmptySuffix(n: string)
    ensures SuffixOf(n, "")
  {
  }

  /** `Path(p).suffix`. */
  function Suffix(p: string): string {
    NameSuffix(Name(p))
  }

  /** `Path(p).stem`: the name without its suffix. */
  function Stem(p: string): string {
    var n := Name(p);
    n[..|n| - |Suffix(p)|]
  }

  /** A name is its stem followed by its suffix. */
  lemma NameParts(p: string)
    ensures Name(p) == Stem(p) + Suffix(p)
  {
    var n, x := Name(p), Suffix(p);
    assert EndsWith(n, x);
    SplitAtEnd(n, |x|);
  }

  lemma SplitAtEnd(n: string, k: nat)
    requires k <= |n|
    ensures n == n[..|n| - k] + n[|n| - k..]
  {
  }

  /** `Path(p).with_suffix(s)`: the suffix of the name is replaced by `s`
      (an empty `s` removes it). */
  function WithSuffix(p: string, s: string): (r: string)
    requires Name(p) != ""
    ensures r == Dir(p) + Stem(p) + s
  {
    PathParts(p);
    p[..|p| - |Suffix(p)|] + s
  }

  /** A path is its directory part, its stem and its suffix. */
  lemma PathParts(p: string)
    ensures p == Dir(p) + Stem(p) + Suffix(p)
    ensures p[..|p| - |Suffix(p)|] == Dir(p) + Stem(p)
  {
    DirName(p);
    NameParts(p);
    assert p == (Dir(p) + Stem(p)) + Suffix(p);
  }

  /** Removing a suffix and putting it back gives the same path. */
  lemma WithOwnSuffix(p: string)
    requires Name(p) != ""
    ensures WithSuffix(p, Suffix(p)) == p
  {
    PathParts(p);
  }

  /** The suffix of `p.with_suffix(s)` is `s`, and its stem is the stem of `p`. */
  lemma SuffixOfWithSuffix(p: string, s: string)
    requires Name(p) != "" && IsSuffix(s)
    ensures Suffix(WithSuffix(p, s)) == s
    ensures Stem(WithSuffix(p, s)) == Stem(p)
  {
    var stem := Stem(p);
    var q := WithSuffix(p, s);
    NameOfWithSuffix(p, s);
    SuffixOfName(stem, s);
    assert Suffix(q) == s;
    StemOfName(q, stem, s);
  }

  /** The name of `p.with_suffix(s)` is the stem of `p` followed by `s`. */
  lemma NameOfWithSuffix(p: string, s: string)
    requires Name(p) != "" && IsSuffix(s)
    ensures Name(WithSuffix(p, s)) == Stem(p) + s && Stem(p) != "" && '/' !in Stem(p)
  {
    StemNonEmpty(p);
    AppendAssoc(Dir(p), Stem(p), s);
    NameOfAppend(Dir(p), Stem(p) + s);
  }

  lemma AppendAssoc(a: string, b: string, c: string)
    ensures a + b + c == a + (b + c)
  {
  }

  lemma StemOfName(q: string, stem: string, s: string)
    requires Name(q) == stem + s && Suffix(q) == s
    ensures Stem(q) == stem
  {
    assert (stem + s)[..|stem|] == stem;
  }

  /** The stem of a non-empty name is non-empty and holds no "/". */
  lemma StemNonEmpty(p: string)
    requires Name(p) != ""
    ensures Stem(p) != "" && '/' !in Stem(p)
  {
    var n := Name(p);
    NameParts(p);
    forall j | 0 <= j < |Stem(p)| ensures Stem(p)[j] != '/' {
      assert Stem(p)[j] == n[j];
    }
  }

  /** A name made of a non-empty stem and a suffix has that suffix. */
  lemma SuffixOfName(stem: string, s: string)
    requires stem != "" && '/' !in stem && IsSuffix(s)
    ensures '/' !in stem + s && NameSuffix(stem + s) == s
  {
    var m := stem + s;
    RFindInTail(stem, s, '.');
    assert m[|stem|..] == s;
  }

  /** The name of a directory part followed by a name is that name. */
  lemma NameOfAppend(dir: string, tail: string)
    requires '/' !in tail && (dir == "" || dir[|dir| - 1] == '/')
    ensures Name(dir + tail) == tail
  {
    RFindAppend(dir, tail, '/');
    RFindLast(dir, '/');
    NameAt(dir + tail, |dir| - 1);
  }

  /** The directory part of a directory part followed by a name is that directory part. */
  lemma DirOfAppend(dir: string, tail: string)
    requires '/' !in tail && (dir == "" || dir[|dir| - 1] == '/')
    ensures Dir(dir + tail) == dir
  {
    RFindAppend(dir, tail, '/');
    RFindLast(dir, '/');
    assert (dir + tail)[..|dir|] == dir;
  }

  /** A path without "/" is all name. */
  lemma NoSlash(p: string)
    requires '/' !in p
    ensures Dir(p) == "" && Name(p) == p
  {
    assert RFind(p, '/') == -1;
  }

  lemma RFindLast(s: string, c: char)
    requires s == "" || s[|s| - 1] == c
    ensures RFind(s, c) == |s| - 1
  {
  }

  lemma NameAt(p: string, i: int)
    requires RFind(p, '/') == i
    ensures Name(p) == p[i + 1..]
  {
  }

  /** The last `c` of `a + b` is the first character of `b` when no other `c` follows. */
  lemma RFindInTail(a: string, b: string, c: char)
    requires |b| >= 1 && b[0] == c && c !in b[1..]
    ensures RFind(a + b, c) == |a|
  {
    var a' := a + [c];
    RFindLastChar(a, c);
    AppendAfter(a, b);
    RFindAppend(a', b[1..], c);
  }

  lemma RFindLastChar(a: string, c: char)
    ensures RFind(a + [c], c) == |a|
  {
    var a' := a + [c];
    assert a'[|a'| - 1] == c;
  }

  lemma AppendAfter(a: string, b: string)
    requires |b| >= 1
    ensures a + b == a + [b[0]] + b[1..]
  {
  }
}
