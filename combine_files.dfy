/** The script that concatenates the build tool's modules into one file:
    each source line is routed to the import block, the from-import block or
    the body, local imports and lines marked "# no-combine" are dropped, and
    runs of blank lines in the body are capped at two. */
module CombineFiles {
  import opened Wrappers
  import opened Strs
  import Paths
  import StrOrder

  /** Where `addFilteredFile` sends a line. */
  datatype Route = Dropped | ImportLine | FromImportLine | LocalImport | Body

  function RouteOf(line: string): Route {
    if EndsWith(line, "# no-combine\n") then Dropped
    else if StartsWith(line, "import ") then ImportLine
    else if StartsWith(line, "from ") then
      (if StartsWith(line, "from .") then LocalImport else FromImportLine)
    else Body
  }

  /** `len(line.strip()) == 0`. */
  predicate Blank(line: string) {
    Strip(line) == ""
  }

  /** The script's global lists and its blank-line counter. */
  datatype Acc = Acc(imports: seq<string>, fromImports: seq<string>, lines: seq<string>, emptyLines: nat)

  /** One line of one file. */
  function Next(acc: Acc, line: string): Acc {
    match RouteOf(line)
    case Dropped => acc
    case LocalImport => acc
    case ImportLine => acc.(imports := acc.imports + [line])
    case FromImportLine => acc.(fromImports := acc.fromImports + [line])
    case Body =>
      if Blank(line) then
        if acc.emptyLines + 1 > 2 then acc.(emptyLines := acc.emptyLines + 1)
        else acc.(emptyLines := acc.emptyLines + 1, lines := acc.lines + [line])
      else acc.(emptyLines := 0, lines := acc.lines + [line])
  }

  /** The lines of one file, in order. */
  function Filter(acc: Acc, fileLines: seq<string>): Acc
    decreases |fileLines|
  {
    if |fileLines| == 0 then acc
    else Next(Filter(acc, fileLines[..|fileLines| - 1]), fileLines[|fileLines| - 1])
  }

  /** The number of blank lines that end `s`. */
  function TrailingBlanks(s: seq<string>): (r: nat)
    ensures r <= |s|
    decreases |s|
  {
    if |s| > 0 && Blank(s[|s| - 1]) then 1 + TrailingBlanks(s[..|s| - 1]) else 0
  }

  predicate NoThreeBlanks(s: seq<string>) {
    forall i :: 0 <= i && i + 2 < |s| ==> !(Blank(s[i]) && Blank(s[i + 1]) && Blank(s[i + 2]))
  }

  predicate AllRouted(s: seq<string>, r: Route) {
    forall i :: 0 <= i < |s| ==> RouteOf(s[i]) == r
  }

  function Min2(n: nat): nat {
    if n < 2 then n else 2
  }

  /** What holds of the lists between any two lines: each holds only lines of
      its own kind, the body never has three blank lines in a row, and the
      counter says how many blank lines end it (up to two). */
  predicate ValidAcc(acc: Acc) {
    AllRouted(acc.imports, ImportLine) && AllRouted(acc.fromImports, FromImportLine)
    && AllRouted(acc.lines, Body)
    && NoThreeBlanks(acc.lines) && TrailingBlanks(acc.lines) == Min2(acc.emptyLines)
  }

  /** Fewer than two trailing blank lines: the last two lines are not both blank. */
  lemma LastTwo(s: seq<string>)
    requires |s| >= 2 && TrailingBlanks(s) < 2
    ensures !(Blank(s[|s| - 2]) && Blank(s[|s| - 1]))
  {
    var init := s[..|s| - 1];
    if Blank(s[|s| - 1]) {
      assert TrailingBlanks(s) == 1 + TrailingBlanks(init);
      assert TrailingBlanks(init) == 0;
      assert init[|init| - 1] == s[|s| - 2];
    }
  }

  /** Appending a line that would not be a third blank line in a row keeps the
      body free of three blank lines in a row. */
  lemma AppendNoThree(s: seq<string>, line: string)
    requires NoThreeBlanks(s) && (!Blank(line) || TrailingBlanks(s) < 2)
    ensures NoThreeBlanks(s + [line])
  {
    var t := s + [line];
    forall i | 0 <= i && i + 2 < |t| ensures !(Blank(t[i]) && Blank(t[i + 1]) && Blank(t[i + 2])) {
      if i + 2 < |s| {
        assert t[i] == s[i] && t[i + 1] == s[i + 1] && t[i + 2] == s[i + 2];
      } else if Blank(line) {
        LastTwo(s);
      }
    }
  }

  lemma TrailingAppend(s: seq<string>, line: string)
    ensures TrailingBlanks(s + [line]) == if Blank(line) then 1 + TrailingBlanks(s) else 0
  {
    assert (s + [line])[..|s|] == s;
  }

  lemma RoutedAppend(s: seq<string>, line: string, r: Route)
    requires AllRouted(s, r) && RouteOf(line) == r
    ensures AllRouted(s + [line], r)
  {
  }

  /** Each line keeps the invariant. */
  lemma NextValid(acc: Acc, line: string)
    requires ValidAcc(acc)
    ensures ValidAcc(Next(acc, line))
  {
    match RouteOf(line)
    case Dropped =>
    case LocalImport =>
    case ImportLine =>
      RoutedAppend(acc.imports, line, ImportLine);
    case FromImportLine =>
      RoutedAppend(acc.fromImports, line, FromImportLine);
    case Body =>
      if !Blank(line) || acc.emptyLines < 2 {
        RoutedAppend(acc.lines, line, Body);
        AppendNoThree(acc.lines, line);
        TrailingAppend(acc.lines, line);
      }
  }

  lemma {:induction false} FilterValid(acc: Acc, fileLines: seq<string>)
    requires ValidAcc(acc)
    ensures ValidAcc(Filter(acc, fileLines))
    decreases |fileLines|
  {
    if |fileLines| > 0 {
      FilterValid(acc, fileLines[..|fileLines| - 1]);
      NextValid(Filter(acc, fileLines[..|fileLines| - 1]), fileLines[|fileLines| - 1]);
    }
  }

  /** Every line lands in exactly one place: imports, from-imports or the
      body (a blank body line only while fewer than two blank lines precede
      it), and nowhere when it is marked "# no-combine" or a local import. */
  lemma NextRoutes(acc: Acc, line: string)
    ensures var r := Next(acc, line);
      (r.imports == acc.imports + [line] <==> RouteOf(line) == ImportLine)
      && (RouteOf(line) != ImportLine ==> r.imports == acc.imports)
      && (r.fromImports == acc.fromImports + [line] <==> RouteOf(line) == FromImportLine)
      && (RouteOf(line) != FromImportLine ==> r.fromImports == acc.fromImports)
      && (r.lines == acc.lines + [line]
          <==> RouteOf(line) == Body && (!Blank(line) || acc.emptyLines < 2))
      && (!(RouteOf(line) == Body && (!Blank(line) || acc.emptyLines < 2)) ==> r.lines == acc.lines)
  {
    var r := Next(acc, line);
    assert |acc.imports + [line]| != |acc.imports|;
    assert |acc.fromImports + [line]| != |acc.fromImports|;
    assert |acc.lines + [line]| != |acc.lines|;
  }

  /** The counter is not reset between files: once two blank lines have been
      counted, a file that starts with a blank line adds nothing to the body
      for it, whichever file the earlier blank lines came from. */
  lemma CounterSharedAcrossFiles(acc: Acc, first: string)
    requires acc.emptyLines >= 2 && RouteOf(first) == Body && Blank(first)
    ensures Filter(acc, [first]).lines == acc.lines
    ensures Filter(acc, [first]).emptyLines == acc.emptyLines + 1
  {
    assert [first][..0] == [];
  }

  /** The fixed comment between the from-imports and the body. */
  const Comment := "\n# See https://ctsrd-trac.cl.cam.ac.uk/projects/cheri/wiki/QemuCheri\n"
  const Shebang := "#!/usr/bin/env python3\n"

  /** `sorted(set(xs))`. */
  function SortedUnique(xs: seq<string>): (r: seq<string>)
    ensures forall x :: x in r <==> x in xs
  {
    StrOrder.SortedSet(set x | x in xs)
  }

  /** The shebang and the sorted distinct imports, then the sorted distinct
      from-imports. */
  function Header(acc: Acc): (r: string)
    ensures StartsWith(r, Shebang)
  {
    Shebang + Concat(SortedUnique(acc.imports)) + Concat(SortedUnique(acc.fromImports))
  }

  /** The printed file: the header, the comment, then the body, and the
      line break `print` adds. */
  function Output(acc: Acc): (r: string)
    ensures |r| > 0 && r[|r| - 1] == '\n'
  {
    Header(acc) + Comment + Concat(acc.lines) + "\n"
  }

  /** The import blocks hold every import once, in increasing order, and
      nothing else. */
  lemma ImportBlocksSorted(acc: Acc)
    ensures StrOrder.StrictlySorted(SortedUnique(acc.imports))
    ensures StrOrder.StrictlySorted(SortedUnique(acc.fromImports))
    ensures forall x :: x in SortedUnique(acc.imports) <==> x in acc.imports
    ensures forall x :: x in SortedUnique(acc.fromImports) <==> x in acc.fromImports
  {
    StrOrder.SortedSetSorted(set x | x in acc.imports);
    StrOrder.SortedSetSorted(set x | x in acc.fromImports);
  }

  lemma Parts(a: string, b: string, c: string, d: string)
    ensures StartsWith(a + b + c + d, a) && StartsWith(a + b + c + d, a + b + c)
    ensures (a + b + c + d)[|a + b + c|..] == d
  {
    AppendEnds(a + b + c, d);
    var r := a + b + c + d;
    assert r[..|a|] == (a + b + c)[..|a|];
  }

  /** The output opens with the shebang, then the imports and from-imports,
      and ends with the comment followed by the body. */
  lemma OutputShape(acc: Acc)
    ensures StartsWith(Output(acc), Shebang) && StartsWith(Output(acc), Header(acc))
    ensures Output(acc)[|Header(acc)|..] == Comment + Concat(acc.lines) + "\n"
  {
    var a, b, c := Shebang, Concat(SortedUnique(acc.imports)), Concat(SortedUnique(acc.fromImports));
    var h := Header(acc);
    assert h == a + b + c;
    Parts(a, b, c, Comment + Concat(acc.lines) + "\n");
    assert Output(acc) == a + b + c + (Comment + Concat(acc.lines) + "\n");
  }

  /** The files combined before the check for unhandled projects, in order. */
  const FirstFiles: seq<string> := [
    "colour.py", "utils.py", "configloader.py", "chericonfig.py", "project.py",
    "projects/build_qemu.py", "projects/binutils.py", "projects/llvm.py",
    "projects/cheribsd.py", "projects/disk_image.py", "projects/awk.py",
    "projects/elftoolchain.py", "projects/sdk.py", "projects/run_qemu.py"]

  /** The files combined after that check. */
  const LastFiles: seq<string> := ["targets.py", "__main__.py"]

  /** The entries of the projects directory the script warns about. */
  function NotAdded(entries: seq<string>, handled: seq<string>): (r: seq<string>)
    ensures forall p :: p in r <==> p in entries && Paths.Name(p) != "__pycache__" && p !in handled
    decreases |entries|
  {
    if |entries| == 0 then []
    else
      var rest := NotAdded(entries[..|entries| - 1], handled);
      var p := entries[|entries| - 1];
      if Paths.Name(p) == "__pycache__" || p in handled then rest else rest + [p]
  }

  /** The script's state. */
  class Combiner {
    var imports: seq<string>
    var fromImports: seq<string>
    var lines: seq<string>
    var handledFiles: seq<string>
    var emptyLines: nat

    function State(): Acc
      reads this
    {
      Acc(imports, fromImports, lines, emptyLines)
    }

    ghost predicate Valid()
      reads this
    {
      ValidAcc(State())
    }

    constructor()
      ensures Valid() && State() == Acc([], [], [], 0) && handledFiles == []
    {
      imports, fromImports, lines, handledFiles, emptyLines := [], [], [], [], 0;
    }

    /** `addFilteredFile` on a file system whose readable files are the
        keys of `contents`, each mapped to its `readlines()`: the path is
        recorded as handled before the file is opened, and `found` is false
        when opening it fails, which leaves the lists as they were. */
    method AddFilteredFile(p: string, contents: map<string, seq<string>>) returns (found: bool)
      requires Valid()
      modifies this
      ensures Valid()
      ensures found <==> p in contents
      ensures handledFiles == old(handledFiles) + [p]
      ensures found ==> State() == Filter(old(State()), contents[p])
      ensures !found ==> State() == old(State())
    {
      handledFiles := handledFiles + [p];
      if p !in contents {
        return false;
      }
      found := true;
      var fileLines := contents[p];
      for i := 0 to |fileLines|
        invariant State() == Filter(old(State()), fileLines[..i])
        invariant handledFiles == old(handledFiles) + [p]
      {
        assert fileLines[..i + 1][..i] == fileLines[..i];
        var line := fileLines[i];
        if EndsWith(line, "# no-combine\n") {
          continue;
        }
        if StartsWith(line, "import ") {
          imports := imports + [line];
        } else if StartsWith(line, "from ") {
          if StartsWith(line, "from .") {
            continue;
          } else {
            fromImports := fromImports + [line];
          }
        } else {
          if Strip(line) == "" {
            emptyLines := emptyLines + 1;
            if emptyLines > 2 {
              continue;
            }
          } else {
            emptyLines := 0;
          }
          lines := lines + [line];
        }
      }
      assert fileLines[..|fileLines|] == fileLines;
      FilterValid(old(State()), fileLines);
    }

    /** The whole script: the fixed files, the warning for every project file
        that was not combined, the last two files, and the printed output.
        A file that cannot be opened stops it, once it is recorded as
        handled and the files before it are combined. */
    method Combine(scriptDir: string, contents: map<string, seq<string>>, projectEntries: seq<string>)
      returns (r: Result<(string, seq<string>)>)
      requires Valid()
      modifies this
      ensures Valid()
      ensures r.Ok? <==> AllIn(FilePaths(scriptDir, FirstFiles + LastFiles), contents)
      ensures Added(old(handledFiles), old(State()), contents, FilePaths(scriptDir, FirstFiles + LastFiles),
                    handledFiles, State())
      ensures r.Ok? ==> (
        r.value.1 == NotAdded(projectEntries, old(handledFiles) + FilePaths(scriptDir, FirstFiles))
        && r.value.0 == Output(State()))
    {
      var first, last := FirstFiles, LastFiles;
      FilePathsPrefix(scriptDir, first, last);
      r := CombineInOrder(FilePaths(scriptDir, first + last), |first|, contents, projectEntries);
    }

    /** The steps of the script for the files in `paths`, with the check for
        unhandled projects after the first `split` of them. */
    method CombineInOrder(paths: seq<string>, split: nat, contents: map<string, seq<string>>,
                          projectEntries: seq<string>) returns (r: Result<(string, seq<string>)>)
      requires Valid() && split <= |paths|
      modifies this
      ensures Valid()
      ensures r.Ok? <==> AllIn(paths, contents)
      ensures Added(old(handledFiles), old(State()), contents, paths, handledFiles, State())
      ensures r.Ok? ==> (
        r.value.1 == NotAdded(projectEntries, old(handledFiles) + paths[..split])
        && r.value.0 == Output(State()))
    {
      var first, last := paths[..split], paths[split..];
      assert paths == first + last;
      AllInAppend(first, last, contents);
      var found := AddFiles(first, contents);
      if !found {
        AddedFirstFails(old(handledFiles), old(State()), contents, first, last, handledFiles, State());
        return Err("No such file or directory");
      }
      AddedAll(old(handledFiles), old(State()), contents, first, handledFiles, State());
      var warnings := NotAdded(projectEntries, handledFiles);
      ghost var h1, s1 := handledFiles, State();
      found := AddFiles(last, contents);
      AddedHalves(old(handledFiles), old(State()), contents, first, last, h1, s1, handledFiles, State());
      if !found {
        return Err("No such file or directory");
      }
      r := Ok((Output(State()), warnings));
    }

    /** `addFilteredFile` for each of `paths` in turn, until one cannot be
        opened; `found` is whether every one could. */
    method AddFiles(paths: seq<string>, contents: map<string, seq<string>>) returns (found: bool)
      requires Valid()
      modifies this
      ensures Valid()
      ensures found <==> AllIn(paths, contents)
      ensures Added(old(handledFiles), old(State()), contents, paths, handledFiles, State())
    {
      ghost var h0, s0 := handledFiles, State();
      ghost var k := FirstUnreadable(paths, contents, 0);
      AllInIffReadable(paths, contents);
      for i := 0 to |paths|
        invariant Valid() && i <= k && FirstUnreadable(paths, contents, i) == k
        invariant AllIn(paths[..i], contents)
        invariant handledFiles == h0 + paths[..i] && State() == FilterFiles(s0, contents, paths[..i])
      {
        found := AddNext(paths, contents, i, h0, s0);
        if !found {
          AddedStop(h0, s0, contents, paths, i, handledFiles, State());
          return;
        }
      }
      AddedStop(h0, s0, contents, paths, |paths|, handledFiles, State());
      found := true;
    }

    /** One turn of `AddFiles`: the file at `i`, the files before it having
        been added from `h0` and `s0`. */
    method AddNext(paths: seq<string>, contents: map<string, seq<string>>, i: nat, ghost h0: seq<string>,
                   ghost s0: Acc) returns (found: bool)
      requires Valid() && i < |paths| && AllIn(paths[..i], contents)
      requires handledFiles == h0 + paths[..i] && State() == FilterFiles(s0, contents, paths[..i])
      modifies this
      ensures Valid() && (found <==> paths[i] in contents)
      ensures handledFiles == h0 + paths[..i + 1]
      ensures found ==> AllIn(paths[..i + 1], contents) && State() == FilterFiles(s0, contents, paths[..i + 1])
      ensures !found ==> State() == FilterFiles(s0, contents, paths[..i])
    {
      assert paths[..i + 1] == paths[..i] + [paths[i]];
      found := AddFilteredFile(paths[i], contents);
      if found {
        FilterFilesNext(s0, contents, paths, i);
      }
    }
  }

  /** Where `AddFiles` stops: at the first file that cannot be opened, or
      after the last. */
  lemma AddedStop(h0: seq<string>, s0: Acc, contents: map<string, seq<string>>, paths: seq<string>, i: nat,
                  h: seq<string>, s: Acc)
    requires i <= |paths| && FirstUnreadable(paths, contents, i) == FirstUnreadable(paths, contents, 0)
    requires i < |paths| ==> paths[i] !in contents
    requires AllIn(paths[..i], contents) && s == FilterFiles(s0, contents, paths[..i])
    requires h == h0 + paths[..Upto(i, |paths|)]
    ensures Added(h0, s0, contents, paths, h, s)
  {
  }

  /** The handled files `h` and the lists `s` once the files of `paths`
      are added, from `h0` and `s0`, until the first that cannot be opened:
      that one is handled too, and the files before it are combined. */
  ghost predicate Added(h0: seq<string>, s0: Acc, contents: map<string, seq<string>>, paths: seq<string>,
                        h: seq<string>, s: Acc) {
    var k := FirstUnreadable(paths, contents, 0);
    h == h0 + paths[..Upto(k, |paths|)] && AllIn(paths[..k], contents) && s == FilterFiles(s0, contents, paths[..k])
  }

  /** When every file can be opened, every one is handled and combined. */
  lemma AddedAll(h0: seq<string>, s0: Acc, contents: map<string, seq<string>>, paths: seq<string>,
                 h: seq<string>, s: Acc)
    requires Added(h0, s0, contents, paths, h, s) && AllIn(paths, contents)
    ensures h == h0 + paths && s == FilterFiles(s0, contents, paths)
  {
    AllInIffReadable(paths, contents);
    assert paths[..|paths|] == paths;
  }

  /** A file of `a` that cannot be opened stops the script before `b`. */
  lemma AddedFirstFails(h0: seq<string>, s0: Acc, contents: map<string, seq<string>>, a: seq<string>,
                        b: seq<string>, h: seq<string>, s: Acc)
    requires Added(h0, s0, contents, a, h, s) && !AllIn(a, contents)
    ensures Added(h0, s0, contents, a + b, h, s)
  {
    AllInIffReadable(a, contents);
    FirstUnreadableAppend(a, b, contents);
    var k := FirstUnreadable(a, contents, 0);
    assert (a + b)[..k + 1] == a[..k + 1];
    assert (a + b)[..k] == a[..k];
  }

  /** Adding `a`, every file of which can be opened, then `b`. */
  lemma AddedHalves(h0: seq<string>, s0: Acc, contents: map<string, seq<string>>, a: seq<string>,
                    b: seq<string>, h1: seq<string>, s1: Acc, h: seq<string>, s: Acc)
    requires AllIn(a, contents) && h1 == h0 + a && s1 == FilterFiles(s0, contents, a)
    requires Added(h1, s1, contents, b, h, s)
    ensures Added(h0, s0, contents, a + b, h, s)
  {
    AllInIffReadable(a, contents);
    FirstUnreadableAppend(a, b, contents);
    var kb := FirstUnreadable(b, contents, 0);
    var k := |a| + kb;
    assert FirstUnreadable(a + b, contents, 0) == k;
    SliceAppend(a, b, kb);
    SliceAppend(a, b, Upto(kb, |b|));
    assert h == h0 + (a + b)[..Upto(k, |a + b|)];
    AllInAppend(a, b[..kb], contents);
    FilterFilesAppend(s0, contents, a, b[..kb]);
    assert s == FilterFiles(s0, contents, (a + b)[..k]);
  }

  lemma SliceAppend<T>(a: seq<T>, b: seq<T>, k: nat)
    requires k <= |b|
    ensures (a + b)[..|a| + k] == a + b[..k]
  {
  }

  lemma AllInAppend(a: seq<string>, b: seq<string>, contents: map<string, seq<string>>)
    ensures AllIn(a + b, contents) <==> AllIn(a, contents) && AllIn(b, contents)
  {
    if AllIn(a, contents) && AllIn(b, contents) {
      forall i | 0 <= i < |a + b| ensures (a + b)[i] in contents {
        if i >= |a| {
          assert (a + b)[i] == b[i - |a|];
        }
      }
    }
    if AllIn(a + b, contents) {
      forall i | 0 <= i < |b| ensures b[i] in contents {
        assert (a + b)[|a| + i] == b[i];
      }
      forall i | 0 <= i < |a| ensures a[i] in contents {
        assert (a + b)[i] == a[i];
      }
    }
  }

  /** The first path of `a + b` that cannot be opened is the first of `a`,
      or, when every path of `a` can be, the first of `b` after them. */
  lemma FirstUnreadableAppend(a: seq<string>, b: seq<string>, contents: map<string, seq<string>>)
    ensures var ka := FirstUnreadable(a, contents, 0);
      ka < |a| ==> FirstUnreadable(a + b, contents, 0) == ka
    ensures var ka := FirstUnreadable(a, contents, 0);
      ka == |a| ==> FirstUnreadable(a + b, contents, 0) == |a| + FirstUnreadable(b, contents, 0)
  {
    var ka, kb := FirstUnreadable(a, contents, 0), FirstUnreadable(b, contents, 0);
    var c := a + b;
    if ka < |a| {
      assert c[ka] == a[ka];
      FirstUnreadableAt(c, contents, ka);
    } else {
      forall i | 0 <= i < |a| + kb ensures c[i] in contents {
        if i >= |a| {
          assert c[i] == b[i - |a|];
        }
      }
      if kb < |b| {
        assert c[|a| + kb] == b[kb];
      }
      FirstUnreadableAt(c, contents, |a| + kb);
    }
  }

  /** The first path that cannot be opened is the one before which all can. */
  lemma FirstUnreadableAt(paths: seq<string>, contents: map<string, seq<string>>, k: nat)
    requires k <= |paths| && forall i :: 0 <= i < k ==> paths[i] in contents
    requires k < |paths| ==> paths[k] !in contents
    ensures FirstUnreadable(paths, contents, 0) == k
  {
  }

  /** Combining two lists of files is combining the first, then the second. */
  lemma {:induction false} FilterFilesAppend(acc: Acc, contents: map<string, seq<string>>, a: seq<string>, b: seq<string>)
    requires AllIn(a, contents) && AllIn(b, contents)
    ensures AllIn(a + b, contents)
    ensures FilterFiles(acc, contents, a + b) == FilterFiles(FilterFiles(acc, contents, a), contents, b)
    decreases |b|
  {
    if |b| == 0 {
      assert a + b == a;
    } else {
      var init := b[..|b| - 1];
      assert AllIn(init, contents);
      FilterFilesAppend(acc, contents, a, init);
      assert (a + b)[..|a + b| - 1] == a + init;
    }
  }

  lemma FilePathsPrefix(scriptDir: string, a: seq<string>, b: seq<string>)
    ensures FilePaths(scriptDir, a + b)[..|a|] == FilePaths(scriptDir, a)
  {
  }

  predicate AllIn(paths: seq<string>, contents: map<string, seq<string>>) {
    forall i :: 0 <= i < |paths| ==> paths[i] in contents
  }

  /** The position, from `from` on, of the first path that cannot be
      opened, or `|paths|` when every one can. */
  function FirstUnreadable(paths: seq<string>, contents: map<string, seq<string>>, from: nat): (k: nat)
    requires from <= |paths|
    ensures from <= k <= |paths|
    ensures forall i :: from <= i < k ==> paths[i] in contents
    ensures k < |paths| ==> paths[k] !in contents
    decreases |paths| - from
  {
    if from == |paths| || paths[from] !in contents then from else FirstUnreadable(paths, contents, from + 1)
  }

  /** The number of paths handled when the one at `k` is the first that
      cannot be opened: it is handled too. */
  function Upto(k: nat, n: nat): nat {
    if k < n then k + 1 else n
  }

  /** Every path can be opened exactly when none is the first that cannot,
      and the paths before the first that cannot all can. */
  lemma AllInIffReadable(paths: seq<string>, contents: map<string, seq<string>>)
    ensures AllIn(paths, contents) <==> FirstUnreadable(paths, contents, 0) == |paths|
    ensures AllIn(paths[..FirstUnreadable(paths, contents, 0)], contents)
  {
  }

  /** The files' lines, one file after another. */
  function FilterFiles(acc: Acc, contents: map<string, seq<string>>, paths: seq<string>): Acc
    requires AllIn(paths, contents)
    decreases |paths|
  {
    if |paths| == 0 then acc
    else
      var init := paths[..|paths| - 1];
      assert AllIn(init, contents);
      Filter(FilterFiles(acc, contents, init), contents[paths[|paths| - 1]])
  }

  /** One more file of the list. */
  lemma FilterFilesNext(acc: Acc, contents: map<string, seq<string>>, paths: seq<string>, i: nat)
    requires i < |paths| && AllIn(paths[..i], contents) && paths[i] in contents
    ensures AllIn(paths[..i + 1], contents)
    ensures paths[..i + 1] == paths[..i] + [paths[i]]
    ensures FilterFiles(acc, contents, paths[..i + 1])
         == Filter(FilterFiles(acc, contents, paths[..i]), contents[paths[i]])
  {
    assert paths[..i + 1][..i] == paths[..i];
  }

  function FilePaths(scriptDir: string, names: seq<string>): (r: seq<string>)
    ensures |r| == |names| && forall i :: 0 <= i < |r| ==> r[i] == Paths.PathJoin(scriptDir, names[i])
  {
    seq(|names|, i requires 0 <= i < |names| => Paths.PathJoin(scriptDir, names[i]))
  }
}
