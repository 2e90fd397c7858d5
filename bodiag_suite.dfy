/** The JUnit report of test-scripts/run_bodiagsuite.py: the output files of
    the BenchmarkOverflowDiagnostics suite (one `<test>.out` file per test,
    holding the raw wait status of the test program) are sorted, matched
    against the 4 x 291 expected test names and each turned into a test case
    in one of five suites; expected tests without an output file are reported
    as errors at the end. */
module BodiagSuite {

  import opened Wrappers
  import opened Strs
  import opened Paths
  import StrOrder

  /** The number of tests in the suite. */
  const Tests: nat := 291

  /** The four variants of each test: three overflows and one in-bounds run. */
  const Variants: seq<string> := ["-min", "-med", "-large", "-ok"]

  /** `"basic-{:0>5}".format(i)`. */
  function TestPrefix(i: nat): string {
    "basic-" + ZeroPad(i, 5)
  }

  /** The `k`-th expected name: tests from 291 down to 1, four variants each. */
  function ExpectedName(k: nat): string
    requires k < 4 * Tests
  {
    TestPrefix(Tests - k / 4) + Variants[k % 4]
  }

  function ExpectedNames(): (r: seq<string>)
    ensures |r| == 4 * Tests
  {
    seq(4 * Tests, k requires 0 <= k < 4 * Tests => ExpectedName(k))
  }

  /** The loop building `expected_test_names`. */
  method ListExpectedNames() returns (names: seq<string>)
    ensures names == ExpectedNames()
  {
    names := [];
    var i := Tests;
    while i > 0
      invariant 0 <= i <= Tests
      invariant |names| == 4 * (Tests - i)
      invariant forall k :: 0 <= k < |names| ==> names[k] == ExpectedName(k)
    {
      var prefix := TestPrefix(i);
      ghost var n := |names|;
      names := names + [prefix + "-min", prefix + "-med", prefix + "-large", prefix + "-ok"];
      forall k | n <= k < |names| ensures names[k] == ExpectedName(k) {
        assert k / 4 == Tests - i && k % 4 == k - n;
      }
      i := i - 1;
    }
  }

  /** A number below 1000 has at most three digits. */
  lemma ShortNumber(n: nat)
    requires n < 1000
    ensures |NatToString(n)| <= 3
  {
    if n >= 10 {
      if n / 10 >= 10 {
        assert |NatToString(n / 10 / 10)| == 1;
        assert |NatToString(n / 10)| == 2;
      } else {
        assert |NatToString(n / 10)| == 1;
      }
    }
  }

  /** Every test number pads to exactly five digits, so every prefix has the
      same length and determines its number. */
  lemma PrefixLength(i: nat)
    requires i <= Tests
    ensures |TestPrefix(i)| == 11
    ensures TestPrefix(i)[..6] == "basic-"
    ensures forall c :: 6 <= c < 11 ==> IsDigit(TestPrefix(i)[c])
    ensures DigitsValue(TestPrefix(i)[6..]) == i
  {
    ShortNumber(i);
    assert TestPrefix(i)[6..] == ZeroPad(i, 5);
  }

  /** A name determines the test number of its prefix and the rest. */
  lemma PrefixDetermines(i: nat, j: nat, u: string, v: string)
    requires i <= Tests && j <= Tests
    requires TestPrefix(i) + u == TestPrefix(j) + v
    ensures i == j && u == v
  {
    PrefixLength(i);
    PrefixLength(j);
    var n := TestPrefix(i) + u;
    assert TestPrefix(i) == n[..11] == TestPrefix(j);
    assert u == n[11..] == v;
  }

  /** Equal names come from the same test and the same variant. */
  lemma ExpectedNameInjective(a: nat, b: nat)
    requires a < 4 * Tests && b < 4 * Tests
    requires ExpectedName(a) == ExpectedName(b)
    ensures a == b
  {
    var qa, qb, ra, rb := a / 4, b / 4, a % 4, b % 4;
    assert qa < Tests && qb < Tests && ra < 4 && rb < 4;
    assert TestPrefix(Tests - qa) + Variants[ra] == TestPrefix(Tests - qb) + Variants[rb];
    PrefixDetermines(Tests - qa, Tests - qb, Variants[ra], Variants[rb]);
    VariantsDistinct(ra, rb);
    QuotientRemainder(a, b);
  }

  lemma VariantsDistinct(x: nat, y: nat)
    requires x < 4 && y < 4 && Variants[x] == Variants[y]
    ensures x == y
  {
  }

  lemma QuotientRemainder(a: nat, b: nat)
    requires a / 4 == b / 4 && a % 4 == b % 4
    ensures a == b
  {
    assert a == 4 * (a / 4) + a % 4;
    assert b == 4 * (b / 4) + b % 4;
  }

  /** The script expects each name once. */
  lemma ExpectedNamesDistinct()
    ensures Distinct(ExpectedNames())
    ensures |ExpectedNames()| == 1164
  {
    var e := ExpectedNames();
    forall a, b | 0 <= a < b < |e| ensures e[a] != e[b] {
      if e[a] == e[b] {
        ExpectedNameInjective(a, b);
      }
    }
  }

  /** Every variant of every test from 1 to 291 is expected. */
  lemma EveryVariantExpected(i: nat, v: nat)
    requires 1 <= i <= Tests && v < 4
    ensures TestPrefix(i) + Variants[v] in ExpectedNames()
  {
    var k := 4 * (Tests - i) + v;
    assert k / 4 == Tests - i && k % 4 == v;
    assert ExpectedNames()[k] == TestPrefix(i) + Variants[v];
  }

  /** A test result: a pass, a failure or an error, with its message. */
  datatype Outcome = Passed | Failure(message: string) | Error(message: string)

  datatype TestCase = TestCase(name: string, result: Outcome)

  /** The five suites: `-min-overflow`, `-med-overflow`, `-large-overflow`,
      `-in-bounds` and `-test-broken`. */
  datatype Suite = MinOverflow | MedOverflow | LargeOverflow | InBounds | Broken

  datatype Report = Report(min: seq<TestCase>, med: seq<TestCase>, large: seq<TestCase>,
                           ok: seq<TestCase>, broken: seq<TestCase>)

  const NoCases := Report([], [], [], [], [])

  /** The suite's title in the report called `name`. */
  function SuiteTitle(name: string, s: Suite): string {
    name + match s
      case MinOverflow => "-min-overflow"
      case MedOverflow => "-med-overflow"
      case LargeOverflow => "-large-overflow"
      case InBounds => "-in-bounds"
      case Broken => "-test-broken"
  }

  /** The five suites of one report have five different titles. */
  lemma SuiteTitlesDistinct(name: string, s: Suite, t: Suite)
    requires s != t
    ensures SuiteTitle(name, s) != SuiteTitle(name, t)
  {
    var a, b := SuiteTitle(name, s), SuiteTitle(name, t);
    assert a[|name|..] != b[|name|..];
  }

  /** `suite.add_testcase(testcase)`. */
  function Add(r: Report, s: Suite, t: TestCase): Report {
    match s
    case MinOverflow => r.(min := r.min + [t])
    case MedOverflow => r.(med := r.med + [t])
    case LargeOverflow => r.(large := r.large + [t])
    case InBounds => r.(ok := r.ok + [t])
    case Broken => r.(broken := r.broken + [t])
  }

  function Names(cases: seq<TestCase>): seq<string> {
    seq(|cases|, i requires 0 <= i < |cases| => cases[i].name)
  }

  /** The names of all test cases of the report, whichever suite holds them. */
  function ReportNames(r: Report): multiset<string> {
    multiset(Names(r.min)) + multiset(Names(r.med)) + multiset(Names(r.large))
      + multiset(Names(r.ok)) + multiset(Names(r.broken))
  }

  /** Adding a test case adds its name, whatever the suite. */
  lemma AddName(r: Report, s: Suite, t: TestCase)
    ensures ReportNames(Add(r, s, t)) == ReportNames(r) + multiset{t.name}
  {
    var n := multiset{t.name};
    var r' := Add(r, s, t);
    match s
    case MinOverflow =>
      NamesSnoc(r.min, t);
      Regroup(multiset(Names(r.min)), n, multiset(Names(r.med)) + multiset(Names(r.large))
        + multiset(Names(r.ok)) + multiset(Names(r.broken)));
    case MedOverflow =>
      NamesSnoc(r.med, t);
      Regroup(multiset(Names(r.min)) + multiset(Names(r.med)), n, multiset(Names(r.large))
        + multiset(Names(r.ok)) + multiset(Names(r.broken)));
    case LargeOverflow =>
      NamesSnoc(r.large, t);
      Regroup(multiset(Names(r.min)) + multiset(Names(r.med)) + multiset(Names(r.large)), n,
        multiset(Names(r.ok)) + multiset(Names(r.broken)));
    case InBounds =>
      NamesSnoc(r.ok, t);
      Regroup(multiset(Names(r.min)) + multiset(Names(r.med)) + multiset(Names(r.large))
        + multiset(Names(r.ok)), n, multiset(Names(r.broken)));
    case Broken =>
      NamesSnoc(r.broken, t);
  }

  lemma Regroup(a: multiset<string>, x: multiset<string>, b: multiset<string>)
    ensures a + x + b == a + b + x
  {
  }

  lemma NamesSnoc(cases: seq<TestCase>, t: TestCase)
    ensures multiset(Names(cases + [t])) == multiset(Names(cases)) + multiset{t.name}
  {
    assert Names(cases + [t]) == Names(cases) + [t.name];
  }

  /** `os.WIFEXITED` on Linux: the low seven bits of the status are zero. */
  predicate Exited(status: int) {
    status % 128 == 0
  }

  /** `os.WIFSIGNALED` on Linux: the low seven bits are neither zero nor 127
      (127 marks a stopped process). */
  predicate Signaled(status: int) {
    status % 128 != 0 && status % 128 != 127
  }

  /** `os.WEXITSTATUS` on Linux: bits 8 to 15 of the status. */
  function ExitStatus(status: int): (r: nat)
    ensures r < 256
  {
    (status / 256) % 256
  }

  /** A clean exit is a status whose low sixteen bits are 0, or 0x80 (the
      core-dump flag alone). */
  lemma CleanExit(status: int)
    ensures Exited(status) && ExitStatus(status) == 0
        <==> status % 65536 == 0 || status % 65536 == 128
  {
    var low := status % 65536;
    assert status == 65536 * (status / 65536) + low;
    assert status % 128 == low % 128;
    assert (status / 256) % 256 == low / 256;
  }

  /** A status never counts as both exited and killed by a signal. */
  lemma ExitedOrSignaled(status: int)
    ensures !(Exited(status) && Signaled(status))
    ensures Exited(status) || Signaled(status) <==> status % 128 != 127
  {
  }

  /** The overflow suite a test goes to, by the suffix of its name; `None`
      for a name with none of the three overflow suffixes. */
  function OverflowSuite(stem: string): Option<Suite> {
    if EndsWith(stem, "-min") then Some(MinOverflow)
    else if EndsWith(stem, "-med") then Some(MedOverflow)
    else if EndsWith(stem, "-large") then Some(LargeOverflow)
    else None
  }

  /** Where one output file goes and with which result: `known` says whether
      the stem was still in the expected list. */
  function Classify(stem: string, fileName: string, known: bool, contents: string): (r: (Suite, Outcome))
    ensures r.0 == Broken <==> r.1.Error?
    ensures r.1.Passed? ==> known && ParseInt(contents).Some?
  {
    if !known then (Broken, Error("UNEXPECTED TEST NAME: " + fileName))
    else match ParseInt(contents)
      case None => (Broken, Error("INVALID OUTPUT FILE CONTENTS: " + fileName))
      case Some(status) =>
        if EndsWith(stem, "-ok") then
          (InBounds, if Exited(status) && ExitStatus(status) == 0 then Passed
                     else Failure("Expected exit code 0 but got " + contents))
        else match OverflowSuite(stem)
        case None => (Broken, Error("INVALID OUTPUT FILE FOUND: " + fileName))
        case Some(s) =>
          (s, if Signaled(status) then Passed
              else Failure("Expected test to be killed by a SIGNAL but got exit code" + contents))
  }

  /** The checks made on one output file, in the order the script makes
      them: is the name expected, are the contents a number, which variant
      is it, and did the test behave as that variant should. */
  method Judge(stem: string, fileName: string, known: bool, contents: string)
    returns (suite: Suite, result: Outcome)
    ensures (suite, result) == Classify(stem, fileName, known, contents)
  {
    if !known {
      return Broken, Error("UNEXPECTED TEST NAME: " + fileName);
    }
    var status := ParseInt(contents);
    if status.None? {
      return Broken, Error("INVALID OUTPUT FILE CONTENTS: " + fileName);
    }
    result := Passed;
    if EndsWith(stem, "-ok") {
      if !Exited(status.value) || ExitStatus(status.value) != 0 {
        result := Failure("Expected exit code 0 but got " + contents);
      }
      return InBounds, result;
    }
    if EndsWith(stem, "-min") {
      suite := MinOverflow;
    } else if EndsWith(stem, "-med") {
      suite := MedOverflow;
    } else if EndsWith(stem, "-large") {
      suite := LargeOverflow;
    } else {
      return Broken, Error("INVALID OUTPUT FILE FOUND: " + fileName);
    }
    assert OverflowSuite(stem) == Some(suite);
    if !Signaled(status.value) {
      result := Failure("Expected test to be killed by a SIGNAL but got exit code" + contents);
    }
  }

  /** Every expected name carries one of the four suffixes. */
  lemma ExpectedNameSuite(k: nat)
    requires k < 4 * Tests
    ensures EndsWith(ExpectedName(k), "-ok") <==> k % 4 == 3
    ensures k % 4 < 3 ==> OverflowSuite(ExpectedName(k)) == Some([MinOverflow, MedOverflow, LargeOverflow][k % 4])
  {
    var n := ExpectedName(k);
    var v := Variants[k % 4];
    assert n[|n| - |v|..] == v;
    if k % 4 == 0 {
      assert n[|n| - 3..] == v[1..];
    } else if k % 4 == 1 {
      assert n[|n| - 3..] == v[1..];
      assert n[|n| - 4..] == v;
    } else if k % 4 == 2 {
      assert n[|n| - 3..] == v[3..];
      assert n[|n| - 4..] == v[2..];
    }
  }

  /** The file of an expected test with a well-formed status goes to its
      variant's suite, never to the broken suite, and passes exactly when the
      test behaved as its variant requires: a clean exit for `-ok`, death by a
      signal for the overflows. */
  lemma KnownOutcome(k: nat, fileName: string, contents: string, status: int)
    requires k < 4 * Tests
    requires ParseInt(contents) == Some(status)
    ensures var r := Classify(ExpectedName(k), fileName, true, contents);
      r.0 == [MinOverflow, MedOverflow, LargeOverflow, InBounds][k % 4]
      && !r.1.Error?
      && (r.1.Passed? <==> if k % 4 == 3 then Exited(status) && ExitStatus(status) == 0
                           else Signaled(status))
  {
    ExpectedNameSuite(k);
  }

  /** An output file as the loop reads it: the stem and name of its path,
      and its text. */
  datatype Output = Output(stem: string, fileName: string, contents: string)

  function OutputOf(path: string, contents: string): Output {
    Output(Stem(path), Name(path), contents)
  }

  /** The output files in the order they are processed: their paths sorted. */
  function SortedFiles(outputs: map<string, string>): (r: seq<string>)
    ensures forall i :: 0 <= i < |r| ==> r[i] in outputs
    ensures forall path :: path in outputs ==> path in r
    ensures StrOrder.StrictlySorted(r)
  {
    StrOrder.SortedSetSorted(outputs.Keys);
    StrOrder.SortedSet(outputs.Keys)
  }

  /** The output files of a directory, given as a map from paths to
      contents, in processing order. */
  function Outputs(outputs: map<string, string>): seq<Output> {
    OutputsOf(SortedFiles(outputs), outputs)
  }

  function OutputsOf(files: seq<string>, outputs: map<string, string>): seq<Output>
    requires forall i :: 0 <= i < |files| ==> files[i] in outputs
  {
    seq(|files|, i requires 0 <= i < |files| => OutputOf(files[i], outputs[files[i]]))
  }

  /** The names still expected and the report built so far. */
  datatype Progress = Progress(expected: seq<string>, report: Report)

  /** One iteration over an output file. */
  function Step(p: Progress, o: Output): (r: Progress)
    ensures |r.expected| == |p.expected| - (if o.stem in p.expected then 1 else 0)
  {
    var known := o.stem in p.expected;
    var (suite, result) := Classify(o.stem, o.fileName, known, o.contents);
    Progress(if known then RemoveFirst(p.expected, o.stem) else p.expected,
             Add(p.report, suite, TestCase(o.stem, result)))
  }

  /** The loop over the output files. */
  function Run(p: Progress, os: seq<Output>): (r: Progress)
    ensures |r.expected| <= |p.expected|
    decreases |os|
  {
    if |os| == 0 then p else Step(Run(p, os[..|os| - 1]), os[|os| - 1])
  }

  lemma RunLast(p: Progress, os: seq<Output>)
    requires |os| > 0
    ensures Run(p, os) == Step(Run(p, os[..|os| - 1]), os[|os| - 1])
  {
  }

  /** The closing loop: an error case for every test still expected. */
  function AddMissing(r: Report, missing: seq<string>): Report
    decreases |missing|
  {
    if |missing| == 0 then r
    else
      var last := missing[|missing| - 1];
      Add(AddMissing(r, missing[..|missing| - 1]), Broken,
          TestCase(last, Error("Could not find output for test " + last)))
  }

  /** The report for a directory whose output files map paths to contents. */
  function JUnitReport(outputs: map<string, string>): Report {
    var p := Run(Progress(ExpectedNames(), NoCases), Outputs(outputs));
    AddMissing(p.report, p.expected)
  }

  /** `_create_junit_xml`, without the XML: the five suites' test cases. */
  method CreateJUnitXml(outputs: map<string, string>) returns (r: Report)
    ensures r == JUnitReport(outputs)
  {
    var files := SortedFiles(outputs);
    var expected := ListExpectedNames();
    var missing, found := RecordOutputs(files, outputs, expected);
    r := RecordMissing(found, missing);
  }

  /** The loop over the sorted output files: each file's test case goes to
      its suite, and a known name leaves the expected list. */
  method RecordOutputs(files: seq<string>, outputs: map<string, string>, names: seq<string>)
    returns (expected: seq<string>, r: Report)
    requires forall i :: 0 <= i < |files| ==> files[i] in outputs
    ensures Progress(expected, r) == Run(Progress(names, NoCases), OutputsOf(files, outputs))
  {
    expected := names;
    var min, med, large, ok, broken := [], [], [], [], [];
    ghost var os := OutputsOf(files, outputs);
    ghost var start := Progress(names, NoCases);
    var i := 0;
    while i < |files|
      invariant i <= |files|
      invariant Progress(expected, Report(min, med, large, ok, broken)) == Run(start, os[..i])
    {
      var path := files[i];
      var contents := outputs[path];
      var stem := Stem(path);
      assert os[i] == Output(stem, Name(path), contents);
      RunLast(start, os[..i + 1]);
      assert os[..i + 1][..i] == os[..i];
      i := i + 1;
      var known := stem in expected;
      if known {
        expected := RemoveFirst(expected, stem);
      }
      var suite, result := Judge(stem, Name(path), known, contents);
      var testcase := TestCase(stem, result);
      match suite {
        case MinOverflow => min := min + [testcase];
        case MedOverflow => med := med + [testcase];
        case LargeOverflow => large := large + [testcase];
        case InBounds => ok := ok + [testcase];
        case Broken => broken := broken + [testcase];
      }
    }
    assert os[..|files|] == os;
    r := Report(min, med, large, ok, broken);
  }

  /** The closing loop: an error case in the broken suite for each name
      still expected. */
  method RecordMissing(found: Report, expected: seq<string>) returns (r: Report)
    ensures r == AddMissing(found, expected)
  {
    var broken := found.broken;
    var j := 0;
    while j < |expected|
      invariant j <= |expected|
      invariant found.(broken := broken) == AddMissing(found, expected[..j])
    {
      var missing := expected[j];
      broken := broken + [TestCase(missing, Error("Could not find output for test " + missing))];
      assert expected[..j + 1][..j] == expected[..j];
      j := j + 1;
    }
    assert expected[..|expected|] == expected;
    r := found.(broken := broken);
  }

  /** The stems of the output files. */
  function Stems(os: seq<Output>): seq<string> {
    seq(|os|, i requires 0 <= i < |os| => os[i].stem)
  }

  lemma StemsLast(os: seq<Output>)
    requires |os| > 0
    ensures Stems(os) == Stems(os[..|os| - 1]) + [os[|os| - 1].stem]
  {
  }

  /** One file adds a test case named by its stem and takes that stem off
      the expected list, if it is there. */
  lemma StepAccounts(p: Progress, o: Output)
    ensures ReportNames(Step(p, o).report) == ReportNames(p.report) + multiset{o.stem}
    ensures multiset(Step(p, o).expected) == multiset(p.expected) - multiset{o.stem}
  {
    var (suite, result) := Classify(o.stem, o.fileName, o.stem in p.expected, o.contents);
    AddName(p.report, suite, TestCase(o.stem, result));
    if o.stem in p.expected {
      RemoveFirstMultiset(p.expected, o.stem);
    }
  }

  /** Every processed file adds a test case named by its stem and takes
      that stem off the expected list, if it is there. */
  lemma {:induction false} RunAccounts(p: Progress, os: seq<Output>)
    ensures ReportNames(Run(p, os).report) == ReportNames(p.report) + multiset(Stems(os))
    ensures multiset(Run(p, os).expected) == multiset(p.expected) - multiset(Stems(os))
    decreases |os|
  {
    if |os| > 0 {
      var init := os[..|os| - 1];
      var o := os[|os| - 1];
      RunAccounts(p, init);
      StepAccounts(Run(p, init), o);
      StemsLast(os);
      Subtract(multiset(p.expected), multiset(Stems(init)), o.stem);
    }
  }

  lemma Subtract(a: multiset<string>, s: multiset<string>, x: string)
    ensures a - s - multiset{x} == a - (s + multiset{x})
  {
  }

  /** Every missing test adds one error case. */
  lemma {:induction false} MissingAccounts(r: Report, missing: seq<string>)
    ensures ReportNames(AddMissing(r, missing)) == ReportNames(r) + multiset(missing)
    decreases |missing|
  {
    if |missing| > 0 {
      var init := missing[..|missing| - 1];
      var last := missing[|missing| - 1];
      MissingAccounts(r, init);
      AddName(AddMissing(r, init), Broken, TestCase(last, Error("Could not find output for test " + last)));
      assert missing == init + [last];
    }
  }

  /** The report names every output file by its stem, and every expected
      test for which no file had that stem. */
  lemma ReportAccounts(outputs: map<string, string>)
    ensures var stems := multiset(Stems(Outputs(outputs)));
      ReportNames(JUnitReport(outputs)) == stems + (multiset(ExpectedNames()) - stems)
  {
    var start := Progress(ExpectedNames(), NoCases);
    var p := Run(start, Outputs(outputs));
    RunAccounts(start, Outputs(outputs));
    MissingAccounts(p.report, p.expected);
  }

  /** No two output files share a stem. */
  predicate StemsDistinct(outputs: map<string, string>) {
    forall a, b :: a in outputs && b in outputs && a != b ==> Stem(a) != Stem(b)
  }

  /** When no two output files share a stem (as for the output files found in
      one directory), every expected test appears in the report exactly once. */
  lemma EachTestReportedOnce(outputs: map<string, string>, name: string)
    requires StemsDistinct(outputs)
    requires name in ExpectedNames()
    ensures multiset(Names(AllCases(JUnitReport(outputs))))[name] == 1
  {
    ReportAccounts(outputs);
    ExpectedNamesDistinct();
    DistinctOnce(ExpectedNames(), name);
    StemsOnce(outputs, name);
    AllCasesNames(JUnitReport(outputs));
  }

  /** The test cases of all five suites, in the order of the suites. */
  function AllCases(r: Report): seq<TestCase> {
    r.min + r.med + r.large + r.ok + r.broken
  }

  lemma NamesAppend(a: seq<TestCase>, b: seq<TestCase>)
    ensures Names(a + b) == Names(a) + Names(b)
  {
  }

  lemma AllCasesNames(r: Report)
    ensures multiset(Names(AllCases(r))) == ReportNames(r)
  {
    NamesAppend(r.min, r.med);
    NamesAppend(r.min + r.med, r.large);
    NamesAppend(r.min + r.med + r.large, r.ok);
    NamesAppend(r.min + r.med + r.large + r.ok, r.broken);
  }

  /** A list without repeats holds each of its elements once. */
  lemma {:induction false} DistinctOnce(s: seq<string>, x: string)
    requires Distinct(s) && x in s
    ensures multiset(s)[x] == 1
    decreases |s|
  {
    var init := s[..|s| - 1];
    assert s == init + [s[|s| - 1]];
    if s[|s| - 1] == x {
      assert x !in init;
    } else {
      DistinctOnce(init, x);
    }
  }

  /** Files whose stems differ give each stem at most once. */
  lemma StemsOnce(outputs: map<string, string>, name: string)
    requires StemsDistinct(outputs)
    ensures multiset(Stems(Outputs(outputs)))[name] <= 1
  {
    var files := SortedFiles(outputs);
    var st := Stems(Outputs(outputs));
    forall a, b | 0 <= a < b < |st| ensures st[a] != st[b] {
      StrOrder.LessIrreflexive(files[a]);
      assert st[a] == Stem(files[a]) && st[b] == Stem(files[b]);
    }
    if name in st {
      DistinctOnce(st, name);
    }
  }
}
