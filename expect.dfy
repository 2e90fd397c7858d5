/** Expect-style sessions over scripted transcripts. A subordinate process
    is represented by the lines it will print, each with the number of
    seconds that pass before it appears; `expect` reads lines until one of
    them holds one of the patterns, the time runs out, or the output ends. */
module Expect {

  import opened Wrappers
  import opened Strs

  /** One line of a subordinate's output, `delay` seconds after the previous one. */
  datatype Line = Line(text: string, delay: nat)

  /** What one `expect` call ends with: the index of the pattern that matched,
      a `pexpect.TIMEOUT` or a `pexpect.EOF`. */
  datatype Outcome = Matched(index: nat) | TimedOut | EndOfFile

  /** Whether a pattern matches a line: substring search for `expect_exact`,
      the regular-expression engine (not modelled) for `expect`. */
  type Matcher = (string, string) -> bool

  /** `expect_exact`'s matcher: the literal occurs in the line. */
  predicate Exact(text: string, pattern: string) {
    Contains(text, pattern)
  }

  /** The lowest index of a pattern that matches the line. */
  function FirstHit(m: Matcher, text: string, patterns: seq<string>): (r: Option<nat>)
    ensures r.Some? ==> r.value < |patterns| && m(text, patterns[r.value])
    decreases |patterns|
  {
    if |patterns| == 0 then None
    else if m(text, patterns[0]) then Some(0)
    else
      match FirstHit(m, text, patterns[1..])
      case None => None
      case Some(i) => Some(i + 1)
  }

  /** The pattern reported is the first that matches, and none is reported
      only when no pattern matches. */
  lemma {:induction false} FirstHitLowest(m: Matcher, text: string, patterns: seq<string>)
    ensures var r := FirstHit(m, text, patterns);
      (r.Some? ==> forall j :: 0 <= j < r.value ==> !m(text, patterns[j])) &&
      (r.None? ==> forall j :: 0 <= j < |patterns| ==> !m(text, patterns[j]))
    decreases |patterns|
  {
    if |patterns| > 0 && !m(text, patterns[0]) {
      FirstHitLowest(m, text, patterns[1..]);
      forall j | 1 <= j < |patterns| ensures patterns[j] == patterns[1..][j - 1] {
      }
    }
  }

  /** A pattern list with some patterns put in front: a line that none of
      the front patterns matches is reported with its index shifted by
      the number of front patterns. */
  lemma {:induction false} FirstHitShift(m: Matcher, text: string, front: seq<string>, patterns: seq<string>)
    ensures FirstHit(m, text, front).Some? ==> FirstHit(m, text, front + patterns) == FirstHit(m, text, front)
    ensures FirstHit(m, text, front).None? ==>
      FirstHit(m, text, front + patterns) ==
        (match FirstHit(m, text, patterns) case None => None case Some(i) => Some(|front| + i))
    decreases |front|
  {
    if |front| > 0 {
      assert (front + patterns)[0] == front[0];
      assert (front + patterns)[1..] == front[1..] + patterns;
      FirstHitShift(m, text, front[1..], patterns);
    } else {
      assert front + patterns == patterns;
    }
  }

  /** One `expect(patterns, timeout)` over the output still to be read: the
      outcome and the number of lines it consumed. The first line that some
      pattern matches decides, and among the patterns the lowest index wins;
      the call times out when the next line would come later than `timeout`
      seconds after the call. */
  function Scan(m: Matcher, lines: seq<Line>, patterns: seq<string>, timeout: nat): (r: (Outcome, nat))
    ensures r.1 <= |lines|
    ensures r.0.Matched? ==> r.1 > 0 && r.0.index < |patterns|
    ensures r.0.EndOfFile? ==> r.1 == |lines|
    ensures r.0.TimedOut? ==> r.1 < |lines|
    decreases |lines|
  {
    if |lines| == 0 then (EndOfFile, 0)
    else if lines[0].delay > timeout then (TimedOut, 0)
    else
      match FirstHit(m, lines[0].text, patterns)
      case Some(i) => (Matched(i), 1)
      case None =>
        var r := Scan(m, lines[1..], patterns, timeout - lines[0].delay);
        (r.0, r.1 + 1)
  }

  /** A match is reported on the last line read, for the pattern that line
      reports first. */
  lemma {:induction false} ScanHit(m: Matcher, lines: seq<Line>, patterns: seq<string>, timeout: nat)
    ensures var r := Scan(m, lines, patterns, timeout);
      r.0.Matched? ==> FirstHit(m, lines[r.1 - 1].text, patterns) == Some(r.0.index)
    decreases |lines|
  {
    if |lines| > 0 && lines[0].delay <= timeout && FirstHit(m, lines[0].text, patterns).None? {
      ScanHit(m, lines[1..], patterns, timeout - lines[0].delay);
      var r := Scan(m, lines[1..], patterns, timeout - lines[0].delay);
      if r.0.Matched? {
        assert lines[1..][r.1 - 1] == lines[r.1];
      }
    }
  }

  /** The seconds that pass while the first `n` lines are printed. */
  function Elapsed(lines: seq<Line>, n: nat): nat
    requires n <= |lines|
    decreases n
  {
    if n == 0 then 0 else Elapsed(lines, n - 1) + lines[n - 1].delay
  }

  lemma {:induction false} ElapsedTail(lines: seq<Line>, n: nat)
    requires 0 < n <= |lines|
    ensures Elapsed(lines, n) == lines[0].delay + Elapsed(lines[1..], n - 1)
    decreases n
  {
    if n > 1 {
      ElapsedTail(lines, n - 1);
    }
  }

  /** A match is never later than the timeout, and a timeout is reported
      only when the line after those read would come too late. */
  lemma {:induction false} ScanInTime(m: Matcher, lines: seq<Line>, patterns: seq<string>, timeout: nat)
    ensures var r := Scan(m, lines, patterns, timeout);
      r.0.Matched? ==> Elapsed(lines, r.1) <= timeout
    ensures var r := Scan(m, lines, patterns, timeout);
      r.0.TimedOut? ==> Elapsed(lines, r.1 + 1) > timeout
    decreases |lines|
  {
    var r := Scan(m, lines, patterns, timeout);
    if |lines| > 0 && lines[0].delay <= timeout && FirstHit(m, lines[0].text, patterns).None? {
      var t := timeout - lines[0].delay;
      ScanInTime(m, lines[1..], patterns, t);
      var r' := Scan(m, lines[1..], patterns, t);
      if r.0.Matched? {
        ElapsedTail(lines, r.1);
      }
      if r.0.TimedOut? {
        ElapsedTail(lines, r.1 + 1);
      }
    } else if |lines| > 0 {
      ElapsedTail(lines, 1);
    }
  }

  /** An `expect` whose pattern list starts with extra patterns sees the
      caller's own patterns at indices shifted by the number of extra ones,
      as long as no line before the match holds an extra pattern. */
  lemma {:induction false} ScanShift(m: Matcher, lines: seq<Line>, front: seq<string>, patterns: seq<string>, timeout: nat)
    requires forall j :: 0 <= j < |lines| ==> FirstHit(m, lines[j].text, front).None?
    ensures var r := Scan(m, lines, front + patterns, timeout);
      var s := Scan(m, lines, patterns, timeout);
      r.1 == s.1 && (s.0.Matched? ==> r.0 == Matched(|front| + s.0.index)) && (!s.0.Matched? ==> r.0 == s.0)
    decreases |lines|
  {
    if |lines| > 0 && lines[0].delay <= timeout {
      FirstHitShift(m, lines[0].text, front, patterns);
      ScanShift(m, lines[1..], front, patterns, timeout - lines[0].delay);
    }
  }

  /** One milestone: `expect_exact(patterns, timeout)` that must report the
      first pattern; any other pattern is the alternative that signals a
      failure. */
  datatype Milestone = Milestone(patterns: seq<string>, timeout: nat)

  /** How far a sequence of milestones got: all reached, with the line that
      satisfied each, or stopped at one with the outcome of its `expect`. */
  datatype Progress = Reached(positions: seq<nat>, consumed: nat) | Stopped(step: nat, outcome: Outcome)

  predicate Increasing(ps: seq<nat>) {
    forall i, j :: 0 <= i < j < |ps| ==> ps[i] < ps[j]
  }

  /** The progress after one more milestone `m`, given the progress `p`
      after `n` milestones: the milestone is expected on the lines that the
      earlier ones left unread. */
  function Then(lines: seq<Line>, p: Progress, n: nat, m: Milestone): Progress
    requires p.Reached? ==> p.consumed <= |lines|
  {
    match p
    case Stopped(k, o) => Stopped(k, o)
    case Reached(ps, c) =>
      var s := Scan(Exact, lines[c..], m.patterns, m.timeout);
      var c' := c + s.1;
      if s.0 != Matched(0) then Stopped(n, s.0) else Reached(ps + [c' - 1], c')
  }

  /** The progress after the first `k` milestones of `ms`, expected one
      after another on a session printing `lines`. */
  function Progressed(lines: seq<Line>, ms: seq<Milestone>, k: nat): (r: Progress)
    requires k <= |ms|
    ensures r.Reached? ==> |r.positions| == k && r.consumed <= |lines|
    ensures r.Stopped? ==> r.step < k && r.outcome != Matched(0)
    decreases k
  {
    if k == 0 then Reached([], 0) else Then(lines, Progressed(lines, ms, k - 1), k - 1, ms[k - 1])
  }

  /** The milestones `ms` expected one after another on one session. */
  function Run(lines: seq<Line>, ms: seq<Milestone>): Progress {
    Progressed(lines, ms, |ms|)
  }

  /** The progress after `k` milestones depends on those `k` only. */
  lemma {:induction false} ProgressedPrefix(lines: seq<Line>, ms: seq<Milestone>, ms': seq<Milestone>, k: nat)
    requires k <= |ms| && k <= |ms'| && ms[..k] == ms'[..k]
    ensures Progressed(lines, ms, k) == Progressed(lines, ms', k)
    decreases k
  {
    if k > 0 {
      assert ms[k - 1] == ms[..k][k - 1] == ms'[k - 1];
      assert ms[..k - 1] == ms[..k][..k - 1] == ms'[..k - 1];
      ProgressedPrefix(lines, ms, ms', k - 1);
    }
  }

  /** Expecting the first `k` milestones of a list as a list of their own. */
  lemma RunPrefix(lines: seq<Line>, ms: seq<Milestone>, k: nat)
    requires k <= |ms|
    ensures Run(lines, ms[..k]) == Progressed(lines, ms, k)
  {
    ProgressedPrefix(lines, ms[..k], ms, k);
  }

  /** Once a milestone fails, the later ones are not expected: the
      progress stays where it stopped. */
  lemma {:induction false} ProgressedStopped(lines: seq<Line>, ms: seq<Milestone>, k: nat, j: nat)
    requires k <= j <= |ms| && Progressed(lines, ms, k).Stopped?
    ensures Progressed(lines, ms, j) == Progressed(lines, ms, k)
    decreases j
  {
    if j > k {
      ProgressedStopped(lines, ms, k, j - 1);
    }
  }

  /** The list of milestones ends as its first `k` do when those stop. */
  lemma RunStoppedAt(lines: seq<Line>, ms: seq<Milestone>, k: nat)
    requires k <= |ms| && Progressed(lines, ms, k).Stopped?
    ensures Run(lines, ms) == Progressed(lines, ms, k)
  {
    ProgressedStopped(lines, ms, k, |ms|);
  }

  /** A milestone whose first line in time holds one of its alternatives
      and not its first pattern fails there, with that alternative. */
  lemma ThenAlternative(lines: seq<Line>, p: Progress, n: nat, m: Milestone, i: nat)
    requires p.Reached? && p.consumed < |lines| && lines[p.consumed].delay <= m.timeout
    requires i != 0 && FirstHit(Exact, lines[p.consumed].text, m.patterns) == Some(i)
    ensures Then(lines, p, n, m) == Stopped(n, Matched(i))
  {
    var rest := lines[p.consumed..];
    assert rest[0] == lines[p.consumed];
  }

  /** The second pattern is reported for a line without the first. */
  lemma FirstHitSecond(m: Matcher, text: string, patterns: seq<string>)
    requires |patterns| >= 2 && !m(text, patterns[0]) && m(text, patterns[1])
    ensures FirstHit(m, text, patterns) == Some(1)
  {
    assert patterns[1..][0] == patterns[1];
  }

  /** A milestone reached after `p` was satisfied by the last line it
      consumed, a line after those `p` consumed that holds its first pattern. */
  /** Reaching milestone `k` means reaching the one before it and matching
      the first pattern of milestone `k` on a line after those it consumed. */
  lemma {:induction false} ProgressedReached(lines: seq<Line>, ms: seq<Milestone>, k: nat, p: Progress, q: Progress)
    requires 0 < k <= |ms| && p == Progressed(lines, ms, k - 1) && q == Progressed(lines, ms, k) && q.Reached?
    ensures p.Reached? && q.positions == p.positions + [q.consumed - 1] && p.consumed < q.consumed
    ensures |ms[k - 1].patterns| > 0 && Exact(lines[q.consumed - 1].text, ms[k - 1].patterns[0])
  {
    var m := ms[k - 1];
    assert q == Then(lines, p, k - 1, m);
    var c := p.consumed;
    var s := Scan(Exact, lines[c..], m.patterns, m.timeout);
    ScanHit(Exact, lines[c..], m.patterns, m.timeout);
    assert lines[c..][s.1 - 1] == lines[c + s.1 - 1];
  }

  /** The lines that satisfied the milestones come one after another, all
      of them among the lines consumed. */
  lemma {:induction false} ProgressedIncreasing(lines: seq<Line>, ms: seq<Milestone>, k: nat)
    requires k <= |ms|
    ensures var r := Progressed(lines, ms, k);
      r.Reached? ==> Increasing(r.positions) && forall i :: 0 <= i < k ==> r.positions[i] < r.consumed
    decreases k
  {
    if k > 0 && Progressed(lines, ms, k).Reached? {
      ProgressedIncreasing(lines, ms, k - 1);
      IncreasingStep(lines, ms, k);
    }
  }

  lemma IncreasingStep(lines: seq<Line>, ms: seq<Milestone>, k: nat)
    requires 0 < k <= |ms| && Progressed(lines, ms, k).Reached?
    requires var p := Progressed(lines, ms, k - 1);
      p.Reached? ==> Increasing(p.positions) && forall i :: 0 <= i < k - 1 ==> p.positions[i] < p.consumed
    ensures var r := Progressed(lines, ms, k);
      Increasing(r.positions) && forall i :: 0 <= i < k ==> r.positions[i] < r.consumed
  {
    var p, r := Progressed(lines, ms, k - 1), Progressed(lines, ms, k);
    ProgressedReached(lines, ms, k, p, r);
    IncreasingSnoc(p.positions, r.positions, p.consumed, r.consumed);
  }

  lemma IncreasingSnoc(ps: seq<nat>, qs: seq<nat>, c: nat, c': nat)
    requires Increasing(ps) && (forall i :: 0 <= i < |ps| ==> ps[i] < c) && c < c' && qs == ps + [c' - 1]
    ensures Increasing(qs) && forall i :: 0 <= i < |qs| ==> qs[i] < c'
  {
  }

  /** When the milestones are reached, each was satisfied by a line holding
      its first pattern. */
  lemma {:induction false} ProgressedMatches(lines: seq<Line>, ms: seq<Milestone>, k: nat)
    requires k <= |ms|
    ensures var r := Progressed(lines, ms, k);
      r.Reached? ==> forall i :: 0 <= i < k ==>
        r.positions[i] < |lines| && |ms[i].patterns| > 0 && Exact(lines[r.positions[i]].text, ms[i].patterns[0])
    decreases k
  {
    if k > 0 && Progressed(lines, ms, k).Reached? {
      ProgressedMatches(lines, ms, k - 1);
      MatchesStep(lines, ms, k);
    }
  }

  lemma MatchesStep(lines: seq<Line>, ms: seq<Milestone>, k: nat)
    requires 0 < k <= |ms| && Progressed(lines, ms, k).Reached?
    requires var p := Progressed(lines, ms, k - 1);
      p.Reached? ==> forall i :: 0 <= i < k - 1 ==>
        p.positions[i] < |lines| && |ms[i].patterns| > 0 && Exact(lines[p.positions[i]].text, ms[i].patterns[0])
    ensures var r := Progressed(lines, ms, k);
      forall i :: 0 <= i < k ==>
        r.positions[i] < |lines| && |ms[i].patterns| > 0 && Exact(lines[r.positions[i]].text, ms[i].patterns[0])
  {
    var p, r := Progressed(lines, ms, k - 1), Progressed(lines, ms, k);
    ProgressedReached(lines, ms, k, p, r);
    MatchesSnoc(lines, ms, p.positions, r.consumed - 1, k);
  }

  lemma {:induction false} MatchesSnoc(lines: seq<Line>, ms: seq<Milestone>, ps: seq<nat>, c: nat, k: nat)
    requires 0 < k <= |ms| && |ps| == k - 1
    requires forall i :: 0 <= i < k - 1 ==>
      ps[i] < |lines| && |ms[i].patterns| > 0 && Exact(lines[ps[i]].text, ms[i].patterns[0])
    requires c < |lines| && |ms[k - 1].patterns| > 0 && Exact(lines[c].text, ms[k - 1].patterns[0])
    ensures forall i :: 0 <= i < k ==>
      (ps + [c])[i] < |lines| && |ms[i].patterns| > 0 && Exact(lines[(ps + [c])[i]].text, ms[i].patterns[0])
  {
  }

  /** When a whole list of milestones is reached, the lines that satisfied
      them come one after another, each holding its milestone's first
      pattern. */
  lemma RunPositions(lines: seq<Line>, ms: seq<Milestone>, r: Progress)
    requires r == Run(lines, ms) && r.Reached?
    ensures |r.positions| == |ms| && Increasing(r.positions) && r.consumed <= |lines|
    ensures forall i :: 0 <= i < |ms| ==>
      r.positions[i] < |lines| && |ms[i].patterns| > 0 && Exact(lines[r.positions[i]].text, ms[i].patterns[0])
  {
    ProgressedIncreasing(lines, ms, |ms|);
    ProgressedMatches(lines, ms, |ms|);
  }

  /** A session with a subordinate process whose output is scripted. */
  class Session {
    const command: string
    const args: seq<string>
    /** The seconds `expect` waits when the caller gives no timeout. */
    const defaultTimeout: nat
    /** Output not yet read by `expect`. */
    var pending: seq<Line>
    /** Output read so far. */
    var seen: seq<Line>
    /** Lines written to the subordinate's input. */
    var sent: seq<string>
    /** Whether output is mirrored to a log file. */
    var logging: bool

    constructor(command: string, args: seq<string>, defaultTimeout: nat, output: seq<Line>)
      ensures this.command == command && this.args == args && this.defaultTimeout == defaultTimeout
      ensures pending == output && seen == [] && sent == [] && logging
    {
      this.command := command;
      this.args := args;
      this.defaultTimeout := defaultTimeout;
      pending := output;
      seen := [];
      sent := [];
      logging := true;
    }

    /** `expect`/`expect_exact` with the matcher of the call; the lines read
        move from `pending` to `seen`. */
    method Expect(m: Matcher, patterns: seq<string>, timeout: nat) returns (o: Outcome)
      modifies this`pending, this`seen
      ensures var s := Scan(m, old(pending), patterns, timeout);
        o == s.0 && seen == old(seen) + old(pending)[..s.1] && pending == old(pending)[s.1..]
    {
      var s := Scan(m, pending, patterns, timeout);
      o := s.0;
      seen := seen + pending[..s.1];
      pending := pending[s.1..];
    }

    /** `send`: the text is written as it is. */
    method Send(text: string)
      modifies this`sent
      ensures sent == old(sent) + [text]
    {
      sent := sent + [text];
    }

    /** `sendline`: the text is written followed by a line break. */
    method SendLine(text: string)
      modifies this`sent
      ensures sent == old(sent) + [text + "\n"]
    {
      sent := sent + [text + "\n"];
    }

    /** `expect_exact` of milestone `k` of the list `ms` expected on this
        session's output `start`, the earlier ones having been reached:
        either the list has progressed by one milestone, or the whole list
        stops here with this call's outcome. */
    method ExpectMilestone(ms: seq<Milestone>, k: nat, ghost start: seq<Line>) returns (o: Outcome)
      requires k < |ms| && Progressed(start, ms, k).Reached? && pending == start[Progressed(start, ms, k).consumed..]
      modifies this`pending, this`seen
      ensures o == Matched(0) ==>
        Progressed(start, ms, k + 1).Reached? && pending == start[Progressed(start, ms, k + 1).consumed..]
      ensures o != Matched(0) ==> Progressed(start, ms, k + 1) == Stopped(k, o)
    {
      ghost var c := Progressed(start, ms, k).consumed;
      ghost var s := Scan(Exact, pending, ms[k].patterns, ms[k].timeout);
      o := Expect(Exact, ms[k].patterns, ms[k].timeout);
      assert start[c..][s.1..] == start[c + s.1..];
    }
  }
}
