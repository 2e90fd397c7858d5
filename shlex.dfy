/** `shlex.quote`: a string made into one word of a POSIX shell command
    line, and the shell's reading of such a word back. */
module Shlex {

  import opened Strs

  /** The characters `shlex.quote` leaves unquoted: ASCII letters, digits,
      "_" and "@%+=:,./-". */
  predicate SafeChar(c: char) {
    ('a' <= c <= 'z') || ('A' <= c <= 'Z') || ('0' <= c <= '9') || c == '_' ||
    c == '@' || c == '%' || c == '+' || c == '=' || c == ':' || c == ',' || c == '.' || c == '/' || c == '-'
  }

  predicate AllSafe(s: string) {
    forall i :: 0 <= i < |s| ==> SafeChar(s[i])
  }

  /** How a single quote is written inside a single-quoted word: close the
      quotes, a double-quoted "'", open them again. */
  const QuoteEscape: string := "'\"'\"'"

  /** `shlex.quote(s)`: "''" for the empty string, the string itself when
      every character is safe, and otherwise the string in single quotes
      with each single quote escaped. */
  function Quote(s: string): (r: string)
    ensures AllSafe(s) && s != "" ==> r == s
    ensures !(AllSafe(s) && s != "") ==> |r| >= 2 && r[0] == '\'' && r[|r| - 1] == '\''
  {
    if s == "" then "''"
    else if AllSafe(s) then s
    else "'" + Replace(s, "'", QuoteEscape) + "'"
  }

  /** The word a POSIX shell reads from `w`, for words made of plain
      characters, single-quoted and double-quoted parts (backslash escapes
      are not read). `single`/`double`: inside such a part. */
  function Unquote(w: string, single: bool, double: bool): string
    decreases |w|
  {
    if |w| == 0 then ""
    else if single then
      if w[0] == '\'' then Unquote(w[1..], false, false) else [w[0]] + Unquote(w[1..], true, false)
    else if double then
      if w[0] == '"' then Unquote(w[1..], false, false) else [w[0]] + Unquote(w[1..], false, true)
    else if w[0] == '\'' then Unquote(w[1..], true, false)
    else if w[0] == '"' then Unquote(w[1..], false, true)
    else [w[0]] + Unquote(w[1..], false, false)
  }

  /** The shell reads a quoted word back as the string that was quoted. */
  lemma QuoteRoundTrip(s: string)
    ensures Unquote(Quote(s), false, false) == s
  {
    if s == "" {
      assert Quote(s)[1..] == "'";
      assert Quote(s)[1..][1..] == "";
    } else if AllSafe(s) {
      SafeUnquoted(s);
    } else {
      var body := Replace(s, "'", QuoteEscape);
      assert Quote(s)[1..] == body + "'";
      QuotedBody(s);
    }
  }

  lemma {:induction false} SafeUnquoted(s: string)
    requires AllSafe(s)
    ensures Unquote(s, false, false) == s
    decreases |s|
  {
    if |s| > 0 {
      assert SafeChar(s[0]);
      SafeUnquoted(s[1..]);
    }
  }

  /** Inside single quotes, the escaped text up to the closing quote reads
      back as the original text. */
  lemma {:induction false} QuotedBody(s: string)
    ensures Unquote(Replace(s, "'", QuoteEscape) + "'", true, false) == s
    decreases |s|
  {
    if |s| == 0 {
      assert Replace(s, "'", QuoteEscape) + "'" == "'";
    } else if s[0] == '\'' {
      var rest := Replace(s[1..], "'", QuoteEscape) + "'";
      assert s[..1] == "'";
      var w := Replace(s, "'", QuoteEscape) + "'";
      assert w == QuoteEscape + rest;
      EscapeRead(rest);
      assert s == "'" + s[1..];
      QuotedBody(s[1..]);
    } else {
      var rest := Replace(s[1..], "'", QuoteEscape) + "'";
      assert s[..1] != "'";
      var w := Replace(s, "'", QuoteEscape) + "'";
      assert w == [s[0]] + rest;
      assert w[1..] == rest;
      QuotedBody(s[1..]);
    }
  }

  /** The escape of a single quote, read inside single quotes, is one
      single quote, and the reading goes on inside single quotes. */
  lemma EscapeRead(rest: string)
    ensures Unquote(QuoteEscape + rest, true, false) == "'" + Unquote(rest, true, false)
  {
    var w := QuoteEscape + rest;
    assert w[0] == '\'' && w[1..][0] == '"' && w[1..][1..][0] == '\'';
    assert w[1..][1..][1..][0] == '"' && w[1..][1..][1..][1..][0] == '\'';
    assert w[1..][1..][1..][1..][1..] == rest;
    assert Unquote(w, true, false) == Unquote(w[1..], false, false);
    assert Unquote(w[1..], false, false) == Unquote(w[1..][1..], false, true);
    assert Unquote(w[1..][1..], false, true) == "'" + Unquote(w[1..][1..][1..], false, true);
    assert Unquote(w[1..][1..][1..], false, true) == Unquote(w[1..][1..][1..][1..], false, false);
    assert Unquote(w[1..][1..][1..][1..], false, false) == Unquote(rest, true, false);
  }
}
