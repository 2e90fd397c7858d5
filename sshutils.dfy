/** The `~/.ssh/config` fragment generated for a QEMU guest: a `Host` block
    that connects to localhost on the forwarded port. */
module SshUtils {

  import opened Wrappers
  import opened Strs
  import opened Paths

  /** `n` spaces. */
  function Spaces(n: nat): (r: string)
    ensures |r| == n && forall i :: 0 <= i < n ==> r[i] == ' '
  {
    if n == 0 then "" else Spaces(n - 1) + " "
  }

  /** One line of the generated text: an indented `keyword value` setting,
      an indented `#` comment given by its words, or indentation alone. */
  datatype Entry =
    | Setting(indent: nat, keyword: string, value: string)
    | Comment(words: seq<string>)
    | Blank(indent: nat)

  /** The indentation of everything inside the `Host` block. */
  const Inner: nat := 12

  function Render(e: Entry): string {
    match e
    case Setting(indent, keyword, value) => Spaces(indent) + keyword + " " + value
    case Comment(words) => Spaces(Inner) + "# " + Join(" ", words)
    case Blank(indent) => Spaces(indent)
  }

  /** A keyword as `ssh` splits it off: non-empty and free of white space. */
  predicate Keyword(k: string) {
    |k| > 0 && forall i :: 0 <= i < |k| ==> k[i] != ' ' && !IsSpace(k[i])
  }

  /** The defaults of `instance_name` and `ssh_user`. */
  const DefaultInstanceName: string := "cheribsd-test-instance"
  const DefaultUser: string := "root"

  /** The lines of the generated text, in order; `home` is `Path.home()`. */
  function Entries(port: int, key: string, name: string, user: string, home: string): (r: seq<Entry>)
    requires Name(key) != ""
    ensures |r| == 18 && r[0] == Blank(0) && r[17] == Blank(4)
    ensures r[1..6] == HostEntries(port, key, name, user)
  {
    var h := HostEntries(port, key, name, user);
    var r := [Blank(0)] + h + (OptionEntries(home) + [Blank(4)]);
    assert r[1..6] == h;
    r
  }

  /** Where and as whom to connect. */
  function HostEntries(port: int, key: string, name: string, user: string): (r: seq<Entry>)
    requires Name(key) != ""
    ensures |r| == 5
  {
    [Setting(4, "Host", name),
     Setting(Inner, "User", user),
     Setting(Inner, "HostName", "localhost"),
     Setting(Inner, "Port", IntToString(port)),
     Setting(Inner, "IdentityFile", WithSuffix(key, ""))]
  }

  /** Host-key checking off and a shared connection kept for ten minutes. */
  function OptionEntries(home: string): (r: seq<Entry>)
    ensures |r| == 11
  {
    [Comment(["avoid", "errors", "due", "to", "changed", "host", "key:"]),
     Setting(Inner, "UserKnownHostsFile", "/dev/null"),
     Setting(Inner, "StrictHostKeyChecking", "no"),
     Setting(Inner, "NoHostAuthenticationForLocalhost", "yes"),
     Comment(["faster", "connection", "by", "reusing", "the", "existing", "one:"]),
     Setting(Inner, "ControlPath", home + "/.ssh/" + "controlmasters/" + "%r@%h:%p"),
     Comment(["ConnectTimeout", "20"]),
     Comment(["ConnectionAttempts", "2"]),
     Setting(Inner, "ControlMaster", "auto"),
     Comment(["Keep", "socket", "open", "for", "10", "min", "(600)", "or", "indefinitely", "(yes)"]),
     Setting(Inner, "ControlPersist", "600")]
  }

  function RenderAll(es: seq<Entry>): (r: seq<string>)
    ensures |r| == |es| && forall i :: 0 <= i < |es| ==> r[i] == Render(es[i])
  {
    seq(|es|, i requires 0 <= i < |es| => Render(es[i]))
  }

  /** `generate_ssh_config_file_for_qemu`: the lines joined with newlines.
      `with_suffix` raises `ValueError` for a key path with an empty name. */
  function GenerateSshConfig(port: int, key: string, name: string, user: string, home: string): (r: Result<string>)
    ensures r.Ok? <==> Name(key) != ""
    ensures r.Ok? ==> r.value == Join("\n", RenderAll(Entries(port, key, name, user, home)))
  {
    if Name(key) == "" then Err("with_suffix: the key path has an empty name")
    else Ok(Join("\n", RenderAll(Entries(port, key, name, user, home))))
  }

  /** How `ssh` reads a configuration line: without its indentation, the
      keyword up to the first space and the value after it. */
  function ParseLine(line: string): (r: (string, string))
    ensures ' ' !in r.0
  {
    var t := LStrip(line);
    var k := Find(t, ' ');
    if k < 0 then (t, "") else (t[..k], t[k + 1..])
  }

  /** A rendered setting reads back as its keyword and value. */
  lemma ParseSetting(indent: nat, keyword: string, value: string)
    requires Keyword(keyword)
    ensures ParseLine(Render(Setting(indent, keyword, value))) == (keyword, value)
  {
    var sp := Spaces(indent);
    assert sp + keyword + " " + value == sp + (keyword + " " + value);
    LStripPrefix(sp, keyword + " " + value);
    assert keyword + " " + value == keyword + (" " + value);
    FindAfter(keyword, " " + value, ' ');
  }

  lemma HostKeywords()
    ensures Keyword("Host") && Keyword("User") && Keyword("HostName") && Keyword("Port") && Keyword("IdentityFile")
  {
  }

  /** Read back, the block names the instance, the user, localhost and the
      forwarded port, and identifies with the private key next to the
      public one. */
  lemma ReadBack(port: int, key: string, name: string, user: string, home: string)
    requires Name(key) != ""
    ensures var lines := RenderAll(Entries(port, key, name, user, home));
      ParseLine(lines[1]) == ("Host", name) && ParseLine(lines[2]) == ("User", user) &&
      ParseLine(lines[3]) == ("HostName", "localhost") &&
      ParseLine(lines[4]) == ("Port", IntToString(port)) &&
      ParseLine(lines[5]) == ("IdentityFile", WithSuffix(key, ""))
  {
    var es := Entries(port, key, name, user, home);
    var hs := HostEntries(port, key, name, user);
    assert es[1] == hs[0] && es[2] == hs[1] && es[3] == hs[2] && es[4] == hs[3] && es[5] == hs[4];
    HostKeywords();
    ParseSetting(4, "Host", name);
    ParseSetting(Inner, "User", user);
    ParseSetting(Inner, "HostName", "localhost");
    ParseSetting(Inner, "Port", IntToString(port));
    ParseSetting(Inner, "IdentityFile", WithSuffix(key, ""));
  }
}
