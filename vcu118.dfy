/** Bringing up CheriBSD on a VCU118 FPGA board (vcu118-run.py): program
    the FPGA with Vivado, start the OpenOCD JTAG bridge, load the firmware
    and the kernel with GDB through it, and hand the serial console to the
    user. Every subordinate program is a scripted `Session` whose output is
    given when it is spawned; the host is the set of tools on $PATH, the
    files that exist and the log of what the script did to it. */
module Vcu118 {

  import opened Wrappers
  import opened Strs
  import opened Paths
  import opened Expect
  import opened Shlex
  import Boot = BootCheribsd

  /** Why the bring-up stops. */
  datatype Fault =
    | ToolMissing(tool: string)       // not on $PATH: a fatal error
    | Mismatch(milestone: string)     // another pattern than the awaited one matched: exit status 1
    | Timeout(milestone: string)      // `pexpect.TIMEOUT` escapes
    | EndOfOutput(milestone: string)  // `pexpect.EOF` escapes
    | KernelPanic                     // the console printed a panic marker: exit status 1
    | EmptyName(path: string)         // `with_suffix`/`with_name` on a path without a name
    | NoTty                           // `ValueError`: no serial port of the board
    | BootFailed                      // `boot_and_login` did not reach a shell

  /** The pattern a milestone waits for, naming it in a fault. */
  function Awaited(m: Milestone): string {
    if |m.patterns| == 0 then "" else m.patterns[0]
  }

  /** The fault of a milestone whose `expect_exact` ended with `o` instead of
      its first pattern. */
  function FaultAt(m: Milestone, o: Outcome): Fault {
    match o
    case Matched(_) => Mismatch(Awaited(m))
    case TimedOut => Timeout(Awaited(m))
    case EndOfFile => EndOfOutput(Awaited(m))
  }

  /** The fault, if any, of a list of milestones that progressed as `p`. */
  function Verdict(ms: seq<Milestone>, p: Progress): (r: Option<Fault>)
    requires p.Stopped? ==> p.step < |ms|
    ensures r.None? <==> p.Reached?
    ensures p.Stopped? ==> r == Some(FaultAt(ms[p.step], p.outcome))
  {
    match p
    case Reached(_, _) => None
    case Stopped(k, o) => Some(FaultAt(ms[k], o))
  }

  /** What the script does to the host besides talking to its sessions. */
  datatype Action = Spawned(argv: seq<string>) | Deleted(path: string) | Slept(seconds: nat) | Interacted

  /** The machine the script runs on. */
  class Host {
    /** `--pretend`: show what would happen. */
    const pretend: bool
    /** The programs `shutil.which` finds, with the path it gives for each. */
    const which: map<string, string>
    /** The working directory `os.path.abspath` resolves relative paths against. */
    const cwd: string
    /** The files that exist. */
    const files: set<string>
    /** The name of the temporary file holding a generated Tcl or OpenOCD script. */
    const scratch: string
    /** `sys.executable`, the Python that runs the serial terminal. */
    const python: string
    /** The seconds a spawned session's `expect` waits when neither the
        spawn nor the call gives a timeout (30 for `pexpect.spawn`). */
    const timeout: nat
    var actions: seq<Action>

    constructor(pretend: bool, which: map<string, string>, cwd: string, files: set<string>, scratch: string, python: string,
                timeout: nat)
      ensures this.pretend == pretend && this.which == which && this.cwd == cwd && this.files == files
      ensures this.scratch == scratch && this.python == python && this.timeout == timeout
      ensures actions == []
    {
      this.pretend := pretend;
      this.which := which;
      this.cwd := cwd;
      this.files := files;
      this.scratch := scratch;
      this.python := python;
      this.timeout := timeout;
      actions := [];
    }

    /** `pexpect.spawn(argv[0], argv[1:], timeout=...)`, or a `PretendSpawn`:
        a session that will print `output`. */
    method Spawn(argv: seq<string>, timeout: nat, output: seq<Line>) returns (s: Session)
      requires |argv| > 0
      modifies this`actions
      ensures fresh(s) && s.command == argv[0] && s.args == argv[1..] && s.defaultTimeout == timeout
      ensures s.pending == output && s.seen == [] && s.sent == [] && s.logging
      ensures actions == old(actions) + [Spawned(argv)]
    {
      s := new Session(argv[0], argv[1..], timeout, output);
      actions := actions + [Spawned(argv)];
    }
  }

  // ---------------------------------------------------------------------
  // Programming the FPGA

  const VivadoStarted: string := "****** Vivado"
  const VivadoExiting: string := "Exiting Vivado at"

  /** The Vivado command line running the Tcl script `script` on the two files. */
  function VivadoArgv(script: string, bitfile: string, ltxfile: string): (r: seq<string>)
    ensures |r| == 11 && r[0] == "vivado" && r[5] == script && r[9] == bitfile && r[10] == ltxfile
  {
    ["vivado", "-nojournal", "-notrace", "-nolog", "-source", script, "-mode", "batch", "-tclargs", bitfile, ltxfile]
  }

  /** What Vivado must print: its banner, "Programming...", "Done!" within
      five minutes, and its exit banner; the exit banner instead of any of
      the first three is a failure. `t` is the session's own timeout. */
  function Programming(t: nat): (ms: seq<Milestone>)
    ensures |ms| == 4 && ms[2].timeout == 5 * 60
    ensures forall k :: 0 <= k < 3 ==> |ms[k].patterns| == 2 && ms[k].patterns[1] == VivadoExiting
  {
    [ Milestone([VivadoStarted, VivadoExiting], t),
      Milestone(["Programming...", VivadoExiting], t),
      Milestone(["Done!", VivadoExiting], 5 * 60),
      Milestone([VivadoExiting], t) ]
  }

  /** How programming the FPGA ends for a Vivado that prints `output`. */
  function ProgrammingFault(output: seq<Line>, t: nat): Option<Fault> {
    Verdict(Programming(t), Run(output, Programming(t)))
  }

  /** After programming: the logs Vivado leaves behind are deleted, and a
      real run waits 3 seconds for the USB device to be released. */
  function Cleanup(pretend: bool): (r: seq<Action>)
    ensures |r| >= 2 && r[0] == Deleted("webtalk.log") && r[1] == Deleted("webtalk.jou")
    ensures Slept(3) in r <==> !pretend
  {
    [Deleted("webtalk.log"), Deleted("webtalk.jou")] + (if pretend then [] else [Slept(3)])
  }

  /** `expect_exact` of milestone `k` of `ms`, the earlier ones having been
      reached on the session's output `start`: either the list has
      progressed by one milestone, or the list stops here and the fault is
      the list's verdict. */
  method Await(s: Session, ms: seq<Milestone>, k: nat, ghost start: seq<Line>) returns (fault: Option<Fault>)
    requires k < |ms| && Progressed(start, ms, k).Reached? && s.pending == start[Progressed(start, ms, k).consumed..]
    modifies s`pending, s`seen
    ensures fault.None? ==>
      Progressed(start, ms, k + 1).Reached? && s.pending == start[Progressed(start, ms, k + 1).consumed..]
    ensures fault.Some? ==>
      Run(start, ms) == Progressed(start, ms, k + 1) && Run(start, ms).Stopped? && fault == Verdict(ms, Run(start, ms))
  {
    var o := s.ExpectMilestone(ms, k, start);
    if o != Matched(0) {
      RunStoppedAt(start, ms, k + 1);
      return Some(FaultAt(ms[k], o));
    }
    fault := None;
  }

  /** The conversation with Vivado in `load_bitfile`: four milestones in turn. */
  method AwaitProgramming(vivado: Session, ghost output: seq<Line>) returns (fault: Option<Fault>)
    requires vivado.pending == output
    modifies vivado`pending, vivado`seen
    ensures fault == ProgrammingFault(output, vivado.defaultTimeout)
  {
    fault := AwaitFour(vivado, Programming(vivado.defaultTimeout), output);
  }

  /** `expect_exact` of each of four milestones in turn, stopping at the
      first that fails. */
  method AwaitFour(s: Session, ms: seq<Milestone>, ghost output: seq<Line>) returns (fault: Option<Fault>)
    requires |ms| == 4 && s.pending == output
    modifies s`pending, s`seen
    ensures fault == Verdict(ms, Run(output, ms))
  {
    assert output[0..] == output;
    fault := Await(s, ms, 0, output);
    if fault.Some? {
      return;
    }
    fault := Await(s, ms, 1, output);
    if fault.Some? {
      return;
    }
    fault := Await(s, ms, 2, output);
    if fault.Some? {
      return;
    }
    fault := Await(s, ms, 3, output);
  }

  /** `load_bitfile`. A missing Vivado is fatal only in a real run (in a
      pretend run the fatal error is reported and the run goes on). */
  method LoadBitfile(host: Host, bitfile: string, ltxfile: string, output: seq<Line>) returns (fault: Option<Fault>)
    modifies host`actions
    ensures "vivado" !in host.which && !host.pretend ==>
      fault == Some(ToolMissing("vivado")) && host.actions == old(host.actions)
    ensures "vivado" in host.which || host.pretend ==>
      fault == ProgrammingFault(output, host.timeout) &&
      host.actions == old(host.actions) + [Spawned(VivadoArgv(host.scratch, bitfile, ltxfile))] +
        (if fault.None? then Cleanup(host.pretend) else [])
  {
    if "vivado" !in host.which && !host.pretend {
      return Some(ToolMissing("vivado"));
    }
    var vivado := host.Spawn(VivadoArgv(host.scratch, bitfile, ltxfile), host.timeout, output);
    fault := AwaitProgramming(vivado, output);
    if fault.None? {
      host.actions := host.actions + Cleanup(host.pretend);
    }
  }

  /** A programmed FPGA means Vivado printed its banner, "Programming...",
      "Done!" and its exit banner on four lines, in this order. */
  lemma {:induction false} ProgrammingOrder(output: seq<Line>, t: nat)
    requires ProgrammingFault(output, t).None?
    ensures exists i, j, k, l :: (0 <= i < j < k < l < |output| &&
      Exact(output[i].text, VivadoStarted) && Exact(output[j].text, "Programming...") &&
      Exact(output[k].text, "Done!") && Exact(output[l].text, VivadoExiting))
  {
    var ms := Programming(t);
    var r := Run(output, ms);
    ProgressedIncreasing(output, ms, 4);
    ProgressedMatches(output, ms, 4);
    var ps := r.positions;
    assert ps[0] < ps[1] < ps[2] < ps[3] < r.consumed <= |output|;
    assert Exact(output[ps[0]].text, ms[0].patterns[0]);
    assert Exact(output[ps[1]].text, ms[1].patterns[0]);
    assert Exact(output[ps[2]].text, ms[2].patterns[0]);
    assert Exact(output[ps[3]].text, ms[3].patterns[0]);
  }

  /** Vivado's exit banner on the line a milestone reads first, without the
      pattern awaited there, ends the programming with that milestone's
      failure. */
  lemma {:induction false} ExitBannerFails(output: seq<Line>, t: nat, k: nat)
    requires k < 3 && Progressed(output, Programming(t), k).Reached?
    requires var c := Progressed(output, Programming(t), k).consumed;
      c < |output| && output[c].delay <= Programming(t)[k].timeout &&
      Exact(output[c].text, VivadoExiting) && !Exact(output[c].text, Programming(t)[k].patterns[0])
    ensures ProgrammingFault(output, t) == Some(Mismatch(Programming(t)[k].patterns[0]))
  {
    var ms := Programming(t);
    var p := Progressed(output, ms, k);
    FirstHitSecond(Exact, output[p.consumed].text, ms[k].patterns);
    ThenAlternative(output, p, k, ms[k], 1);
    RunStoppedAt(output, ms, k + 1);
  }

  // ---------------------------------------------------------------------
  // The OpenOCD JTAG bridge

  const OcdBanner: string := "Open On-Chip Debugger"
  /** The regular expression announcing the GDB port. */
  const GdbListening: string := "Info : Listening on port (\\d+) for gdb connections"
  const TelnetListening: string := "Info : Listening on port 4444 for telnet connections"
  const ListenPrefix: string := "Info : Listening on port "
  const GdbSuffix: string := " for gdb connections"
  /** The GDB port assumed until the bridge names one. */
  const DefaultGdbPort: nat := 3333

  function OpenocdArgv(openocd: string, script: string): (r: seq<string>)
    ensures |r| == 3 && r[0] == openocd && r[1] == "-f" && r[2] == script
  {
    [openocd, "-f", script]
  }

  /** The length of the run of decimal digits `s` starts with. */
  function DigitRun(s: string): (k: nat)
    ensures k <= |s| && (forall i :: 0 <= i < k ==> IsDigit(s[i])) && (k < |s| ==> !IsDigit(s[k]))
    decreases |s|
  {
    if |s| == 0 || !IsDigit(s[0]) then 0 else 1 + DigitRun(s[1..])
  }

  /** The port, if `s` continues the GDB-port line after its prefix: one or
      more digits (as many as there are) and the rest of the line. */
  function PortAfter(s: string): Option<nat> {
    var k := DigitRun(s);
    if k > 0 && StartsWith(s[k..], GdbSuffix) then Some(DigitsValue(s[..k])) else None
  }

  /** The port captured by the leftmost match of the GDB-port expression in
      a line, if it matches anywhere. */
  function PortAt(text: string): Option<nat>
    decreases |text|
  {
    if StartsWith(text, ListenPrefix) && PortAfter(text[|ListenPrefix|..]).Some? then PortAfter(text[|ListenPrefix|..])
    else if |text| == 0 then None
    else PortAt(text[1..])
  }

  /** The matcher of `openocd.expect` for the one expression it is given. */
  predicate GdbPortMatch(text: string, pattern: string) {
    PortAt(text).Some?
  }

  /** The line OpenOCD prints for a GDB port. */
  function ListeningLine(port: nat): string {
    ListenPrefix + NatToString(port) + GdbSuffix
  }

  /** The port OpenOCD announces is the port read back from its line. */
  lemma PortRoundTrip(port: nat)
    ensures PortAt(ListeningLine(port)) == Some(port)
  {
    var d := NatToString(port);
    assert ListeningLine(port) == ListenPrefix + (d + GdbSuffix);
    PortAfterDigits(d);
    PortAtPrefixed(d + GdbSuffix);
    DigitsValueOfNatToString(port);
  }

  /** A run of digits followed by the rest of the GDB-port line gives that
      run's value. */
  lemma PortAfterDigits(d: string)
    requires |d| > 0 && forall i :: 0 <= i < |d| ==> IsDigit(d[i])
    ensures PortAfter(d + GdbSuffix) == Some(DigitsValue(d))
  {
    assert GdbSuffix[0] == ' ';
    DigitRunStops(d, GdbSuffix);
    assert (d + GdbSuffix)[|d|..] == GdbSuffix;
    assert (d + GdbSuffix)[..|d|] == d;
  }

  /** A line that starts with the prefix and continues with a port is read
      at its start. */
  lemma PortAtPrefixed(s: string)
    requires PortAfter(s).Some?
    ensures PortAt(ListenPrefix + s) == PortAfter(s)
  {
    var t := ListenPrefix + s;
    assert t[..|ListenPrefix|] == ListenPrefix;
    assert t[|ListenPrefix|..] == s;
  }

  lemma {:induction false} DigitRunStops(d: string, rest: string)
    requires (forall i :: 0 <= i < |d| ==> IsDigit(d[i])) && |rest| > 0 && !IsDigit(rest[0])
    ensures DigitRun(d + rest) == |d|
    decreases |d|
  {
    if |d| > 0 {
      assert (d + rest)[1..] == d[1..] + rest;
      DigitRunStops(d[1..], rest);
    } else {
      assert d + rest == rest;
    }
  }

  /** How starting the bridge ends: ready, with the GDB port and the
      number of lines read, or with a fault. */
  datatype Bridge = BridgeReady(port: nat, consumed: nat) | BridgeDown(fault: Fault)

  /** The same outcome with `n` more lines read. */
  function Shifted(b: Bridge, n: nat): (r: Bridge)
    ensures r.BridgeDown? <==> b.BridgeDown?
  {
    match b
    case BridgeReady(p, c) => BridgeReady(p, n + c)
    case BridgeDown(_) => b
  }

  /** `start_openocd` on an OpenOCD printing `output`: its banner, the
      GDB-port line (whose port replaces the default) and the telnet-port
      line, each within the session's timeout `t`. */
  function BridgeStart(output: seq<Line>, t: nat): Bridge {
    var s := Scan(Exact, output, [OcdBanner], t);
    if s.0 != Matched(0) then BridgeDown(FaultAt(Milestone([OcdBanner], t), s.0))
    else Shifted(PortsAnnounced(output[s.1..], t), s.1)
  }

  /** The port the GDB-port line names, the default when nothing is captured. */
  function CapturedPort(text: string): nat {
    match PortAt(text)
    case Some(p) => p
    case None => DefaultGdbPort
  }

  /** The two port lines after the banner. */
  function PortsAnnounced(lines: seq<Line>, t: nat): Bridge {
    var s := Scan(GdbPortMatch, lines, [GdbListening], t);
    if s.0 != Matched(0) then BridgeDown(FaultAt(Milestone([GdbListening], t), s.0))
    else Shifted(TelnetAnnounced(lines[s.1..], CapturedPort(lines[s.1 - 1].text), t), s.1)
  }

  /** The telnet-port line, the GDB port being known. */
  function TelnetAnnounced(lines: seq<Line>, port: nat, t: nat): (b: Bridge)
    ensures b.BridgeReady? ==> b.port == port && b.consumed <= |lines|
  {
    var s := Scan(Exact, lines, [TelnetListening], t);
    if s.0 != Matched(0) then BridgeDown(FaultAt(Milestone([TelnetListening], t), s.0))
    else BridgeReady(port, s.1)
  }

  /** A ready bridge uses the port that one of the lines it read announced. */
  lemma BridgePortPrinted(output: seq<Line>, t: nat)
    requires BridgeStart(output, t).BridgeReady?
    ensures var b := BridgeStart(output, t);
      b.consumed <= |output| && exists i :: 0 <= i < b.consumed && PortAt(output[i].text) == Some(b.port)
  {
    var s := Scan(Exact, output, [OcdBanner], t);
    var rest := output[s.1..];
    PortsPrinted(rest, t);
    var i :| 0 <= i < PortsAnnounced(rest, t).consumed && PortAt(rest[i].text) == Some(PortsAnnounced(rest, t).port);
    assert output[s.1 + i] == rest[i];
  }

  lemma PortsPrinted(lines: seq<Line>, t: nat)
    requires PortsAnnounced(lines, t).BridgeReady?
    ensures var b := PortsAnnounced(lines, t);
      b.consumed <= |lines| && exists i :: 0 <= i < b.consumed && PortAt(lines[i].text) == Some(b.port)
  {
    var s := Scan(GdbPortMatch, lines, [GdbListening], t);
    ScanHit(GdbPortMatch, lines, [GdbListening], t);
    assert PortAt(lines[s.1 - 1].text).Some?;
  }

  /** `start_openocd`: spawn OpenOCD on the generated script and wait for
      its banner and its two port lines. */
  method StartOpenocd(host: Host, openocd: string, output: seq<Line>) returns (bridge: Session, port: nat, fault: Option<Fault>)
    modifies host`actions
    ensures fresh(bridge) && bridge.defaultTimeout == host.timeout && bridge.sent == []
    ensures host.actions == old(host.actions) + [Spawned(OpenocdArgv(openocd, host.scratch))]
    ensures var b := BridgeStart(output, host.timeout);
      (b.BridgeDown? ==> fault == Some(b.fault)) &&
      (b.BridgeReady? ==> fault.None? && port == b.port && bridge.pending == output[b.consumed..])
  {
    bridge := host.Spawn(OpenocdArgv(openocd, host.scratch), host.timeout, output);
    var o := bridge.Expect(Exact, [OcdBanner], bridge.defaultTimeout);
    if o != Matched(0) {
      return bridge, DefaultGdbPort, Some(FaultAt(Milestone([OcdBanner], host.timeout), o));
    }
    ghost var n := Scan(Exact, output, [OcdBanner], host.timeout).1;
    port, fault := AwaitPorts(bridge, output[n..]);
    ghost var b := PortsAnnounced(output[n..], host.timeout);
    if b.BridgeReady? {
      assert output[n..][b.consumed..] == output[n + b.consumed..];
    }
  }

  /** The GDB-port line, whose captured port replaces the default, then the
      telnet-port line. */
  method AwaitPorts(bridge: Session, ghost lines: seq<Line>) returns (port: nat, fault: Option<Fault>)
    requires bridge.pending == lines
    modifies bridge`pending, bridge`seen
    ensures var b := PortsAnnounced(lines, bridge.defaultTimeout);
      (b.BridgeDown? ==> fault == Some(b.fault)) &&
      (b.BridgeReady? ==> fault.None? && port == b.port && bridge.pending == lines[b.consumed..])
  {
    port := DefaultGdbPort;
    var o := bridge.Expect(GdbPortMatch, [GdbListening], bridge.defaultTimeout);
    if o != Matched(0) {
      return port, Some(FaultAt(Milestone([GdbListening], bridge.defaultTimeout), o));
    }
    ghost var n := Scan(GdbPortMatch, lines, [GdbListening], bridge.defaultTimeout).1;
    assert bridge.seen[|bridge.seen| - 1] == lines[n - 1];
    var captured := PortAt(bridge.seen[|bridge.seen| - 1].text);
    if captured.Some? {
      port := captured.value;
    }
    fault := AwaitTelnet(bridge, port, lines[n..]);
    ghost var b := TelnetAnnounced(lines[n..], port, bridge.defaultTimeout);
    if b.BridgeReady? {
      assert lines[n..][b.consumed..] == lines[n + b.consumed..];
    }
  }

  /** The telnet-port line. */
  method AwaitTelnet(bridge: Session, port: nat, ghost lines: seq<Line>) returns (fault: Option<Fault>)
    requires bridge.pending == lines
    modifies bridge`pending, bridge`seen
    ensures var b := TelnetAnnounced(lines, port, bridge.defaultTimeout);
      (b.BridgeDown? ==> fault == Some(b.fault)) &&
      (b.BridgeReady? ==> fault.None? && bridge.pending == lines[b.consumed..])
  {
    var o := bridge.Expect(Exact, [TelnetListening], bridge.defaultTimeout);
    if o != Matched(0) {
      return Some(FaultAt(Milestone([TelnetListening], bridge.defaultTimeout), o));
    }
    fault := None;
  }

  // ---------------------------------------------------------------------
  // GDB: loading the images through the bridge

  /** The kernel to load and the file its symbols are read from. */
  datatype KernelLoad = KernelLoad(kernel: string, symbols: string)

  /** The `-ex` commands GDB runs: connect to the bridge, reset to the boot
      ROM and step into it, then load the kernel (after its symbols) and
      last the firmware, since each `load` moves the PC to its image's
      entry point. */
  function GdbCommands(port: nat, bios: string, load: Option<KernelLoad>): (r: seq<string>)
    ensures |r| == (if load.Some? then 8 else 6)
    ensures r[0] == "target extended-remote :" + NatToString(port) && r[|r| - 1] == "load " + Quote(bios)
    ensures load.Some? ==> r[5] == "symbol-file " + Quote(load.value.symbols) && r[6] == "load " + Quote(load.value.kernel)
  {
    ["target extended-remote :" + NatToString(port), "set confirm off", "monitor reset init", "si 5",
     "set disassemble-next-line on"] +
    (match load
     case Some(k) => ["symbol-file " + Quote(k.symbols), "load " + Quote(k.kernel)]
     case None => []) +
    ["load " + Quote(bios)]
  }

  /** Each command behind its own "-ex". */
  function ExArgs(cmds: seq<string>): (r: seq<string>)
    ensures |r| == 2 * |cmds|
    decreases |cmds|
  {
    if |cmds| == 0 then [] else ["-ex", cmds[0]] + ExArgs(cmds[1..])
  }

  /** The commands GDB reads from a run of "-ex" arguments. */
  function ExCommands(args: seq<string>): seq<string>
    decreases |args|
  {
    if |args| < 2 || args[0] != "-ex" then [] else [args[1]] + ExCommands(args[2..])
  }

  /** GDB reads back every command, in order. */
  lemma {:induction false} ExRoundTrip(cmds: seq<string>)
    ensures ExCommands(ExArgs(cmds)) == cmds
    decreases |cmds|
  {
    if |cmds| > 0 {
      var a := ExArgs(cmds);
      assert a[2..] == ExArgs(cmds[1..]);
      ExRoundTrip(cmds[1..]);
    }
  }

  /** `gdb <firmware> -ex ... -ex ...`. */
  function GdbArgv(gdb: string, bios: string, port: nat, load: Option<KernelLoad>): (r: seq<string>)
    ensures |r| == 2 + 2 * |GdbCommands(port, bios, load)| && r[0] == gdb && r[1] == bios
  {
    [gdb, bios] + ExArgs(GdbCommands(port, bios, load))
  }

  /** GDB connects to the bridge's port first and loads the firmware last;
      a kernel is loaded just before it, right after its symbols, and
      without a kernel the firmware is the only image loaded. */
  lemma GdbArgvOrder(gdb: string, bios: string, port: nat, load: Option<KernelLoad>)
    ensures var argv := GdbArgv(gdb, bios, port, load);
      var c := ExCommands(argv[2..]);
      argv[0] == gdb && argv[1] == bios && |c| == |argv| / 2 - 1 && |c| >= 6 &&
      c[0] == "target extended-remote :" + NatToString(port) && c[|c| - 1] == "load " + Quote(bios) &&
      (load.Some? ==>
        |c| == 8 && c[5] == "symbol-file " + Quote(load.value.symbols) && c[6] == "load " + Quote(load.value.kernel)) &&
      (load.None? ==> |c| == 6)
  {
    var argv := GdbArgv(gdb, bios, port, load);
    assert argv[2..] == ExArgs(GdbCommands(port, bios, load));
    ExRoundTrip(GdbCommands(port, bios, load));
  }

  const ReadingSymbols: string := "Reading symbols from"
  const BootromEntered: string := "0x0000000070000000 in ??"
  const BootromDone: string := "0x0000000044000000 in ??"
  const LoadingText: string := "Loading section .text"
  const TransferRate: string := "Transfer rate:"

  function RemoteDebugging(port: nat): string {
    "Remote debugging using :" + NatToString(port)
  }

  /** The line OpenOCD prints when GDB connects to its port. */
  function AcceptLine(port: nat): string {
    "Info : accepting 'gdb' connection on tcp/" + NatToString(port)
  }

  /** What GDB must print, in order: its symbols, the connection, the boot
      ROM's entry and exit, then for each image loaded (kernel, then
      firmware) the start and the end of the transfer. A kernel transfer
      may take 20 minutes, a firmware transfer 10; `t` is GDB's own
      timeout. */
  function GdbMilestones(port: nat, kernel: bool, t: nat): (ms: seq<Milestone>)
    ensures |ms| == if kernel then 8 else 6
    ensures kernel ==> ms[5].timeout == 20 * 60 && ms[5].timeout > ms[7].timeout
    ensures ms[|ms| - 1].timeout == 10 * 60
  {
    [Milestone([ReadingSymbols], t), Milestone([RemoteDebugging(port)], t),
     Milestone([BootromEntered], t), Milestone([BootromDone], t)] +
    (if kernel then [Milestone([LoadingText], t), Milestone([TransferRate], 20 * 60)] else []) +
    [Milestone([LoadingText], t), Milestone([TransferRate], 10 * 60)]
  }

  /** How attaching GDB ends, for a GDB printing `output` and a bridge that
      has `bridge` left to print: GDB's first milestone, then the bridge
      accepting the connection, then GDB's other milestones. */
  function DebuggerFault(output: seq<Line>, bridge: seq<Line>, port: nat, kernel: bool, t: nat, bt: nat): Option<Fault> {
    var ms := GdbMilestones(port, kernel, t);
    var first := Progressed(output, ms, 1);
    var accept := Scan(Exact, bridge, [AcceptLine(port)], bt).0;
    if first.Stopped? then Verdict(ms, first)
    else if accept != Matched(0) then Some(FaultAt(Milestone([AcceptLine(port)], bt), accept))
    else Verdict(ms, Run(output, ms))
  }

  /** A GDB that raised no fault reached all its milestones. */
  lemma DebuggerDone(output: seq<Line>, bridge: seq<Line>, port: nat, kernel: bool, t: nat, bt: nat)
    requires DebuggerFault(output, bridge, port, kernel, t, bt).None?
    ensures Run(output, GdbMilestones(port, kernel, t)).Reached?
  {
  }

  /** The first patterns of GDB's milestones with a kernel. */
  lemma KernelPatterns(ms: seq<Milestone>, port: nat, t: nat)
    requires ms == GdbMilestones(port, true, t)
    ensures |ms| == 8 && ms[3].patterns[0] == BootromDone && ms[4].patterns[0] == LoadingText
    ensures ms[5].patterns[0] == TransferRate && ms[6].patterns[0] == LoadingText && ms[7].patterns[0] == TransferRate
  {
  }

  /** Lines `h` < `i` < `j` < `k` < `l` of GDB's output: leaving the boot
      ROM, then two image transfers, each from its start to its end. */
  predicate TwoTransfers(output: seq<Line>, h: nat, i: nat, j: nat, k: nat, l: nat) {
    h < i < j < k < l < |output| &&
    Exact(output[h].text, BootromDone) &&
    Exact(output[i].text, LoadingText) && Exact(output[j].text, TransferRate) &&
    Exact(output[k].text, LoadingText) && Exact(output[l].text, TransferRate)
  }

  /** With a kernel, GDB reports the kernel's transfer, start and end, after
      leaving the boot ROM and before the firmware's transfer. */
  lemma KernelBeforeFirmware(output: seq<Line>, bridge: seq<Line>, port: nat, t: nat, bt: nat)
    requires DebuggerFault(output, bridge, port, true, t, bt).None?
    ensures exists h, i, j, k, l :: TwoTransfers(output, h, i, j, k, l)
  {
    var ms := GdbMilestones(port, true, t);
    DebuggerDone(output, bridge, port, true, t, bt);
    var r := Run(output, ms);
    RunPositions(output, ms, r);
    KernelPatterns(ms, port, t);
    var ps := r.positions;
    assert TwoTransfers(output, ps[3], ps[4], ps[5], ps[6], ps[7]);
  }

  /** `load_and_start_kernel` from starting GDB to resuming the target:
      spawn GDB with a 60-second timeout, follow its milestones and the
      bridge's acceptance of the connection, then send "continue". */
  method AttachDebugger(host: Host, gdb: string, bios: string, load: Option<KernelLoad>, port: nat,
                        bridge: Session, output: seq<Line>) returns (debugger: Session, fault: Option<Fault>)
    modifies host`actions, bridge`pending, bridge`seen
    ensures fresh(debugger) && host.actions == old(host.actions) + [Spawned(GdbArgv(gdb, bios, port, load))]
    ensures fault == DebuggerFault(output, old(bridge.pending), port, load.Some?, 60, bridge.defaultTimeout)
    ensures fault.None? ==> debugger.sent == ["continue" + "\n"]
    ensures fault.Some? ==> debugger.sent == []
  {
    debugger := host.Spawn(GdbArgv(gdb, bios, port, load), 60, output);
    var ms := GdbMilestones(port, load.Some?, 60);
    assert output[0..] == output;
    fault := Await(debugger, ms, 0, output);
    if fault.Some? {
      return;
    }
    var accept := bridge.Expect(Exact, [AcceptLine(port)], bridge.defaultTimeout);
    if accept != Matched(0) {
      return debugger, Some(FaultAt(Milestone([AcceptLine(port)], bridge.defaultTimeout), accept));
    }
    fault := AwaitRest(debugger, ms, output);
    if fault.None? {
      debugger.SendLine("continue");
    }
  }

  /** GDB's milestones after the first: the boot ROM, and one or two image
      transfers. */
  method AwaitRest(debugger: Session, ms: seq<Milestone>, ghost output: seq<Line>) returns (fault: Option<Fault>)
    requires |ms| == 6 || |ms| == 8
    requires Progressed(output, ms, 1).Reached? && debugger.pending == output[Progressed(output, ms, 1).consumed..]
    modifies debugger`pending, debugger`seen
    ensures fault == Verdict(ms, Run(output, ms))
  {
    fault := Await(debugger, ms, 1, output);
    if fault.Some? {
      return;
    }
    fault := Await(debugger, ms, 2, output);
    if fault.Some? {
      return;
    }
    fault := Await(debugger, ms, 3, output);
    if fault.Some? {
      return;
    }
    var k := 4;
    if |ms| == 8 {
      fault := Await(debugger, ms, 4, output);
      if fault.Some? {
        return;
      }
      fault := Await(debugger, ms, 5, output);
      if fault.Some? {
        return;
      }
      k := 6;
    }
    fault := Await(debugger, ms, k, output);
    if fault.Some? {
      return;
    }
    fault := Await(debugger, ms, k + 1, output);
  }

  // ---------------------------------------------------------------------
  // The serial console

  const MinitermBanner: string := "--- Miniterm on "

  /** PySerial's terminal on the board's serial device at 115200 baud. */
  function MinitermArgv(python: string, device: string): (r: seq<string>)
    ensures |r| == 7 && r[0] == python && r[3] == device
  {
    [python, "-m", "serial.tools.miniterm", device, "115200", "--filter", "colorize"]
  }

  /** How waiting for the terminal's banner ends: a panic marker on the
      console ends the run, a timeout or the end of the output escapes. */
  function ConsoleVerdict(st: Boot.Status<int>): Option<Fault> {
    match st
    case Value(_) => None
    case Exited(_) => Some(KernelPanic)
    case Raised(e) => if e == "TIMEOUT" then Some(Timeout(MinitermBanner)) else Some(EndOfOutput(MinitermBanner))
  }

  /** The console's fault for a terminal printing `output`: the banner is
      awaited with the panic markers in front and a 60-second timeout. */
  function ConsoleFault(output: seq<Line>): Option<Fault> {
    ConsoleVerdict(Boot.Unshift(Scan(Exact, output, Boot.PanicPatterns + [MinitermBanner], 60).0))
  }

  /** The console is ready exactly when its banner comes first, within
      the timeout and before any panic marker; a panic marker first is a
      kernel panic. */
  lemma ConsoleReady(output: seq<Line>)
    ensures var o := Scan(Exact, output, Boot.PanicPatterns + [MinitermBanner], 60).0;
      (ConsoleFault(output).None? <==> o == Matched(|Boot.PanicPatterns|)) &&
      (o.Matched? && o.index < |Boot.PanicPatterns| ==> ConsoleFault(output) == Some(KernelPanic))
  {
  }

  /** Open the serial connection and wait for the terminal's banner. */
  method OpenConsole(host: Host, device: string, output: seq<Line>) returns (serial: Session, fault: Option<Fault>)
    modifies host`actions
    ensures fresh(serial) && serial.sent == [] && serial.logging
    ensures host.actions == old(host.actions) + [Spawned(MinitermArgv(host.python, device))]
    ensures fault == ConsoleFault(output)
  {
    serial := host.Spawn(MinitermArgv(host.python, device), 60, output);
    var r := Boot.InstanceExpect(serial, Exact, Boot.Patterns([MinitermBanner], None), -1);
    fault := ConsoleVerdict(r);
  }

  // ---------------------------------------------------------------------
  // Choosing the files

  /** The file GDB reads the kernel's symbols from: the one given, else the
      kernel with ".full" appended when that exists, else the kernel
      itself; None when the kernel path has no name (`with_name` raises). */
  function SymbolFile(kernel: string, given: Option<string>, files: set<string>): (r: Option<string>)
    ensures given.Some? ==> r == given
    ensures given.None? && Name(kernel) != "" ==>
      r == Some(if kernel + ".full" in files then kernel + ".full" else kernel)
    ensures given.None? && Name(kernel) == "" ==> r.None?
  {
    if given.Some? then given
    else if Name(kernel) == "" then None
    else
      DirName(kernel);
      AppendAssoc(Dir(kernel), Name(kernel), ".full");
      var full := Dir(kernel) + (Name(kernel) + ".full");
      if full in files then Some(full) else Some(kernel)
  }

  const LtxSuffix: string := ".ltx"

  lemma LtxIsSuffix()
    ensures IsSuffix(LtxSuffix)
  {
    assert LtxSuffix[1..] == "ltx";
  }

  /** The LTX file assumed for a bitfile. */
  function LtxFor(bitfile: string): string
    requires Name(bitfile) != ""
  {
    WithSuffix(bitfile, LtxSuffix)
  }

  /** The assumed LTX file sits beside the bitfile, with the same stem and
      the suffix ".ltx". */
  lemma LtxBesideBitfile(bitfile: string)
    requires Name(bitfile) != ""
    ensures Dir(LtxFor(bitfile)) == Dir(bitfile) && Stem(LtxFor(bitfile)) == Stem(bitfile)
    ensures Suffix(LtxFor(bitfile)) == LtxSuffix
  {
    LtxIsSuffix();
    SuffixOfWithSuffix(bitfile, LtxSuffix);
    StemNonEmpty(bitfile);
    AppendAssoc(Dir(bitfile), Stem(bitfile), LtxSuffix);
    assert '/' !in Stem(bitfile) + LtxSuffix;
    DirOfAppend(Dir(bitfile), Stem(bitfile) + LtxSuffix);
  }

  /** A serial port: its device and USB vendor and product ids, if any. */
  datatype PortInfo = PortInfo(device: string, vid: Option<nat>, pid: Option<nat>)

  /** The VCU118's USB-to-UART bridge. */
  predicate IsBoard(p: PortInfo) {
    p.pid == Some(0xea70) && p.vid == Some(0x10c4)
  }

  /** The index of the first board port from index `i` on. */
  function FirstBoard(ports: seq<PortInfo>, i: nat): (r: Option<nat>)
    ensures r.Some? ==>
      i <= r.value < |ports| && IsBoard(ports[r.value]) && forall j :: i <= j < r.value ==> !IsBoard(ports[j])
    ensures r.None? ==> forall j :: i <= j < |ports| ==> !IsBoard(ports[j])
    decreases |ports| - i
  {
    if i >= |ports| then None
    else if IsBoard(ports[i]) then Some(i)
    else FirstBoard(ports, i + 1)
  }

  /** `find_vcu118_tty`: the first port with the board's ids. */
  method FindTty(ports: seq<PortInfo>) returns (r: Option<nat>)
    ensures r.Some? ==> r.value < |ports| && IsBoard(ports[r.value]) && forall j :: 0 <= j < r.value ==> !IsBoard(ports[j])
    ensures r.None? ==> forall j :: 0 <= j < |ports| ==> !IsBoard(ports[j])
    ensures r == FirstBoard(ports, 0)
  {
    var i := 0;
    while i < |ports|
      invariant 0 <= i <= |ports| && FirstBoard(ports, i) == FirstBoard(ports, 0)
      invariant forall j :: 0 <= j < i ==> !IsBoard(ports[j])
    {
      if IsBoard(ports[i]) {
        return Some(i);
      }
      i := i + 1;
    }
    return None;
  }

  // ---------------------------------------------------------------------
  // The whole bring-up

  /** The command-line options (paths already made absolute); the tools
      default to what `shutil.which` finds, else their plain names. */
  datatype Options = Options(bitfile: Option<string>, ltxfile: Option<string>, bios: string,
                             kernel: Option<string>, kernelDebugFile: Option<string>,
                             gdb: Option<string>, openocd: Option<string>)

  function Tool(host: Host, name: string, given: Option<string>): (r: string)
    ensures given.Some? ==> r == given.value
    ensures given.None? ==> (r == name <==> name !in host.which || host.which[name] == name)
  {
    if given.Some? then given.value else if name in host.which then host.which[name] else name
  }

  /** The `--openocd` value: its default goes through `abspath_arg` like a
      given path, so a bare "openocd" fallback is made absolute against the
      working directory. */
  function Openocd(host: Host, given: Option<string>): (r: string)
    ensures given.Some? && IsAbsolute(given.value) ==> r == given.value
    ensures given.None? && "openocd" in host.which && IsAbsolute(host.which["openocd"]) ==> r == host.which["openocd"]
    ensures IsAbsolute(host.cwd) ==> IsAbsolute(r)
    ensures EndsWith(r, Tool(host, "openocd", given))
  {
    PathJoin(host.cwd, Tool(host, "openocd", given))
  }

  /** What each subordinate prints. */
  datatype Transcripts = Transcripts(vivado: seq<Line>, console: seq<Line>, bridge: seq<Line>, debugger: seq<Line>)

  /** How each stage ends: programming the FPGA, the console, the bridge,
      the debugger, and whether `boot_and_login` reaches a shell. */
  datatype Verdicts = Verdicts(vivado: Option<Fault>, console: Option<Fault>, bridge: Bridge,
                               debugger: Option<Fault>, booted: bool)

  /** GDB's verdict once the bridge is up; nothing when it is down. */
  function DebuggerAfter(host: Host, opts: Options, tr: Transcripts, b: Bridge): Option<Fault> {
    if b.BridgeReady? && b.consumed <= |tr.bridge| then
      DebuggerFault(tr.debugger, tr.bridge[b.consumed..], b.port, opts.kernel.Some?, 60, host.timeout)
    else None
  }

  /** The verdicts the transcripts lead to. */
  function Observed(host: Host, opts: Options, tr: Transcripts, booted: bool): Verdicts {
    var b := BridgeStart(tr.bridge, host.timeout);
    Verdicts(ProgrammingFault(tr.vivado, host.timeout), ConsoleFault(tr.console), b,
             DebuggerAfter(host, opts, tr, b), booted)
  }

  /** The live connections after a successful start. */
  datatype Connection = Connection(debugger: Session, bridge: Session, serial: Session)

  /** The kernel GDB loads, with its symbol file. */
  function LoadOf(host: Host, opts: Options): Option<KernelLoad>
    requires opts.kernel.Some? ==> SymbolFile(opts.kernel.value, opts.kernelDebugFile, host.files).Some?
  {
    match opts.kernel
    case None => None
    case Some(k) => Some(KernelLoad(k, SymbolFile(k, opts.kernelDebugFile, host.files).value))
  }

  /** `load_and_start_kernel` on the board's `device`: the fault it ends
      with and the programs it spawns, in order. */
  function StartPlan(host: Host, opts: Options, device: string, v: Verdicts): (Option<Fault>, seq<Action>) {
    var console := [Spawned(MinitermArgv(host.python, device))];
    if v.console.Some? then (v.console, console)
    else
      var rest := BridgePlan(host, opts, v.bridge, v.debugger, v.booted);
      (rest.0, console + rest.1)
  }

  /** The stages after the console: OpenOCD, then GDB and the boot. */
  function BridgePlan(host: Host, opts: Options, b: Bridge, debugger: Option<Fault>, booted: bool)
    : (Option<Fault>, seq<Action>)
  {
    var ocd := [Spawned(OpenocdArgv(Openocd(host, opts.openocd), host.scratch))];
    if b.BridgeDown? then (Some(b.fault), ocd)
    else
      var rest := KernelPlan(host, opts, b.port, debugger, booted);
      (rest.0, ocd + rest.1)
  }

  /** The stages after OpenOCD listens on `port`: the symbol file, GDB, the boot. */
  function KernelPlan(host: Host, opts: Options, port: nat, debugger: Option<Fault>, booted: bool)
    : (Option<Fault>, seq<Action>)
  {
    if opts.kernel.Some? && SymbolFile(opts.kernel.value, opts.kernelDebugFile, host.files).None? then
      (Some(EmptyName(opts.kernel.value)), [])
    else
      var gdb := [Spawned(GdbArgv(Tool(host, "gdb", opts.gdb), opts.bios, port, LoadOf(host, opts)))];
      if debugger.Some? then (debugger, gdb)
      else if !booted then (Some(BootFailed), gdb)
      else (None, gdb)
  }

  lemma ActionsAssoc(a: seq<Action>, b: seq<Action>, c: seq<Action>)
    ensures a + b + c == a + (b + c)
  {
  }

  lemma ActionsAssoc4(a: seq<Action>, b: seq<Action>, c: seq<Action>, d: seq<Action>)
    ensures a + b + c + d == a + (b + c + d)
  {
  }

  /** `load_and_start_kernel`; `booted` is whether `boot_and_login`
      reaches a shell. */
  method LoadAndStartKernel(host: Host, opts: Options, device: string, tr: Transcripts, booted: bool)
    returns (fault: Option<Fault>, conn: Option<Connection>)
    modifies host`actions
    ensures fault == StartPlan(host, opts, device, Observed(host, opts, tr, booted)).0
    ensures host.actions == old(host.actions) + StartPlan(host, opts, device, Observed(host, opts, tr, booted)).1
    ensures fault.None? ==> conn.Some? && fresh(conn.value.serial) && conn.value.serial.sent == [] && conn.value.serial.logging
  {
    ghost var before := host.actions;
    var serial;
    serial, fault := OpenConsole(host, device, tr.console);
    conn := None;
    if fault.None? {
      ghost var console := host.actions;
      var bridge, debugger;
      fault, bridge, debugger := StartBridge(host, opts, tr, booted);
      ghost var b := BridgeStart(tr.bridge, host.timeout);
      ActionsAssoc(before, console[|before|..], BridgePlan(host, opts, b, DebuggerAfter(host, opts, tr, b), booted).1);
      assert console == before + console[|before|..];
      if fault.None? {
        conn := Some(Connection(debugger.value, bridge.value, serial));
      }
    }
  }

  /** OpenOCD, then GDB and the boot. */
  method StartBridge(host: Host, opts: Options, tr: Transcripts, booted: bool)
    returns (fault: Option<Fault>, bridge: Option<Session>, debugger: Option<Session>)
    modifies host`actions
    ensures var b := BridgeStart(tr.bridge, host.timeout);
      fault == BridgePlan(host, opts, b, DebuggerAfter(host, opts, tr, b), booted).0 &&
      host.actions == old(host.actions) + BridgePlan(host, opts, b, DebuggerAfter(host, opts, tr, b), booted).1
    ensures fault.None? ==> bridge.Some? && debugger.Some?
  {
    ghost var before := host.actions;
    var b, port;
    b, port, fault := StartOpenocd(host, Openocd(host, opts.openocd), tr.bridge);
    bridge, debugger := None, None;
    if fault.None? {
      ghost var ocd := host.actions;
      fault, debugger := StartDebugger(host, opts, port, b, tr.debugger, booted);
      ActionsAssoc(before, ocd[|before|..], host.actions[|ocd|..]);
      assert ocd == before + ocd[|before|..];
      assert host.actions == ocd + host.actions[|ocd|..];
      bridge := Some(b);
    }
  }

  /** The symbol file, GDB and the boot, with OpenOCD listening on `port`. */
  method StartDebugger(host: Host, opts: Options, port: nat, bridge: Session, output: seq<Line>, booted: bool)
    returns (fault: Option<Fault>, debugger: Option<Session>)
    requires bridge.defaultTimeout == host.timeout
    modifies host`actions, bridge`pending, bridge`seen
    ensures var d := DebuggerFault(output, old(bridge.pending), port, opts.kernel.Some?, 60, host.timeout);
      fault == KernelPlan(host, opts, port, d, booted).0 &&
      host.actions == old(host.actions) + KernelPlan(host, opts, port, d, booted).1
    ensures fault.None? ==> debugger.Some?
  {
    var load: Option<KernelLoad> := None;
    if opts.kernel.Some? {
      var symbols := SymbolFile(opts.kernel.value, opts.kernelDebugFile, host.files);
      if symbols.None? {
        return Some(EmptyName(opts.kernel.value)), None;
      }
      load := Some(KernelLoad(opts.kernel.value, symbols.value));
    }
    var d;
    d, fault := AttachDebugger(host, Tool(host, "gdb", opts.gdb), opts.bios, load, port, bridge, output);
    if fault.None? && !booted {
      fault := Some(BootFailed);
    }
    debugger := Some(d);
  }

  /** The keystroke `sendcontrol` sends for a letter: its code with the
      top three bits cleared. */
  function Control(c: char): (r: string)
    requires 'a' <= c <= 'z'
    ensures |r| == 1 && 1 <= r[0] as int <= 26 && r[0] as int == c as int - 'a' as int + 1
  {
    [((c as int) % 32) as char]
  }

  /** Programming the FPGA when a bitfile is given, ending as `programmed`
      says: the LTX file defaults to the bitfile with the suffix ".ltx". */
  function ProgramStage(host: Host, opts: Options, programmed: Option<Fault>): (Option<Fault>, seq<Action>) {
    match opts.bitfile
    case None => (None, [])
    case Some(bit) =>
      if opts.ltxfile.None? && Name(bit) == "" then (Some(EmptyName(bit)), [])
      else if "vivado" !in host.which && !host.pretend then (Some(ToolMissing("vivado")), [])
      else
        var ltx := if opts.ltxfile.Some? then opts.ltxfile.value else LtxFor(bit);
        (programmed, [Spawned(VivadoArgv(host.scratch, bit, ltx))] + (if programmed.None? then Cleanup(host.pretend) else []))
  }

  /** The whole bring-up with serial ports `ports`: program the FPGA, find
      the board's port, start the kernel, hand the console to the user. */
  function BringupPlan(host: Host, opts: Options, ports: seq<PortInfo>, v: Verdicts): (Option<Fault>, seq<Action>) {
    var p := ProgramStage(host, opts, v.vivado);
    if p.0.Some? then p
    else match FirstBoard(ports, 0)
      case None => (Some(NoTty), p.1)
      case Some(i) =>
        var s := StartPlan(host, opts, ports[i].device, v);
        (s.0, p.1 + s.1 + (if s.0.None? then [Interacted] else []))
  }

  /** Program the FPGA when asked to. */
  method Program(host: Host, opts: Options, vivado: seq<Line>) returns (fault: Option<Fault>)
    modifies host`actions
    ensures fault == ProgramStage(host, opts, ProgrammingFault(vivado, host.timeout)).0
    ensures host.actions == old(host.actions) + ProgramStage(host, opts, ProgrammingFault(vivado, host.timeout)).1
  {
    fault := None;
    if opts.bitfile.Some? {
      var bit := opts.bitfile.value;
      var ltx;
      if opts.ltxfile.Some? {
        ltx := opts.ltxfile.value;
      } else if Name(bit) == "" {
        return Some(EmptyName(bit));
      } else {
        ltx := LtxFor(bit);
      }
      ghost var before := host.actions;
      fault := LoadBitfile(host, bit, ltx, vivado);
      ActionsAssoc(before, [Spawned(VivadoArgv(host.scratch, bit, ltx))], if fault.None? then Cleanup(host.pretend) else []);
    }
  }

  /** The script's `main`, with its arguments already parsed: the console
      ends up showing the help text, with logging off, for the user. */
  method Bringup(host: Host, opts: Options, ports: seq<PortInfo>, tr: Transcripts, booted: bool)
    returns (fault: Option<Fault>, conn: Option<Connection>)
    modifies host`actions
    ensures fault == BringupPlan(host, opts, ports, Observed(host, opts, tr, booted)).0
    ensures host.actions == old(host.actions) + BringupPlan(host, opts, ports, Observed(host, opts, tr, booted)).1
    ensures fault.None? ==>
      conn.Some? && conn.value.serial.sent == [Control('t'), Control('h')] && !conn.value.serial.logging
  {
    ghost var before := host.actions;
    conn := None;
    fault := Program(host, opts, tr.vivado);
    if fault.Some? {
      return;
    }
    ghost var programmed := host.actions;
    var tty := FindTty(ports);
    if tty.None? {
      return Some(NoTty), None;
    }
    fault, conn := LoadAndStartKernel(host, opts, ports[tty.value].device, tr, booted);
    ghost var started := host.actions[|programmed|..];
    assert programmed == before + programmed[|before|..];
    assert host.actions == programmed + started;
    ActionsAssoc4(before, programmed[|before|..], started, if fault.None? then [Interacted] else []);
    if fault.Some? {
      assert host.actions == host.actions + [];
      return;
    }
    Interact(conn.value.serial);
    host.actions := host.actions + [Interacted];
  }

  /** Hand the console to the user: show the kernel's help text (control-T
      and control-H), then stop logging what passes through. */
  method Interact(serial: Session)
    modifies serial`sent, serial`logging
    ensures serial.sent == old(serial.sent) + [Control('t'), Control('h')] && !serial.logging
  {
    serial.Send(Control('t'));
    serial.Send(Control('h'));
    serial.logging := false;
  }

  // ---------------------------------------------------------------------
  // What the plans promise

  /** GDB's command line makes it attach to the port announced on line `i`
      of OpenOCD's output. */
  predicate TargetsAnnouncedPort(argv: seq<string>, bridge: seq<Line>, i: nat) {
    i < |bridge| && |argv| >= 2 && PortAt(bridge[i].text).Some? &&
    var c := ExCommands(argv[2..]);
    |c| > 0 && c[0] == "target extended-remote :" + NatToString(PortAt(bridge[i].text).value)
  }

  /** The console is opened first, and nothing else is started when it
      does not come up; a start without a fault started the console,
      OpenOCD and GDB on OpenOCD's port, in this order. */
  lemma StartOrder(host: Host, opts: Options, device: string, v: Verdicts)
    ensures var r := StartPlan(host, opts, device, v);
      1 <= |r.1| <= 3 && r.1[0] == Spawned(MinitermArgv(host.python, device)) &&
      (v.console.Some? <==> |r.1| == 1) &&
      (|r.1| >= 2 ==> r.1[1] == Spawned(OpenocdArgv(Openocd(host, opts.openocd), host.scratch))) &&
      (|r.1| == 3 ==>
        v.bridge.BridgeReady? &&
        (opts.kernel.Some? ==> SymbolFile(opts.kernel.value, opts.kernelDebugFile, host.files).Some?) &&
        r.1[2] == Spawned(GdbArgv(Tool(host, "gdb", opts.gdb), opts.bios, v.bridge.port, LoadOf(host, opts)))) &&
      (r.0.None? ==> |r.1| == 3)
  {
  }

  /** A started kernel was debugged through the port OpenOCD printed. */
  lemma StartedThroughBridge(host: Host, opts: Options, device: string, tr: Transcripts, booted: bool)
    requires StartPlan(host, opts, device, Observed(host, opts, tr, booted)).0.None?
    ensures var acts := StartPlan(host, opts, device, Observed(host, opts, tr, booted)).1;
      |acts| == 3 && acts[2].Spawned? && acts[2].argv[0] == Tool(host, "gdb", opts.gdb) &&
      exists i :: TargetsAnnouncedPort(acts[2].argv, tr.bridge, i)
  {
    var v := Observed(host, opts, tr, booted);
    StartOrder(host, opts, device, v);
    var b := v.bridge;
    BridgePortPrinted(tr.bridge, host.timeout);
    var i :| 0 <= i < b.consumed && PortAt(tr.bridge[i].text) == Some(b.port);
    var argv := GdbArgv(Tool(host, "gdb", opts.gdb), opts.bios, b.port, LoadOf(host, opts));
    GdbArgvOrder(Tool(host, "gdb", opts.gdb), opts.bios, b.port, LoadOf(host, opts));
    assert TargetsAnnouncedPort(argv, tr.bridge, i);
  }

  /** A Vivado command line with the given scratch script. */
  predicate RunsVivado(scratch: string, a: Action) {
    a.Spawned? && |a.argv| == 11 && a.argv == VivadoArgv(scratch, a.argv[9], a.argv[10])
  }

  /** Without a bitfile Vivado is never run and nothing is cleaned up. */
  lemma NoBitfileNoVivado(host: Host, opts: Options, ports: seq<PortInfo>, v: Verdicts)
    requires opts.bitfile.None?
    ensures forall a :: a in BringupPlan(host, opts, ports, v).1 ==>
      !RunsVivado(host.scratch, a) && !a.Deleted? && !a.Slept?
  {
    var i := FirstBoard(ports, 0);
    assert ProgramStage(host, opts, v.vivado) == (None, []);
    if i.Some? {
      var r := StartPlan(host, opts, ports[i.value].device, v);
      StartRunsNoVivado(host, opts, ports[i.value].device, v);
      assert BringupPlan(host, opts, ports, v).1 == [] + r.1 + (if r.0.None? then [Interacted] else []);
    }
  }

  /** Starting the kernel never runs Vivado and cleans nothing up. */
  lemma StartRunsNoVivado(host: Host, opts: Options, device: string, v: Verdicts)
    ensures var r := StartPlan(host, opts, device, v);
      forall k :: 0 <= k < |r.1| ==> !RunsVivado(host.scratch, r.1[k]) && !r.1[k].Deleted? && !r.1[k].Slept?
  {
    StartOrder(host, opts, device, v);
    var r := StartPlan(host, opts, device, v);
    forall k | 0 <= k < |r.1|
      ensures !RunsVivado(host.scratch, r.1[k]) && !r.1[k].Deleted? && !r.1[k].Slept?
    {
      assert r.1[k].Spawned? && |r.1[k].argv| != 11 by {
        if k == 2 {
          var g := GdbArgv(Tool(host, "gdb", opts.gdb), opts.bios, v.bridge.port, LoadOf(host, opts));
          assert |g| == 14 || |g| == 18;
        }
      }
    }
  }

  /** A bring-up that ends with the user at the console programmed the
      FPGA first when given a bitfile (with the LTX file beside it when
      none was given), then opened the first board port's console, and
      handed it over last. */
  lemma BringupOrder(host: Host, opts: Options, ports: seq<PortInfo>, v: Verdicts)
    requires BringupPlan(host, opts, ports, v).0.None?
    ensures var acts := BringupPlan(host, opts, ports, v).1;
      var i := FirstBoard(ports, 0);
      i.Some? && |acts| >= 4 && acts[|acts| - 1] == Interacted &&
      acts[|acts| - 4] == Spawned(MinitermArgv(host.python, ports[i.value].device)) &&
      (opts.bitfile.Some? ==>
        |acts| >= 7 && RunsVivado(host.scratch, acts[0]) && acts[0].argv[9] == opts.bitfile.value &&
        (opts.ltxfile.None? ==> Name(opts.bitfile.value) != "" && acts[0].argv[10] == LtxFor(opts.bitfile.value)))
  {
    var i := FirstBoard(ports, 0);
    var p := ProgramStage(host, opts, v.vivado);
    var st := StartPlan(host, opts, ports[i.value].device, v);
    StartOrder(host, opts, ports[i.value].device, v);
    ProgramStageRunsVivado(host, opts, v.vivado);
    var acts := BringupPlan(host, opts, ports, v).1;
    assert acts == p.1 + st.1 + [Interacted];
    assert |st.1| == 3;
    if opts.bitfile.Some? {
      assert acts[0] == p.1[0];
    }
  }

  /** A programming stage that goes on runs Vivado on the bitfile first and
      then cleans up, and does nothing without a bitfile. */
  lemma ProgramStageRunsVivado(host: Host, opts: Options, programmed: Option<Fault>)
    requires ProgramStage(host, opts, programmed).0.None?
    ensures var p := ProgramStage(host, opts, programmed).1;
      (opts.bitfile.None? ==> p == []) &&
      (opts.bitfile.Some? ==>
        |p| >= 3 && RunsVivado(host.scratch, p[0]) && p[0].argv[9] == opts.bitfile.value &&
        (opts.ltxfile.None? ==> Name(opts.bitfile.value) != "" && p[0].argv[10] == LtxFor(opts.bitfile.value)))
  {
  }
}
