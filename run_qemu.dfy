/** The `run` targets of `pycheribuild/projects/run_qemu.py`: launching
    CheriBSD (and the FreeBSD MIPS and CheriOS variants) on CHERI QEMU with
    its Malta machine, the disk, monitor and log options, user networking
    and the forwarded SSH port. */
module RunQemu {

  import opened Wrappers
  import opened Strs
  import opened Paths
  import CCfg = CombinedConfig

  /** `LaunchQEMU` and its two subclasses. */
  datatype Variant = CheriBSD | FreeBSDMips | CheriOS

  /** The default SSH forwarding port of each variant: the per-user port,
      shifted by 2 for FreeBSD MIPS and by 4 for CheriOS so that all three
      can run side by side. */
  function DefaultSshPort(v: Variant, uid: int): (r: int)
    ensures 9999 <= r <= 20002
  {
    CCfg.DefaultSshForwardingPort(uid) + match v case CheriBSD => 0 case FreeBSDMips => 2 case CheriOS => 4
  }

  /** The three variants of one user never share a default port, and each
      stays in its own window of 10000 ports. */
  lemma VariantPorts(uid: int, v: Variant, w: Variant)
    ensures v != w ==> DefaultSshPort(v, uid) != DefaultSshPort(w, uid)
    ensures v == CheriBSD ==> 9999 <= DefaultSshPort(v, uid) <= 19998
    ensures v == FreeBSDMips ==> 10001 <= DefaultSshPort(v, uid) <= 20000
    ensures v == CheriOS ==> 10003 <= DefaultSshPort(v, uid) <= 20002
  {
  }

  /** The target's configuration options: extra QEMU flags, a log file, a
      log directory, the telnet monitor port and the SSH forwarding port
      (`None` where unset). */
  datatype Settings = Settings(extraOptions: seq<string>, logfile: Option<string>, logDirectory: Option<string>,
                               monitorOverTelnet: Option<int>, sshForwardingPort: int)

  /** What `process` finds on the host: the paths that exist, the ports
      that are free, the answers to its two questions (connect the monitor
      to stdio instead; create the missing CheriOS disk) and the current
      time as `%Y%m%d_%H-%M-%S` prints it. */
  datatype Host = Host(existing: set<string>, freePorts: set<int>, monitorOnStdio: bool, createDisk: bool,
                       timestamp: string)

  /** A fatal error ends the process outside pretend mode; in pretend mode
      it is printed and the run goes on, so the outcome lists the fatal
      errors met and the commands run. */
  datatype Outcome = Exited(message: string) | Finished(fatals: seq<string>, commands: seq<seq<string>>)

  /** The host as `process` sees it once its questions are asked:
      `queryYesNo` only prints the question and answers yes (its forced
      result) in pretend or force mode, and otherwise takes the user's answer. */
  function Answered(host: Host, pretend: bool, force: bool): (h: Host)
    ensures h.existing == host.existing && h.freePorts == host.freePorts && h.timestamp == host.timestamp
    ensures h.monitorOnStdio <==> pretend || force || host.monitorOnStdio
    ensures h.createDisk <==> pretend || force || host.createDisk
  {
    host.(monitorOnStdio := pretend || force || host.monitorOnStdio, createDisk := pretend || force || host.createDisk)
  }

  /** Python truthiness of an optional string option. */
  predicate IsSet(o: Option<string>) {
    o.Some? && o.value != ""
  }

  /** Python truthiness of the optional monitor port. */
  predicate MonitorRequested(o: Option<int>) {
    o.Some? && o.value != 0
  }

  /** The QEMU monitor over telnet on the loopback interface. */
  function TelnetMonitor(port: int): seq<string> {
    ["-monitor", "telnet:127.0.0.1:" + IntToString(port) + ",server,nowait"]
  }

  const MonitorRefused := "Monitor port not available and stdio is not acceptable."

  /** The monitor options: none without a port; the telnet monitor when its
      port is free; the console when it is taken and the user accepts that;
      `None` (a fatal error) when the user refuses. */
  function MonitorChoice(s: Settings, host: Host): (r: Option<seq<string>>)
    ensures r.None? <==> (MonitorRequested(s.monitorOverTelnet) && s.monitorOverTelnet.value !in host.freePorts &&
      !host.monitorOnStdio)
    ensures r.Some? && r.value != [] ==> (MonitorRequested(s.monitorOverTelnet) &&
      r.value == TelnetMonitor(s.monitorOverTelnet.value) && s.monitorOverTelnet.value in host.freePorts)
  {
    if !MonitorRequested(s.monitorOverTelnet) then Some([])
    else if s.monitorOverTelnet.value in host.freePorts then Some(TelnetMonitor(s.monitorOverTelnet.value))
    else if host.monitorOnStdio then Some([])
    else None
  }

  /** The log file QEMU writes under the log directory. */
  function LogName(timestamp: string): string {
    "qemu-cheri-" + timestamp + ".log"
  }

  /** The "-D" log options: an explicit log file wins over the log
      directory. */
  function LogfileOptions(s: Settings, timestamp: string): (r: seq<string>)
    ensures IsSet(s.logfile) ==> r == ["-D", s.logfile.value]
    ensures !IsSet(s.logfile) && !IsSet(s.logDirectory) ==> r == []
  {
    if IsSet(s.logfile) then ["-D", s.logfile.value]
    else if IsSet(s.logDirectory) then ["-D", PathJoin(s.logDirectory.value, LogName(timestamp))]
    else []
  }

  /** Without a log file the directory's log is named after the current
      time and lies inside the directory. */
  lemma DirectoryLog(s: Settings, timestamp: string)
    requires !IsSet(s.logfile) && IsSet(s.logDirectory)
    ensures var r := LogfileOptions(s, timestamp);
      |r| == 2 && r[0] == "-D" && StartsWith(r[1], s.logDirectory.value) && EndsWith(r[1], LogName(timestamp)) &&
      StartsWith(LogName(timestamp), "qemu-cheri-") && EndsWith(LogName(timestamp), ".log")
  {
    AppendEnds("qemu-cheri-" + timestamp, ".log");
    AppendEnds("qemu-cheri-", timestamp);
    var n := LogName(timestamp);
    assert StartsWith(n, "qemu-cheri-") by {
      assert n[..|"qemu-cheri-"|] == ("qemu-cheri-" + timestamp)[..|"qemu-cheri-"|];
    }
    assert !IsAbsolute(n) by {
      assert n[0] == 'q';
    }
  }

  /** The fixed start of every command line: the binary on the Malta
      machine with the kernel, 2048 MiB and no graphics. */
  function FixedHead(binary: string, kernel: string): seq<string> {
    [binary, "-M", "malta", "-kernel", kernel, "-m", "2048", "-nographic"]
  }

  function UserNetwork(enabled: bool): seq<string> {
    if enabled then ["-net", "nic", "-net", "user"] else []
  }

  /** Forward the host's SSH port to the guest's port 22. */
  function SshRedirect(enabled: bool, port: int): seq<string> {
    if enabled then ["-redir", "tcp:" + IntToString(port) + "::22"] else []
  }

  /** The QEMU command line: the fixed head, then the project, disk,
      monitor, log and extra options in that order, then user networking
      and the SSH redirect. */
  function QemuCommand(binary: string, kernel: string, project: seq<string>, disk: seq<string>,
                       monitor: seq<string>, log: seq<string>, extra: seq<string>, userNet: bool, forward: bool,
                       port: int): (r: seq<string>)
    ensures |r| >= 8 && r[0] == binary && r[3..5] == ["-kernel", kernel]
    ensures forward ==> |r| >= 10 && r[|r| - 2] == "-redir"
  {
    var pre := FixedHead(binary, kernel) + (project + disk + monitor + log + extra) + UserNetwork(userNet);
    var r := pre + SshRedirect(forward, port);
    assert r[3] == "-kernel" && r[4] == kernel;
    assert r[3..5] == ["-kernel", kernel];
    r
  }

  /** Where the parts of a sequence built by three appends lie. */
  lemma Sections(h: seq<string>, o: seq<string>, t1: seq<string>, t2: seq<string>)
    ensures var r := h + o + t1 + t2;
      |r| == |h| + |o| + |t1| + |t2| && r[..|h|] == h && r[|h|..|h| + |o|] == o &&
      r[|r| - |t2|..] == t2 && (t2 == [] ==> r[|r| - |t1|..] == t1)
  {
    var r := h + o + t1 + t2;
    assert r[..|h|] == h;
    assert r[|h|..|h| + |o|] == o;
  }

  /** The command line starts with the fixed head and the options in their
      order; user networking is added exactly when enabled, and the SSH
      redirect to guest port 22 ends the line exactly when forwarding. */
  lemma QemuCommandShape(binary: string, kernel: string, project: seq<string>, disk: seq<string>,
                         monitor: seq<string>, log: seq<string>, extra: seq<string>, userNet: bool, forward: bool,
                         port: int)
    ensures var r := QemuCommand(binary, kernel, project, disk, monitor, log, extra, userNet, forward, port);
      var opts := project + disk + monitor + log + extra;
      var tail := UserNetwork(userNet) + SshRedirect(forward, port);
      |r| == 8 + |opts| + |tail| && r[..8] == FixedHead(binary, kernel) && r[8..8 + |opts|] == opts &&
      |tail| == (if userNet then 4 else 0) + (if forward then 2 else 0) &&
      (forward ==> r[|r| - 2] == "-redir" && r[|r| - 1] == "tcp:" + IntToString(port) + "::22") &&
      (userNet && !forward ==> r[|r| - 4..] == ["-net", "nic", "-net", "user"])
  {
    Sections(FixedHead(binary, kernel), project + disk + monitor + log + extra, UserNetwork(userNet),
      SshRedirect(forward, port));
  }

  function QemuMissing(binary: string): string {
    "QEMU is missing: " + binary
  }

  function KernelMissing(kernel: string): string {
    "Kernel is missing: " + kernel
  }

  function DiskMissing(image: string): string {
    "Disk image is missing: " + image
  }

  function PortInUse(port: int): string {
    "SSH forwarding port " + IntToString(port) + " is already in use!"
  }

  /** The fatal errors about the binary and the kernel, in the order they
      are checked. */
  function ToolErrors(binary: string, kernel: string, existing: set<string>): (r: seq<string>)
    ensures r == [] <==> binary in existing && kernel in existing
  {
    (if binary !in existing then [QemuMissing(binary)] else []) +
    (if kernel !in existing then [KernelMissing(kernel)] else [])
  }

  /** The fatal errors about the disk image and the SSH port, in the order
      they are checked. */
  function ImageErrors(image: Option<string>, forward: bool, port: int, host: Host, existing: set<string>)
    : (r: seq<string>)
    ensures r == [] <==> (image.Some? ==> image.value in existing) && (forward ==> port in host.freePorts)
  {
    (if image.Some? && image.value !in existing then [DiskMissing(image.value)] else []) +
    (if forward && port !in host.freePorts then [PortInUse(port)] else [])
  }

  /** The zero-filled 1 MiB image `dd` writes for CheriOS. */
  function CreateDiskCommand(image: string): seq<string> {
    ["dd", "if=/dev/zero", "of=" + image, "bs=1M", "count=1"]
  }

  class LaunchQEMU {
    const variant: Variant
    const qemuBinary: string
    const currentKernel: string
    const diskImage: Option<string>
    var diskOptions: seq<string>
    const projectSpecificOptions: seq<string>
    const qemuUserNetworking: bool
    const forwardSshPort: bool
    const settings: Settings

    /** The constructors of the three variants: the SDK's CHERI QEMU with
        CheriBSD's kernel and disk image; FreeBSD's instead; or the CheriOS
        kernel with its own virtio disk, no reboot, no user network and no
        SSH forwarding. */
    constructor(variant: Variant, sdkDir: string, cheribsdRootfs: string, freebsdRootfs: string,
                cheribsdImage: Option<string>, freebsdImage: Option<string>, cheriosBuildDir: string,
                outputRoot: string, settings: Settings)
      ensures this.variant == variant && this.settings == settings
      ensures qemuBinary == PathJoin(sdkDir, "bin/qemu-system-cheri")
      ensures variant == CheriBSD ==> (currentKernel == PathJoin(cheribsdRootfs, "boot/kernel/kernel") &&
        diskImage == cheribsdImage && diskOptions == [] && projectSpecificOptions == [] && qemuUserNetworking &&
        forwardSshPort)
      ensures variant == FreeBSDMips ==> (currentKernel == PathJoin(freebsdRootfs, "boot/kernel/kernel") &&
        diskImage == freebsdImage && diskOptions == [] && projectSpecificOptions == [] && qemuUserNetworking &&
        forwardSshPort)
      ensures variant == CheriOS ==> (currentKernel == PathJoin(cheriosBuildDir, "boot/cherios.elf") &&
        diskImage == Some(PathJoin(outputRoot, "cherios-disk.img")) &&
        diskOptions == ["-drive", "if=none,file=" + diskImage.value + ",id=drv,format=raw",
                        "-device", "virtio-blk-device,drive=drv"] &&
        projectSpecificOptions == ["-no-reboot"] && !qemuUserNetworking && !forwardSshPort)
    {
      this.variant := variant;
      this.settings := settings;
      qemuBinary := PathJoin(sdkDir, "bin/qemu-system-cheri");
      match variant {
        case CheriBSD =>
          currentKernel := PathJoin(cheribsdRootfs, "boot/kernel/kernel");
          diskImage := cheribsdImage;
          diskOptions := [];
          projectSpecificOptions := [];
          qemuUserNetworking := true;
          forwardSshPort := true;
        case FreeBSDMips =>
          currentKernel := PathJoin(freebsdRootfs, "boot/kernel/kernel");
          diskImage := freebsdImage;
          diskOptions := [];
          projectSpecificOptions := [];
          qemuUserNetworking := true;
          forwardSshPort := true;
        case CheriOS =>
          var image := PathJoin(outputRoot, "cherios-disk.img");
          currentKernel := PathJoin(cheriosBuildDir, "boot/cherios.elf");
          diskImage := Some(image);
          diskOptions := ["-drive", "if=none,file=" + image + ",id=drv,format=raw",
                          "-device", "virtio-blk-device,drive=drv"];
          projectSpecificOptions := ["-no-reboot"];
          qemuUserNetworking := false;
          forwardSshPort := false;
      }
    }

    /** The paths that exist once CheriOS's missing disk may have been
        created; outside pretend mode `dd` really writes it. */
    function ExistingAfterCreate(host: Host, pretend: bool): set<string> {
      if variant == CheriOS && diskImage.Some? && diskImage.value !in host.existing && host.createDisk && !pretend
      then host.existing + {diskImage.value}
      else host.existing
    }

    function CreateCommands(host: Host): seq<seq<string>> {
      if variant == CheriOS && diskImage.Some? && diskImage.value !in host.existing && host.createDisk
      then [CreateDiskCommand(diskImage.value)]
      else []
    }

    /** `process`: for CheriOS, offer to create a missing disk; check the
        binary and kernel; default the disk options to "-hda" with the
        image when none were preset; check the image and the SSH port;
        choose the monitor and log options; then run QEMU. */
    method Process(host: Host, pretend: bool, force: bool) returns (r: Outcome)
      modifies this`diskOptions
      ensures var h := Answered(host, pretend, force);
        var existing := ExistingAfterCreate(h, pretend);
        var tools := ToolErrors(qemuBinary, currentKernel, existing);
        var images := ImageErrors(diskImage, forwardSshPort, settings.sshForwardingPort, h, existing);
        var monitor := MonitorChoice(settings, h);
        (!pretend && tools != [] ==> r == Exited(tools[0]) && diskOptions == old(diskOptions)) &&
        (pretend || tools == [] ==>
          diskOptions == (if diskImage.Some? && old(diskOptions) == [] then ["-hda", diskImage.value]
                          else old(diskOptions)) &&
          (!pretend && images != [] ==> r == Exited(images[0])) &&
          (pretend || images == [] ==>
            (monitor.None? ==> r == (if pretend then Finished(tools + images + [MonitorRefused], CreateCommands(h))
                                     else Exited(MonitorRefused))) &&
            (monitor.Some? ==>
              r == Finished(tools + images, CreateCommands(h) + [
                QemuCommand(qemuBinary, currentKernel, projectSpecificOptions, diskOptions, monitor.value,
                            LogfileOptions(settings, h.timestamp), settings.extraOptions, qemuUserNetworking,
                            forwardSshPort, settings.sshForwardingPort)]))))
    {
      var h := Answered(host, pretend, force);
      var commands := CreateCommands(h);
      var existing := ExistingAfterCreate(h, pretend);
      var tools := ToolErrors(qemuBinary, currentKernel, existing);
      if !pretend && tools != [] {
        return Exited(tools[0]);
      }
      if diskImage.Some? && |diskOptions| == 0 {
        diskOptions := ["-hda", diskImage.value];
      }
      var images := ImageErrors(diskImage, forwardSshPort, settings.sshForwardingPort, h, existing);
      if !pretend && images != [] {
        return Exited(images[0]);
      }
      var fatals := tools + images;
      var monitor := MonitorChoice(settings, h);
      if monitor.None? {
        if !pretend {
          return Exited(MonitorRefused);
        }
        return Finished(fatals + [MonitorRefused], commands);
      }
      var log := LogfileOptions(settings, h.timestamp);
      var qemuCommand := QemuCommand(qemuBinary, currentKernel, projectSpecificOptions, diskOptions, monitor.value,
                                     log, settings.extraOptions, qemuUserNetworking, forwardSshPort,
                                     settings.sshForwardingPort);
      return Finished(fatals, commands + [qemuCommand]);
    }
  }

  /** Each missing piece is reported, first the binary, then the kernel,
      the image and the port. */
  lemma ErrorsInOrder(binary: string, kernel: string, image: Option<string>, forward: bool, port: int, host: Host,
                      existing: set<string>)
    ensures var e := ToolErrors(binary, kernel, existing) + ImageErrors(image, forward, port, host, existing);
      (binary !in existing ==> e[0] == QemuMissing(binary)) &&
      (binary in existing && kernel !in existing ==> e[0] == KernelMissing(kernel)) &&
      |e| == (if binary !in existing then 1 else 0) + (if kernel !in existing then 1 else 0) +
        (if image.Some? && image.value !in existing then 1 else 0) + (if forward && port !in host.freePorts then 1 else 0)
  {
  }
}
