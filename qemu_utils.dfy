/** The emulator settings of `pycheribuild/qemu_utils.py`: per target
    architecture, the QEMU binary suffix, machine, disk interface and
    whether the kernel can be booted directly; the disk and user-network
    arguments; and the full QEMU command line. */
module QemuUtils {

  import opened Wrappers
  import opened Strs
  import TI = TargetInfo

  /** `is_mips(include_purecap=True)`: the MIPS architecture, capability
      flavour or not. */
  predicate IsAnyMips(t: TI.Target) {
    TI.IsMips(t, Some(true)).value
  }

  /** The targets the constructor knows: every target with an
      architecture. */
  predicate Supported(t: TI.Target) {
    t.arch.Some?
  }

  /** What `get_commandline` is called with: an explicit binary, kernel,
      disk image, extra user-network options, whether to add a network
      device, BIOS arguments, the two CHERI trap switches, the virtio random
      number generator and the GUI options (`None` where the caller left
      them out). */
  datatype Request = Request(qemuCommand: Option<string>, kernelFile: Option<string>, diskImage: Option<string>,
                             userNetworkArgs: string, addNetworkDevice: bool, biosArgs: Option<seq<string>>,
                             trapOnUnrepresentable: bool, debuggerOnCheriTrap: bool, addVirtioRng: bool,
                             guiOptions: Option<seq<string>>)

  /** The flags that make QEMU trap instead of detagging, and enter the
      debugger on a CHERI trap; only a CHERI target gets them. */
  function CheriFlags(cheri: bool, req: Request): (r: seq<string>)
    ensures "-cheri-c2e-on-unrepresentable" in r <==> cheri && req.trapOnUnrepresentable
    ensures "-cheri-debugger-on-trap" in r <==> cheri && req.debuggerOnCheriTrap
    ensures |r| <= 2 && (!cheri ==> r == [])
  {
    (if cheri && req.trapOnUnrepresentable then ["-cheri-c2e-on-unrepresentable"] else []) +
    (if cheri && req.debuggerOnCheriTrap then ["-cheri-debugger-on-trap"] else [])
  }

  /** The GUI options, "-nographic" unless the caller chose others. */
  function GuiOptions(req: Request): (r: seq<string>)
    ensures req.guiOptions.None? ==> "-nographic" in r
    ensures req.guiOptions.Some? ==> r == req.guiOptions.value
  {
    if req.guiOptions.None? then ["-nographic"] else req.guiOptions.value
  }

  /** `str(qemu_command)`: the explicit command, else what the search path
      gives for the binary; a binary found nowhere prints as "None". */
  function Binary(req: Request, inPath: Option<string>): string {
    match req.qemuCommand
    case Some(c) => c
    case None => if inPath.Some? then inPath.value else "None"
  }

  class QemuOptions {
    const xtarget: TI.Target
    const virtioDisk: bool
    const canBootKernelDirectly: bool
    const memorySize: string
    const archSuffix: string
    const machineFlags: seq<string>

    /** The settings of each architecture: CHERI QEMU with the Malta
        machine and a plain IDE disk for MIPS; the RISC-V CHERI QEMU on the
        virt machine; the default PC for x86, booting from disk; the virt
        machine for AArch64, booting from disk; 2048 MiB everywhere. */
    predicate Valid() {
      memorySize == "2048" &&
      match xtarget.arch
      case Some(MIPS64) =>
        archSuffix == "cheri128" && machineFlags == ["-M", "malta"] && !virtioDisk && canBootKernelDirectly
      case Some(RISCV64) =>
        archSuffix == "riscv64cheri" && machineFlags == ["-M", "virt"] && virtioDisk && canBootKernelDirectly
      case Some(X86_64) => archSuffix == "x86_64" && machineFlags == [] && virtioDisk && !canBootKernelDirectly
      case Some(I386) => archSuffix == "i386" && machineFlags == [] && virtioDisk && !canBootKernelDirectly
      case Some(AARCH64) =>
        archSuffix == "aarch64" && machineFlags == ["-M", "virt"] && virtioDisk && !canBootKernelDirectly
      case None => false
    }

    constructor(xtarget: TI.Target)
      requires Supported(xtarget)
      ensures this.xtarget == xtarget && Valid()
    {
      this.xtarget := xtarget;
      memorySize := "2048";
      if IsAnyMips(xtarget) {
        archSuffix := "cheri128";
        machineFlags := ["-M", "malta"];
        virtioDisk := false;
        canBootKernelDirectly := true;
      } else if TI.IsRiscv(xtarget) {
        archSuffix := "riscv64cheri";
        machineFlags := ["-M", "virt"];
        virtioDisk := true;
        canBootKernelDirectly := true;
      } else if TI.IsAnyX86(xtarget) {
        archSuffix := if TI.IsX86_64(xtarget) then "x86_64" else "i386";
        machineFlags := [];
        virtioDisk := true;
        canBootKernelDirectly := false;
      } else {
        archSuffix := "aarch64";
        machineFlags := ["-M", "virt"];
        virtioDisk := true;
        canBootKernelDirectly := false;
      }
    }

    /** `disk_image_args`: with virtio, a drive without an interface and
        the virtio block device that refers to it; otherwise the first raw
        disk. */
    function DiskImageArgs(image: string): (r: seq<string>) {
      if virtioDisk then
        ["-drive", "if=none,file=" + image + ",id=drv,format=raw", "-device", "virtio-blk-device,drive=drv"]
      else ["-drive", "file=" + image + ",format=raw,index=0,media=disk"]
    }

    /** `can_use_virtio_network`: FreeBSD does not get on with virtio
        networking on big-endian MIPS. */
    function CanUseVirtioNetwork(): (r: bool)
      ensures r <==> xtarget.arch != Some(TI.MIPS64)
    {
      !IsAnyMips(xtarget)
    }

    /** `user_network_args`: user-mode networking without IPv6 and with the
        caller's extra options, behind an emulated NIC on MIPS, a virtio PCI
        device on x86 and a virtio MMIO device elsewhere. */
    function UserNetworkArgs(extra: string): (r: seq<string>)
    {
      if !CanUseVirtioNetwork() then ["-net", "nic", "-net", "user,id=net0,ipv6=off" + extra]
      else
        var kind := if TI.IsAnyX86(xtarget) then "virtio-net-pci" else "virtio-net-device";
        ["-device", kind + ",netdev=net0", "-netdev", "user,id=net0,ipv6=off" + extra]
    }

    function BiosArgs(req: Request): seq<string> {
      if req.biosArgs.Some? then req.biosArgs.value else []
    }

    function KernelArgs(req: Request): seq<string> {
      if req.kernelFile.Some? then ["-kernel", req.kernelFile.value] else []
    }

    function DiskArgs(req: Request): seq<string> {
      if req.diskImage.Some? then DiskImageArgs(req.diskImage.value) else []
    }

    function NetworkArgs(req: Request): seq<string>
    {
      if req.addNetworkDevice then UserNetworkArgs(req.userNetworkArgs) else []
    }

    function RngArgs(req: Request): seq<string> {
      if req.addVirtioRng then ["-device", "virtio-rng-pci"] else []
    }

    /** The command line in the order `get_commandline` builds it: binary,
        machine flags, memory size, CHERI flags, GUI options, BIOS
        arguments, kernel, disk, network and random number generator. */
    function CommandLine(req: Request, inPath: Option<string>, cheri: bool): (r: seq<string>)
      ensures |r| > |machineFlags| + 2 && r[0] == Binary(req, inPath)
    {
      [Binary(req, inPath)] + machineFlags + ["-m", memorySize] + CheriFlags(cheri, req) + GuiOptions(req) +
      BiosArgs(req) + KernelArgs(req) + DiskArgs(req) + NetworkArgs(req) + RngArgs(req)
    }

    /** `get_commandline`, given where the search path finds the binary
        and whether the target is a CHERI one (hybrid or pure-capability). */
    method GetCommandline(req: Request, inPath: Option<string>, cheri: bool) returns (result: seq<string>)
      ensures result == CommandLine(req, inPath, cheri)
    {
      result := [Binary(req, inPath)];
      result := result + machineFlags;
      result := result + ["-m", memorySize];
      var gui := GuiOptions(req);
      ghost var before := result;
      if cheri {
        if req.trapOnUnrepresentable {
          result := result + ["-cheri-c2e-on-unrepresentable"];
        }
        if req.debuggerOnCheriTrap {
          result := result + ["-cheri-debugger-on-trap"];
        }
      }
      assert result == before + CheriFlags(cheri, req);
      result := result + gui;
      // each section below is empty when the caller did not ask for it
      result := result + BiosArgs(req);
      result := result + KernelArgs(req);
      result := result + DiskArgs(req);
      result := result + NetworkArgs(req);
      result := result + RngArgs(req);
    }
  }

  /** `QemuOptions(xtarget)`: any target without an architecture is a
      `ValueError`. */
  method NewQemuOptions(xtarget: TI.Target) returns (r: Result<QemuOptions>)
    ensures r.Err? <==> !Supported(xtarget)
    ensures r.Ok? ==> fresh(r.value) && r.value.xtarget == xtarget && r.value.Valid()
  {
    if !Supported(xtarget) {
      return Err("Unknown target " + TI.Name(xtarget));
    }
    var o := new QemuOptions(xtarget);
    return Ok(o);
  }

  /** Only MIPS goes without a virtio disk, only MIPS and RISC-V boot the
      kernel directly, only x86 runs without machine flags, and every
      architecture gets its own binary suffix. */
  lemma ArchitectureTable(o: QemuOptions, p: QemuOptions)
    requires o.Valid() && p.Valid()
    ensures o.virtioDisk <==> o.xtarget.arch != Some(TI.MIPS64)
    ensures o.canBootKernelDirectly <==> o.xtarget.arch in {Some(TI.MIPS64), Some(TI.RISCV64)}
    ensures o.machineFlags == [] <==> TI.IsAnyX86(o.xtarget)
    ensures o.archSuffix == p.archSuffix ==> o.xtarget.arch == p.xtarget.arch
    ensures o.memorySize == "2048"
  {
  }

  /** The user network always ends in the user-mode back end with the
      caller's options; the front end is an emulated NIC exactly when
      virtio networking is unusable, and a PCI device exactly on x86. */
  lemma UserNetworkShape(o: QemuOptions, extra: string)
    ensures var r := o.UserNetworkArgs(extra);
      |r| == 4 && EndsWith(r[3], "user,id=net0,ipv6=off" + extra) &&
      (r[0] == "-net" <==> o.xtarget.arch == Some(TI.MIPS64)) &&
      (r[1] == "virtio-net-pci,netdev=net0" <==> TI.IsAnyX86(o.xtarget))
  {
    var r := o.UserNetworkArgs(extra);
    assert r[3] == "user,id=net0,ipv6=off" + extra;
    if o.xtarget.arch == Some(TI.MIPS64) {
      assert r[1] == "nic";
      assert r[1] != "virtio-net-pci,netdev=net0" by { assert |r[1]| == 3; }
    }
  }

  /** Either way the image is named once, in a single raw-format drive:
      with virtio the drive carries the id "drv" that the block device
      names, otherwise it is the first disk. */
  lemma DiskImageShape(o: QemuOptions, image: string)
    ensures var r := o.DiskImageArgs(image);
      |r| == (if o.virtioDisk then 4 else 2) && r[0] == "-drive" &&
      (o.virtioDisk ==>
        StartsWith(r[1], "if=none,file=" + image) && EndsWith(r[1], ",id=drv,format=raw") &&
        r[2] == "-device" && r[3] == "virtio-blk-device,drive=drv") &&
      (!o.virtioDisk ==> StartsWith(r[1], "file=" + image) && EndsWith(r[1], ",format=raw,index=0,media=disk"))
  {
    if o.virtioDisk {
      AppendEnds("if=none,file=" + image, ",id=drv,format=raw");
    } else {
      AppendEnds("file=" + image, ",format=raw,index=0,media=disk");
    }
  }

  /** A sequence built by appending keeps what it started with. */
  lemma PrefixKept(h: seq<string>, t1: seq<string>, t2: seq<string>, t3: seq<string>, t4: seq<string>,
                   t5: seq<string>, t6: seq<string>)
    ensures var r := h + t1 + t2 + t3 + t4 + t5 + t6;
      |h| <= |r| && r[..|h|] == h && (|t1| > 0 ==> r[|h|] == t1[0])
  {
    var r := h + t1 + t2 + t3 + t4 + t5 + t6;
    assert r == h + (t1 + t2 + t3 + t4 + t5 + t6);
  }

  /** The command line begins with the binary, the machine flags and the
      memory size, then the CHERI flags (none for other targets), then the
      GUI options, which are "-nographic" unless the caller chose. */
  lemma CommandLineHead(o: QemuOptions, req: Request, inPath: Option<string>, cheri: bool)
    ensures var r := o.CommandLine(req, inPath, cheri);
      var n := |o.machineFlags| + 3 + |CheriFlags(cheri, req)|;
      n <= |r| && r[..n] == [Binary(req, inPath)] + o.machineFlags + ["-m", o.memorySize] + CheriFlags(cheri, req) &&
      (!cheri ==> n == |o.machineFlags| + 3) &&
      (req.guiOptions.None? ==> r[n] == "-nographic")
  {
    var h := [Binary(req, inPath)] + o.machineFlags + ["-m", o.memorySize] + CheriFlags(cheri, req);
    PrefixKept(h, GuiOptions(req), o.BiosArgs(req), o.KernelArgs(req), o.DiskArgs(req), o.NetworkArgs(req),
      o.RngArgs(req));
  }

  /** The command line ends with the random number generator when asked
      for, and otherwise with the network when one is added. */
  lemma CommandLineEnd(o: QemuOptions, req: Request, inPath: Option<string>, cheri: bool)

    ensures var r := o.CommandLine(req, inPath, cheri);
      (req.addVirtioRng ==> r[|r| - 2..] == ["-device", "virtio-rng-pci"]) &&
      (!req.addVirtioRng && req.addNetworkDevice ==> r[|r| - 4..] == o.UserNetworkArgs(req.userNetworkArgs))
  {
    var r := o.CommandLine(req, inPath, cheri);
    var p := r[..|r| - |o.RngArgs(req)|];
    assert r == p + o.RngArgs(req);
    if !req.addVirtioRng && req.addNetworkDevice {
      UserNetworkShape(o, req.userNetworkArgs);
      assert r == p;
    }
  }

  /** A kernel is passed with "-kernel" right after the GUI and BIOS
      arguments. */
  lemma KernelPosition(o: QemuOptions, req: Request, inPath: Option<string>, cheri: bool)
    requires req.kernelFile.Some?
    ensures var r := o.CommandLine(req, inPath, cheri);
      var k := |o.machineFlags| + 3 + |CheriFlags(cheri, req)| + |GuiOptions(req)| + |o.BiosArgs(req)|;
      r[k] == "-kernel" && r[k + 1] == req.kernelFile.value
  {
    var r := o.CommandLine(req, inPath, cheri);
    var head := [Binary(req, inPath)] + o.machineFlags + ["-m", o.memorySize] + CheriFlags(cheri, req) +
      GuiOptions(req) + o.BiosArgs(req);
    assert r == head + ["-kernel", req.kernelFile.value] + o.DiskArgs(req) + o.NetworkArgs(req) + o.RngArgs(req);
  }
}
