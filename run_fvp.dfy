/** The Morello fixed virtual platform of `pycheribuild/projects/run_fvp.py`:
    the per-user SSH port, the model parameters and their "-C" flattening,
    the simulator command line, and running the installed model directly or
    inside its docker container. */
module RunFvp {

  import opened Wrappers
  import opened Strs
  import opened Paths

  /** `default_ssh_port`: one port per user id, counted from 12345 for uid
      1000 and wrapping every 10000 ids (Python's `%` by a positive number
      is never negative, as is Dafny's). */
  function DefaultSshPort(uid: int): (r: int)
    ensures 12345 <= r <= 22344
  {
    12345 + (uid - 1000) % 10000
  }

  /** Users whose ids differ by less than 10000 get different ports. */
  lemma SshPortPerUser(uid: int, uid': int)
    requires uid != uid' && 1000 <= uid < 11000 && 1000 <= uid' < 11000
    ensures DefaultSshPort(uid) != DefaultSshPort(uid')
  {
  }

  /** The model parameters: a single core, the UART without timing, the
      SMSC network card behind the host bridge with the SSH port forwarded
      to guest port 22, the two firmware images and the disk image. */
  function ModelParams(sshPort: int, bl1: string, fip: string, disk: string): (r: seq<string>)
    ensures |r| == 15
  {
    ["pctl.startup=0.0.0.0",
     "bp.secure_memory=0",
     "cache_state_modelled=0",
     "bp.pl011_uart0.untimed_fifos=1",
     "cluster0.NUM_CORES=1",
     "bp.smsc_91c111.enabled=1",
     "bp.hostbridge.userNetworking=true",
     "bp.hostbridge.userNetPorts=" + IntToString(sshPort) + "=22",
     "bp.hostbridge.interfaceName=ARM0",
     "bp.virtio_net.enabled=0",
     "bp.virtio_net.transport=legacy",
     "bp.virtio_net.hostbridge.userNetworking=1",
     "bp.secureflashloader.fname=" + bl1,
     "bp.flashloader0.fname=" + fip,
     "bp.virtioblockdevice.image_path=" + disk]
  }

  /** The host bridge forwards the chosen SSH port to the guest's port 22,
      and the firmware and disk parameters name the given files. */
  lemma ModelParamsName(sshPort: int, bl1: string, fip: string, disk: string)
    ensures var r := ModelParams(sshPort, bl1, fip, disk);
      r[7] == "bp.hostbridge.userNetPorts=" + IntToString(sshPort) + "=22" &&
      EndsWith(r[7], "=22") && EndsWith(r[12], bl1) && EndsWith(r[13], fip) && EndsWith(r[14], disk)
  {
    AppendEnds("bp.hostbridge.userNetPorts=" + IntToString(sshPort), "=22");
    AppendEnds("bp.secureflashloader.fname=", bl1);
    AppendEnds("bp.flashloader0.fname=", fip);
    AppendEnds("bp.virtioblockdevice.image_path=", disk);
  }

  /** `[x for param in params for x in ("-C", param)]`: each parameter in
      order, preceded by "-C". */
  function FlattenParams(params: seq<string>): (r: seq<string>)
    ensures |r| == 2 * |params|
  {
    if params == [] then [] else ["-C", params[0]] + FlattenParams(params[1..])
  }

  /** The flattened parameters alternate: "-C", then the i-th parameter. */
  lemma {:induction false} FlattenAt(params: seq<string>, i: nat)
    requires i < |params|
    ensures FlattenParams(params)[2 * i] == "-C" && FlattenParams(params)[2 * i + 1] == params[i]
  {
    if i > 0 {
      FlattenAt(params[1..], i - 1);
      var rest := FlattenParams(params[1..]);
      assert FlattenParams(params) == ["-C", params[0]] + rest;
      assert FlattenParams(params)[2 * i] == rest[2 * (i - 1)];
      assert FlattenParams(params)[2 * i + 1] == rest[2 * (i - 1) + 1];
    }
  }

  /** Flattening the parameters of two runs one after the other is
      flattening them together. */
  lemma {:induction false} FlattenAppend(a: seq<string>, b: seq<string>)
    ensures FlattenParams(a + b) == FlattenParams(a) + FlattenParams(b)
  {
    if a == [] {
      assert a + b == b;
    } else {
      assert (a + b)[0] == a[0];
      assert (a + b)[1..] == a[1..] + b;
      FlattenAppend(a[1..], b);
      assert FlattenParams(a + b) == ["-C", a[0]] + (FlattenParams(a[1..]) + FlattenParams(b));
      assert FlattenParams(a) == ["-C", a[0]] + FlattenParams(a[1..]);
    }
  }

  /** The simulator command line: the model binary with the Morello plugin,
      asked to print its port numbers, then the flattened parameters. */
  function FvpCommand(simBinary: string, plugin: string, params: seq<string>): (r: seq<string>)
    ensures |r| == 4 + 2 * |params| && r[..4] == [simBinary, "--plugin", plugin, "--print-port-number"]
    ensures r[4..] == FlattenParams(params)
  {
    [simBinary, "--plugin", plugin, "--print-port-number"] + FlattenParams(params)
  }

  const PluginPath := "plugins/Linux64_GCC-6.4/MorelloPlugin.so"
  const ModelPath := "models/Linux64_GCC-6.4/FVP_Morello"

  /** `_plugin_args` and `execute_fvp` of the installer: the model from the
      install directory, or `docker run` of the container with the model's
      path inside it, then the plugin and the caller's arguments. */
  function ExecuteFvpCommand(useDocker: bool, container: string, installDir: string, args: seq<string>)
    : (r: seq<string>)
    ensures useDocker ==> (|r| == 8 + |args| && r[..5] == ["docker", "run", "-it", "--rm", container] &&
      r[5] == PathJoin("/opt/FVP_Morello", ModelPath) && r[6..8] == ["--plugin", PathJoin("/opt/FVP_Morello", PluginPath)])
    ensures !useDocker ==> (|r| == 3 + |args| && r[0] == PathJoin(installDir, ModelPath) &&
      r[1..3] == ["--plugin", PathJoin(installDir, PluginPath)])
    ensures r[|r| - |args|..] == args
  {
    var base := if useDocker then ["docker", "run", "-it", "--rm", container, PathJoin("/opt/FVP_Morello", ModelPath)]
                else [PathJoin(installDir, ModelPath)];
    var plugin := if useDocker then ["--plugin", PathJoin("/opt/FVP_Morello", PluginPath)]
                  else ["--plugin", PathJoin(installDir, PluginPath)];
    base + plugin + args
  }

  /** What `process` finds on the host: the existing files and
      directories. */
  datatype Host = Host(files: set<string>, dirs: set<string>)

  /** The outcome of `process`: a fatal error ends it outside pretend mode;
      otherwise the fatal errors printed, the license server put in the
      environment, the remote copies made and the simulator command. */
  datatype Outcome =
    | Exited(message: string)
    | Finished(fatals: seq<string>, licenseFile: string, copies: seq<(string, string)>, command: seq<string>)

  predicate IsSet(o: Option<string>) {
    o.Some? && o.value != ""
  }

  const NoLicense := "License server info unknown, set the --license-server config option!"
  const NoFirmware := "Firmware path is unknown, set the --firmware-path config option!"

  function NoSimulator(path: string): string {
    "FVP path " + path + " does not exist, set the --simulator-path config option!"
  }

  function Missing(what: string, path: string): string {
    what + " " + path + " does not exist"
  }

  /** The files the run needs, in the order they are checked, with what
      each is. */
  function NeededFiles(simulator: string, firmware: string, disk: string): seq<(string, string)> {
    [("Morello FVP plugin", PathJoin(simulator, "plugins/Linux64_GCC-6.4/MorelloPlugin.so")),
     ("Model binary", PathJoin(simulator, "models/Linux64_GCC-6.4/FVP_Base_RevC-Rainier")),
     ("bl1.bin firmware", PathJoin(firmware, "bl1.bin")),
     ("fip.bin firmware", PathJoin(firmware, "fip.bin")),
     ("disk image", disk)]
  }

  /** The fatal errors for the needed files that are missing, in order. */
  function MissingFiles(needed: seq<(string, string)>, files: set<string>): (r: seq<string>)
    ensures r == [] <==> forall i :: 0 <= i < |needed| ==> needed[i].1 in files
    ensures |r| <= |needed|
  {
    if needed == [] then []
    else
      var rest := MissingFiles(needed[1..], files);
      assert forall i :: 1 <= i < |needed| ==> needed[i] == needed[1..][i - 1];
      (if needed[0].1 in files then [] else [Missing(needed[0].0, needed[0].1)]) + rest
  }

  function Copies(remote: Option<string>, disk: string): seq<(string, string)> {
    if IsSet(remote) then [(remote.value, disk)] else []
  }

  /** The files on the host once a remote disk image was copied over;
      pretend mode copies nothing. */
  function FilesAfterCopy(host: Host, remote: Option<string>, disk: string, pretend: bool): set<string> {
    if IsSet(remote) && !pretend then host.files + {disk} else host.files
  }

  const SimulatorBinary := "models/Linux64_GCC-6.4/FVP_Base_RevC-Rainier"

  /** The part of `process` after the options are known: check the
      simulator directory and the needed files, copy a remote disk image,
      and run the model with the license server in its environment. */
  function Launch(fatals: seq<string>, license: string, firmware: string, simulator: string, remote: Option<string>,
                  sshPort: int, disk: string, host: Host, pretend: bool): (r: Outcome)
    ensures r.Exited? <==> (!pretend && (simulator !in host.dirs ||
      MissingFiles(NeededFiles(simulator, firmware, disk), FilesAfterCopy(host, remote, disk, pretend)) != []))
    ensures r.Finished? ==> (|r.fatals| >= |fatals| && r.fatals[..|fatals|] == fatals &&
      r.licenseFile == license && |r.command| == 34 && r.command[0] == PathJoin(simulator, SimulatorBinary))
  {
    if simulator !in host.dirs && !pretend then Exited(NoSimulator(simulator))
    else
      var missing := MissingFiles(NeededFiles(simulator, firmware, disk), FilesAfterCopy(host, remote, disk, pretend));
      if !pretend && missing != [] then Exited(missing[0])
      else
        var params := ModelParams(sshPort, PathJoin(firmware, "bl1.bin"), PathJoin(firmware, "fip.bin"), disk);
        var f := fatals + ((if simulator in host.dirs then [] else [NoSimulator(simulator)]) + missing);
        assert f[..|fatals|] == fatals;
        Finished(f, license, Copies(remote, disk),
                 FvpCommand(PathJoin(simulator, SimulatorBinary), PathJoin(simulator, PluginPath), params))
  }

  /** A run that goes ahead forwards the SSH port to guest port 22 through
      the host bridge and boots the given disk image. */
  lemma LaunchForwardsSsh(fatals: seq<string>, license: string, firmware: string, simulator: string,
                          remote: Option<string>, sshPort: int, disk: string, host: Host, pretend: bool)
    requires Launch(fatals, license, firmware, simulator, remote, sshPort, disk, host, pretend).Finished?
    ensures var c := Launch(fatals, license, firmware, simulator, remote, sshPort, disk, host, pretend).command;
      c[18] == "-C" && c[19] == "bp.hostbridge.userNetPorts=" + IntToString(sshPort) + "=22" &&
      c[32] == "-C" && c[33] == "bp.virtioblockdevice.image_path=" + disk
  {
    var params := ModelParams(sshPort, PathJoin(firmware, "bl1.bin"), PathJoin(firmware, "fip.bin"), disk);
    var c := Launch(fatals, license, firmware, simulator, remote, sshPort, disk, host, pretend).command;
    FlattenAt(params, 7);
    FlattenAt(params, 14);
    assert c[4..] == FlattenParams(params);
    assert c[18] == FlattenParams(params)[14];
    assert c[19] == FlattenParams(params)[15];
    assert c[32] == FlattenParams(params)[28];
    assert c[33] == FlattenParams(params)[29];
  }

  /** The fatal errors about unset options that pretend mode prints. */
  function EarlyFatals(licenseSet: bool, firmwareSet: bool): seq<string> {
    (if licenseSet then [] else [NoLicense]) + (if firmwareSet then [] else [NoFirmware])
  }

  class LaunchFVP {
    var licenseServer: Option<string>
    var firmwarePath: Option<string>
    const simulatorPath: string
    const remoteDiskImagePath: Option<string>
    const sshPort: int
    const diskImagePath: string

    constructor(licenseServer: Option<string>, firmwarePath: Option<string>, simulatorPath: string,
                remoteDiskImagePath: Option<string>, sshPort: int, diskImagePath: string)
      ensures this.licenseServer == licenseServer && this.firmwarePath == firmwarePath
      ensures this.simulatorPath == simulatorPath && this.remoteDiskImagePath == remoteDiskImagePath
      ensures this.sshPort == sshPort && this.diskImagePath == diskImagePath
    {
      this.licenseServer := licenseServer;
      this.firmwarePath := firmwarePath;
      this.simulatorPath := simulatorPath;
      this.remoteDiskImagePath := remoteDiskImagePath;
      this.sshPort := sshPort;
      this.diskImagePath := diskImagePath;
    }

    /** `process`: an unset license server or firmware path is fatal and is
        replaced by a placeholder for pretend mode; the rest is `Launch`. */
    method Process(host: Host, pretend: bool) returns (r: Outcome)
      modifies this`licenseServer, this`firmwarePath
      ensures licenseServer == if IsSet(old(licenseServer)) then old(licenseServer)
                               else Some("unknown.license.server")
      ensures !pretend && !IsSet(old(licenseServer)) ==> r == Exited(NoLicense) && firmwarePath == old(firmwarePath)
      ensures pretend || IsSet(old(licenseServer)) ==>
        firmwarePath == if IsSet(old(firmwarePath)) then old(firmwarePath) else Some("/unknown/firmware/path")
      ensures !pretend && IsSet(old(licenseServer)) && !IsSet(old(firmwarePath)) ==> r == Exited(NoFirmware)
      ensures pretend || (IsSet(old(licenseServer)) && IsSet(old(firmwarePath))) ==>
        r == Launch(EarlyFatals(IsSet(old(licenseServer)), IsSet(old(firmwarePath))), licenseServer.value, firmwarePath.value, simulatorPath, remoteDiskImagePath, sshPort,
                    diskImagePath, host, pretend)
    {
      var fatals := EarlyFatals(IsSet(licenseServer), IsSet(firmwarePath));
      if !IsSet(licenseServer) {
        licenseServer := Some("unknown.license.server");
        if !pretend {
          return Exited(NoLicense);
        }
      }
      if !IsSet(firmwarePath) {
        firmwarePath := Some("/unknown/firmware/path");
        if !pretend {
          return Exited(NoFirmware);
        }
      }
      r := Launch(fatals, licenseServer.value, firmwarePath.value, simulatorPath, remoteDiskImagePath, sshPort,
                  diskImagePath, host, pretend);
    }
  }
}
