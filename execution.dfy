/**
 * The pure parts of the execution wrapper and image finishing in
 * `builders/lando-v4.js`: the options record `run` hands to the engine,
 * `runHook`'s fixed form of it, `buildImage`'s command resolution and
 * start-script wrapper, and `addPackage`'s installer lookup and argument
 * normalisation.
 */
module Execution {
  import opened Base
  import opened ServiceData

  // ---------------------------------------------------------------------------
  // run / runHook
  // ---------------------------------------------------------------------------

  /** The second argument of `run`; an absent field takes its default. */
  datatype RunOverrides = RunOverrides(
    attach: Option<bool>,
    user: Option<string>,
    workingDir: Option<string>,
    entrypoint: Option<seq<string>>)

  const NoOverrides := RunOverrides(None, None, None, None)

  /** The `runOpts` record `run` passes to the engine. */
  datatype RunOpts = RunOpts(
    image: string,
    attach: bool,
    interactive: bool,
    user: string,
    workingDir: string,
    entrypoint: seq<string>,
    env: seq<string>,
    labels: map<string, string>,
    binds: seq<string>)

  /** What the service holds when `run` is called: its image, user, mount root and run-state. */
  datatype RunState = RunState(
    tag: string,
    interactive: bool,
    userName: string,
    appMount: string,
    environment: seq<string>,
    labels: map<string, string>,
    mounts: seq<string>)

  /** The `runOpts` of one `run` call. */
  function RunOptions(s: RunState, o: RunOverrides): RunOpts {
    RunOpts(
      s.tag,
      o.attach.GetOr(true),
      s.interactive,
      o.user.GetOr(s.userName),
      o.workingDir.GetOr(s.appMount),
      o.entrypoint.GetOr(["/bin/bash", "-c"]),
      s.environment,
      s.labels,
      s.mounts)
  }

  /** The command `runHook(hook)` runs: the hook runner with the hook's arguments. */
  function HookCommand(hook: seq<string>): seq<string> {
    ["/etc/lando/run-hooks.sh"] + hook
  }

  /** The options `runHook` passes on: attach and user (with their defaults) and the exec entrypoint. */
  function HookOverrides(attach: Option<bool>, user: Option<string>, userName: string): RunOverrides {
    RunOverrides(Some(attach.GetOr(true)), Some(user.GetOr(userName)), None, Some(["/etc/lando/exec.sh"]))
  }

  // ---------------------------------------------------------------------------
  // buildImage: command resolution
  // ---------------------------------------------------------------------------

  /** A container command: a string to be split into arguments, or an argument array. */
  datatype Command = CmdString(line: string) | CmdArray(argv: seq<string>)

  /** The parts of the built image's `info` that `buildImage` reads (`Config.Cmd`, `ContainerConfig.Cmd`). */
  datatype ImageInfo = ImageInfo(configCmd: Option<Command>, containerConfigCmd: Option<Command>)

  /** `command ?? info.Config.Cmd ?? info.ContainerConfig.Cmd`. */
  function ResolveCommand(command: Option<Command>, info: ImageInfo): Option<Command> {
    if command.Some? then command
    else if info.configCmd.Some? then info.configCmd
    else info.containerConfigCmd
  }

  /** The argument vector of a command, a string being split by `parseArgv`. */
  function Argv(c: Command, parseArgv: string -> seq<string>): seq<string> {
    match c
    case CmdString(line) => parseArgv(line)
    case CmdArray(argv) => argv
  }

  function NoCommandError(id: string): Failure {
    Failure(id + " has no command set!", None)
  }

  /** The service command `buildImage` sets: the start script followed by the resolved command. */
  function StartCommand(id: string, command: Option<Command>, info: ImageInfo,
                        parseArgv: string -> seq<string>): (r: Result<seq<string>>)
    ensures r.Err? <==> command.None? && info.configCmd.None? && info.containerConfigCmd.None?
    ensures r.Err? ==> r.error == NoCommandError(id)
    ensures r.Ok? ==> |r.value| >= 1 && r.value[0] == "/etc/lando/start.sh"
  {
    match ResolveCommand(command, info)
    case None => Err(NoCommandError(id))
    case Some(c) => Ok(["/etc/lando/start.sh"] + Argv(c, parseArgv))
  }

  /**
   * The configured command wins over the image's `Config.Cmd`, which wins over
   * `ContainerConfig.Cmd`; the test is for null/undefined only, so an empty
   * string or an empty array is still a command.
   */
  lemma CommandPrecedence(id: string, command: Option<Command>, info: ImageInfo, parseArgv: string -> seq<string>)
    ensures command.Some? ==>
      StartCommand(id, command, info, parseArgv) == Ok(["/etc/lando/start.sh"] + Argv(command.value, parseArgv))
    ensures command.None? && info.configCmd.Some? ==>
      StartCommand(id, command, info, parseArgv) == Ok(["/etc/lando/start.sh"] + Argv(info.configCmd.value, parseArgv))
    ensures command.None? && info.configCmd.None? && info.containerConfigCmd.Some? ==>
      StartCommand(id, command, info, parseArgv) == Ok(["/etc/lando/start.sh"] + Argv(info.containerConfigCmd.value, parseArgv))
    ensures StartCommand(id, Some(CmdArray([])), info, parseArgv) == Ok(["/etc/lando/start.sh"])
    ensures StartCommand(id, Some(CmdString("")), info, parseArgv) == Ok(["/etc/lando/start.sh"] + parseArgv(""))
  {
    assert ["/etc/lando/start.sh"] + Argv(CmdArray([]), parseArgv) == ["/etc/lando/start.sh"];
  }

  // ---------------------------------------------------------------------------
  // addPackage
  // ---------------------------------------------------------------------------

  /**
   * What a package id is registered to: an installer function, known by the
   * name of its module, or some value that is not a function.
   */
  datatype Installer = InstallerFn(name: string) | NotAFunction

  /** The installers every service starts with, one per package module. */
  function DefaultInstallers(): map<string, Installer> {
    map["certs" := InstallerFn("certs"), "git" := InstallerFn("git"),
        "proxy" := InstallerFn("proxy"), "security" := InstallerFn("security"),
        "sudo" := InstallerFn("sudo"), "user" := InstallerFn("user"),
        "ssh-agent" := InstallerFn("ssh-agent")]
  }

  /**
   * What one installer call does with the service it is handed: it passes
   * `data` to the service's `addLandoServiceData`, then throws `outcome` if
   * that is a failure.
   */
  datatype InstallerRun = InstallerRun(data: LandoData, outcome: Option<Failure>)

  /** How an installer call ends: `addLandoServiceData`'s label error, else the installer's own outcome. */
  function RunOutcome(run: InstallerRun): (r: Option<Failure>)
    ensures run.data.labels.LabelList? ==> r == Some(LabelArrayError(run.data.labels.items))
    ensures !run.data.labels.LabelList? ==> r == run.outcome
  {
    match AddedLabels(map[], run.data.labels)
    case Err(e) => Some(e)
    case Ok(_) => run.outcome
  }

  function MissingInstallerError(id: string): Failure {
    Failure("Could not find a package installer function for " + id + "!", None)
  }

  /**
   * A package's data: a configured value, or one of the records the constructor
   * puts in place of `certs`, `security`, `user` and `proxy`.
   */
  datatype PackageData =
    | Given(v: Value)
    | SecurityData(cas: seq<string>, rest: map<string, Value>)
    | UserData(gid: string, uid: string, name: string)
    | ProxyData(volume: string, domains: Value)

  /** `addPackage`'s argument normalisation: undefined becomes `[]`, a non-array `[data]`. */
  function InstallerArgs(data: Option<PackageData>): (r: seq<PackageData>)
    ensures data.None? ==> r == []
    ensures data.Some? && data.value.Given? && data.value.v.Arr? ==>
      |r| == |data.value.v.items| && forall i :: 0 <= i < |r| ==> r[i] == Given(data.value.v.items[i])
    ensures data.Some? && !(data.value.Given? && data.value.v.Arr?) ==> r == [data.value]
  {
    match data
    case None => []
    case Some(Given(Arr(items))) => seq(|items|, i requires 0 <= i < |items| => Given(items[i]))
    case Some(d) => [d]
  }

  /** One installer invocation: the installer, called with the service and these arguments. */
  datatype InstallCall = InstallCall(id: string, installer: string, args: seq<PackageData>)

  /** The installer call `addPackage(id, data)` makes, or the error it throws. */
  function PackageCall(installers: map<string, Installer>, id: string, data: Option<PackageData>): (r: Result<InstallCall>)
    ensures r.Err? <==> id !in installers || installers[id].NotAFunction?
    ensures r.Err? ==> r.error == MissingInstallerError(id)
    ensures r.Ok? ==> r.value.id == id && r.value.installer == installers[id].name
    ensures r.Ok? ==> r.value.args == InstallerArgs(data)
  {
    if id !in installers || installers[id].NotAFunction? then Err(MissingInstallerError(id))
    else Ok(InstallCall(id, installers[id].name, InstallerArgs(data)))
  }

  /**
   * How `addPackage(id, data)` ends, when `install` says what each installer
   * call does: the lookup error, or how the installer call ends.
   */
  function PackageError(installers: map<string, Installer>, install: InstallCall -> InstallerRun,
                        id: string, data: Option<PackageData>): Option<Failure> {
    match PackageCall(installers, id, data)
    case Err(e) => Some(e)
    case Ok(call) => RunOutcome(install(call))
  }

  // ---------------------------------------------------------------------------
  // The package table and installPackages
  // ---------------------------------------------------------------------------

  /** `this.packages` in key order. */
  type Packages = seq<(string, Option<PackageData>)>

  /** `packages[key] = data`: an existing key keeps its place, a new one goes last. */
  function SetPackage(pkgs: Packages, key: string, data: PackageData): (r: Packages)
    decreases |pkgs|
  {
    if pkgs == [] then [(key, Some(data))]
    else if pkgs[0].0 == key then [(key, Some(data))] + pkgs[1..]
    else [pkgs[0]] + SetPackage(pkgs[1..], key, data)
  }

  /**
   * After `packages[key] = data` the key is present with that data and every
   * other entry is where it was; a new key is appended at the end.
   */
  lemma {:induction false} SetPackageSpec(pkgs: Packages, key: string, data: PackageData)
    ensures (key, Some(data)) in SetPackage(pkgs, key, data)
    ensures forall e :: e in pkgs && e.0 != key ==> e in SetPackage(pkgs, key, data)
    ensures forall e :: e in SetPackage(pkgs, key, data) && e.0 != key ==> e in pkgs
    ensures (forall i :: 0 <= i < |pkgs| ==> pkgs[i].0 != key) ==> SetPackage(pkgs, key, data) == pkgs + [(key, Some(data))]
    ensures (exists i :: 0 <= i < |pkgs| && pkgs[i].0 == key) ==> |SetPackage(pkgs, key, data)| == |pkgs|
    decreases |pkgs|
  {
    if pkgs != [] && pkgs[0].0 != key {
      SetPackageSpec(pkgs[1..], key, data);
      if exists i :: 0 <= i < |pkgs| && pkgs[i].0 == key {
        var i :| 0 <= i < |pkgs| && pkgs[i].0 == key;
        assert pkgs[1..][i - 1].0 == key;
      }
      forall e | e in pkgs && e.0 != key ensures e in SetPackage(pkgs, key, data) {
        if e != pkgs[0] {
          assert e in pkgs[1..];
        }
      }
    }
  }

  /** The installer calls `installPackages` makes for the enabled packages, in package order. */
  function InstallCalls(installers: map<string, Installer>, pkgs: Packages,
                        isDisabled: Option<PackageData> -> bool): seq<InstallCall>
    decreases |pkgs|
  {
    if pkgs == [] then []
    else
      var (id, data) := pkgs[|pkgs| - 1];
      var before := InstallCalls(installers, pkgs[..|pkgs| - 1], isDisabled);
      if isDisabled(data) then before
      else match PackageCall(installers, id, data)
        case Err(_) => before
        case Ok(call) => before + [call]
  }

  /** Whether some enabled package fails, either for lack of an installer or in its installer. */
  predicate InstallFails(installers: map<string, Installer>, install: InstallCall -> InstallerRun, pkgs: Packages,
                         isDisabled: Option<PackageData> -> bool) {
    exists i :: 0 <= i < |pkgs| && !isDisabled(pkgs[i].1) && PackageError(installers, install, pkgs[i].0, pkgs[i].1).Some?
  }

  /**
   * `installPackages` calls the installer of every enabled package that has one,
   * and never one for a disabled package or an unknown id.
   */
  lemma {:induction false} InstallCallsSpec(installers: map<string, Installer>, pkgs: Packages,
                                            isDisabled: Option<PackageData> -> bool, call: InstallCall)
    ensures call in InstallCalls(installers, pkgs, isDisabled) <==>
      exists i :: 0 <= i < |pkgs| && !isDisabled(pkgs[i].1) && PackageCall(installers, pkgs[i].0, pkgs[i].1) == Ok(call)
    decreases |pkgs|
  {
    if pkgs != [] {
      var n := |pkgs| - 1;
      InstallCallsSpec(installers, pkgs[..n], isDisabled, call);
      if exists i :: 0 <= i < |pkgs| && !isDisabled(pkgs[i].1) && PackageCall(installers, pkgs[i].0, pkgs[i].1) == Ok(call) {
        var i :| 0 <= i < |pkgs| && !isDisabled(pkgs[i].1) && PackageCall(installers, pkgs[i].0, pkgs[i].1) == Ok(call);
        if i < n {
          assert pkgs[..n][i] == pkgs[i];
        }
      }
      if call in InstallCalls(installers, pkgs[..n], isDisabled) {
        var i :| 0 <= i < n && !isDisabled(pkgs[..n][i].1) && PackageCall(installers, pkgs[..n][i].0, pkgs[..n][i].1) == Ok(call);
        assert pkgs[..n][i] == pkgs[i];
      }
    }
  }
}
