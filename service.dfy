/**
 * `LandoServiceV4` of `builders/lando-v4.js`: one service instance, its
 * private run-state and app-mount records, its installer table, and the
 * calls it makes to its parent class (`addContext`, `addSteps`,
 * `addServiceData`, `addComposeData`, the `info` setter), which are kept
 * here as append-only logs because the parent's code is not part of this
 * model. Files the service writes are logged the same way.
 */
module ServiceV4 {
  import opened Base
  import opened BuildGroups
  import opened Hooks
  import opened Storage
  import opened Execution
  import opened ServiceData
  import opened ContainerEngine

  /**
   * The collaborators the service calls but whose code is not part of this
   * model: the path check of `addHookFile`, the parent's volume normaliser
   * (one volume at a time), the argument splitter for string commands, and
   * the test for a disabled package, and what each installer call does with
   * the service (the package modules are not part of this model).
   */
  datatype Helpers = Helpers(
    validPath: string -> bool,
    normalizeVolume: RawVolume -> (string, string),
    parseArgv: string -> seq<string>,
    isDisabled: Option<PackageData> -> bool,
    install: InstallCall -> InstallerRun)

  /** The part of the service `addLandoServiceData` changes: the run-state and the parent's service data. */
  datatype DataState = DataState(environment: seq<string>, labels: map<string, string>, mounts: seq<string>,
                                 serviceData: seq<ServiceDataEntry>)

  /** Whether `addLandoServiceData(d)` would bind `x`: `d` has no label array and its volumes include `x`. */
  predicate RunsMount(d: LandoData, normalize: RawVolume -> (string, string), x: string) {
    !d.labels.LabelList? && d.volumes.VolumeList? && x in MountStrings(d.volumes.items, normalize)
  }

  /**
   * `addLandoServiceData(d)` on that part: the environment is merged; then a
   * label array stops it, otherwise the labels and volumes are merged and `d`
   * goes to the service data.
   */
  function WithLandoData(st: DataState, d: LandoData, normalize: RawVolume -> (string, string)): DataState {
    var env := AddedEnvironment(st.environment, d.environment);
    match AddedLabels(st.labels, d.labels)
    case Err(_) => st.(environment := env)
    case Ok(labels) => DataState(env, labels, AddedMounts(st.mounts, d.volumes, normalize), st.serviceData + [LandoEntry(d)])
  }

  /** The same part after the installer calls `calls`, one `addLandoServiceData` each, in order. */
  function WithInstallRuns(st: DataState, calls: seq<InstallCall>, install: InstallCall -> InstallerRun,
                           normalize: RawVolume -> (string, string)): DataState
    decreases |calls|
  {
    if calls == [] then st
    else WithLandoData(WithInstallRuns(st, calls[..|calls| - 1], install, normalize),
                       install(calls[|calls| - 1]).data, normalize)
  }

  /** One `addServiceData` call: data that went through the run-state, or the raw overrides. */
  datatype ServiceDataEntry = LandoEntry(data: LandoData) | RawEntry(overrides: Value)

  /** One `addComposeData` call: top-level networks and volumes. */
  datatype ComposeData = ComposeData(networks: map<string, VolumeDecl>, volumes: map<string, VolumeDecl>)

  /** One assignment to `this.info`. */
  datatype InfoUpdate =
    | HostnamesInfo(hostnames: seq<string>)
    | StateInfo(app: string)
    | AppMountInfo(appMount: string)

  /** A file the service writes, and whether it is made executable. */
  datatype WrittenFile = WrittenFile(path: string, contents: string, executable: bool)

  /** `config['app-mount']`: where the app is mounted and which top-level paths to keep out. */
  datatype AppMountConfig = AppMountConfig(destination: string, exclude: seq<string>)

  /** The options of `addHookFile`; an absent one takes its default. */
  datatype HookOptions = HookOptions(id: Option<string>, hook: Option<string>, stage: Option<string>,
                                     priority: Option<string>)

  /** `config.security` with its certificate-authority list. */
  datatype SecurityConfig = SecurityConfig(cas: seq<string>, rest: map<string, Value>)

  /** The service configuration after the defaults are merged in. */
  datatype ServiceConfig = ServiceConfig(
    appMount: Option<AppMountConfig>,
    buildApp: Option<string>,          // `config.build.app` when it is a string
    certs: Value,
    command: Option<Command>,
    environment: Entries,
    hostnames: seq<string>,
    labels: map<string, string>,
    overrides: Value,
    packages: Packages,
    persistentStorage: seq<StorageSpec>,   // already normalised
    security: SecurityConfig,
    storage: seq<StorageSpec>,             // already normalised
    volumes: seq<RawVolume>)

  /** What the constructor reads from Lando, the app and the host. */
  datatype LandoContext = LandoContext(
    host: HostInfo,
    caCert: string,
    caDomain: string,
    isInteractive: bool,
    networkBridge: string,
    proxy: Option<(string, Value)>,    // proxy name and hostnames when the proxy is ON
    pluginConfig: NpmrcSource,
    appLabels: map<string, string>,
    appRootListing: seq<string>)

  /** What the parent constructor sets up: identity, directories and the image tag. */
  datatype Upstream = Upstream(
    id: string,
    project: string,
    serviceType: string,
    context: string,
    appRoot: string,
    appMount: string,
    tag: string,
    scriptsDir: string,
    groupNames: seq<string>)

  /** The certificate authorities after the constructor adds the Lando CA and its `.pem` sibling. */
  function SecurityWithCa(security: SecurityConfig, caCert: string, caDomain: string): SecurityConfig {
    security.(cas := security.cas + [caCert, PathJoin(Dirname(caCert), caDomain + ".pem")])
  }

  /** The package table after the constructor sets `certs`, `security`, `user` and, with the proxy on, `proxy`. */
  function PackagesFor(config: ServiceConfig, lando: LandoContext, user: PackageData): Packages {
    var security := SecurityWithCa(config.security, lando.caCert, lando.caDomain);
    var p := SetPackage(config.packages, "certs", Given(config.certs));
    var p := SetPackage(p, "security", SecurityData(security.cas, security.rest));
    var p := SetPackage(p, "user", user);
    if lando.proxy.Some? then SetPackage(p, "proxy", ProxyData(lando.proxy.value.0 + "_proxy_config", lando.proxy.value.1))
    else p
  }

  /**
   * The user, security and proxy packages are always configured by the constructor,
   * and every configured package with another id keeps its data.
   */
  lemma PackagesForSpec(config: ServiceConfig, lando: LandoContext, user: PackageData, e: (string, Option<PackageData>))
    ensures ("user", Some(user)) in PackagesFor(config, lando, user)
    ensures lando.proxy.Some? ==>
      ("proxy", Some(ProxyData(lando.proxy.value.0 + "_proxy_config", lando.proxy.value.1))) in PackagesFor(config, lando, user)
    ensures e in config.packages && e.0 !in {"certs", "security", "user", "proxy"} ==> e in PackagesFor(config, lando, user)
  {
    var security := SecurityWithCa(config.security, lando.caCert, lando.caDomain);
    var p1 := SetPackage(config.packages, "certs", Given(config.certs));
    var p2 := SetPackage(p1, "security", SecurityData(security.cas, security.rest));
    var p3 := SetPackage(p2, "user", user);
    SetPackageSpec(config.packages, "certs", Given(config.certs));
    SetPackageSpec(p1, "security", SecurityData(security.cas, security.rest));
    SetPackageSpec(p2, "user", user);
    if lando.proxy.Some? {
      SetPackageSpec(p3, "proxy", ProxyData(lando.proxy.value.0 + "_proxy_config", lando.proxy.value.1));
    }
  }

  /** Where the Lando CA's `.pem` sibling goes: next to the CA certificate. */
  lemma SecurityWithCaSpec(security: SecurityConfig, caDir: string, caFile: string, caDomain: string)
    requires caDir != "" && caDir != "/" && '/' !in caFile
    ensures SecurityWithCa(security, PathJoin(caDir, caFile), caDomain).cas ==
      security.cas + [PathJoin(caDir, caFile), PathJoin(caDir, caDomain + ".pem")]
  {
    DirnameOfJoin(caDir, caFile);
  }

  /** The `addHookFile` options of the user's build script in `buildApp`: an `app` hook of group `user`. */
  const UserBuildHook := HookOptions(None, Some("user"), Some("app"), None)

  /** The pieces `addHookFile` acts on: the file it writes, if any, and where the hook goes. */
  datatype HookFilePlan = HookFilePlan(written: Option<WrittenFile>, placement: Placement)

  /** The extra-data of the constructor's `addLandoServiceData` call. */
  function ServiceExtras(network: string, hostnames: seq<string>, userName: string): map<string, Value> {
    var aliases := seq(|hostnames|, i requires 0 <= i < |hostnames| => Str(hostnames[i]));
    map[
      "extra_hosts" := Arr([Str("host.lando.internal:host-gateway")]),
      "logging" := Obj(map["driver" := Str("json-file"),
                           "options" := Obj(map["max-file" := Str("3"), "max-size" := Str("10m")])]),
      "networks" := Obj(map[network := Obj(map["aliases" := Arr(aliases)])]),
      "user" := Str(userName)
    ]
  }

  /** The data of the constructor's `addLandoServiceData` call, for the given hostnames, user, mount root and volumes. */
  function ConstructorData(up: Upstream, config: ServiceConfig, lando: LandoContext, hostnames: seq<string>,
                           userName: string, mount: string, vols: seq<RawVolume>): LandoData {
    LandoData(
      EnvObject(ServiceEnvironment(lando.host, up.project, mount, up.id, up.serviceType, config.environment)),
      LabelObject(ServiceLabels(lando.appLabels, lando.host.landoId, up.appRoot, config.labels)),
      VolumeList(vols), None, ServiceExtras(lando.networkBridge, hostnames, userName))
  }

  /** The fields of a service that its methods change, as one value. */
  datatype ServiceState = ServiceState(
    environment: seq<string>, labels: map<string, string>, mounts: seq<string>,
    amDestination: string, amVolumes: seq<string>, amBinds: seq<string>, appMount: string,
    installers: map<string, Installer>, volumes: seq<RawVolume>, tlvolumes: map<string, VolumeDecl>,
    npmrc: string, npmrcFile: string, contexts: seq<ContextEntry>, steps: seq<Step>,
    serviceData: seq<ServiceDataEntry>, composeData: seq<ComposeData>, infoLog: seq<InfoUpdate>,
    files: seq<WrittenFile>, installCalls: seq<InstallCall>)

  /**
   * The state the constructor leaves. It starts with the default installers and
   * empty logs, then follows the constructor's calls in order, each through the
   * function the method of the same name in `Service` is proved against:
   * `#setupBoot`, `#setupHooks` (which adds nothing), `#setupStorage`,
   * `setAppMount` when an app mount is configured, the `info` setter with the
   * hostnames, `setNPMRC`, `addComposeData` with the bridge network and the
   * storage volumes, `addLandoServiceData` with the service's own data, and last
   * `addServiceData` with the raw overrides.
   */
  function Constructed(up: Upstream, config: ServiceConfig, lando: LandoContext, userName: string,
                       helpers: Helpers): ServiceState
  {
    var hosts := Hostnames(config.hostnames, up.id, up.project);
    var store := config.storage + config.persistentStorage;
    var vols := config.volumes + ServiceVolumes(store);
    // setAppMount
    var am := config.appMount;
    var mount := if am.Some? then am.value.destination else up.appMount;
    var dest := if am.Some? then am.value.destination else "/app";
    var amVols := if am.Some? then ExcludeVolumes(am.value.exclude) else [];
    var binds := if am.Some? then AppMountBinds(up.appRoot, dest, am.value.exclude, lando.appRootListing) else [];
    var m1 := if am.Some? then AddedMounts([], VolumeList(ShortVolumes(binds)), helpers.normalizeVolume) else [];
    // setNPMRC
    var file := PathJoin(up.context, "npmrc");
    var m2 := AddedMounts(m1, VolumeList(ShortVolumes(NpmrcMounts(file, userName))), helpers.normalizeVolume);
    // addLandoServiceData
    var data := ConstructorData(up, config, lando, hosts, userName, mount, vols);
    ServiceState(
      AddedEnvironment([], data.environment),
      ServiceLabels(lando.appLabels, lando.host.landoId, up.appRoot, config.labels),
      AddedMounts(m2, VolumeList(vols), helpers.normalizeVolume),
      dest, amVols, binds, mount, DefaultInstallers(), vols, TopLevelVolumes(store),
      NpmrcContents(lando.pluginConfig), file,
      BootContexts(up.scriptsDir), [BootStep()] + StorageSteps(store, userName),
      (if am.Some? then [LandoEntry(VolumesData(ShortVolumes(binds)))] else [])
        + [LandoEntry(VolumesData(ShortVolumes(NpmrcMounts(file, userName)))), LandoEntry(data), RawEntry(config.overrides)],
      (if |amVols| > 0 then [ComposeData(map[], map v | v in amVols :: Plain)] else [])
        + [ComposeData(map[lando.networkBridge := External], TopLevelVolumes(store))],
      (if am.Some? then [AppMountInfo(mount)] else []) + [HostnamesInfo(hosts)],
      [WrittenFile(file, NpmrcContents(lando.pluginConfig), false)], [])
  }

  /**
   * The run-state the constructor leaves: the service's environment strings
   * and nothing else, the app-mount binds, the npmrc mounts and the service
   * volumes and nothing else, and no repetition in either.
   */
  lemma ConstructedRunState(up: Upstream, config: ServiceConfig, lando: LandoContext, userName: string,
                            helpers: Helpers, x: string)
    ensures var st := Constructed(up, config, lando, userName, helpers);
      && NoDup(st.environment) && NoDup(st.mounts)
      && (x in st.environment <==>
            x in KeyValueStrings(ServiceEnvironment(lando.host, up.project, st.appMount, up.id, up.serviceType,
                                                    config.environment)))
      && (x in st.mounts <==>
            || x in MountStrings(ShortVolumes(st.amBinds), helpers.normalizeVolume)
            || x in MountStrings(ShortVolumes(NpmrcMounts(st.npmrcFile, userName)), helpers.normalizeVolume)
            || x in MountStrings(st.volumes, helpers.normalizeVolume))
  {
    var st := Constructed(up, config, lando, userName, helpers);
    var n := helpers.normalizeVolume;
    var m1 := if config.appMount.Some? then AddedMounts([], VolumeList(ShortVolumes(st.amBinds)), n) else [];
    AddedMountsSpec([], VolumeList(ShortVolumes(st.amBinds)), n, x);
    var m2 := AddedMounts(m1, VolumeList(ShortVolumes(NpmrcMounts(st.npmrcFile, userName))), n);
    AddedMountsSpec(m1, VolumeList(ShortVolumes(NpmrcMounts(st.npmrcFile, userName))), n, x);
    AddedMountsSpec(m2, VolumeList(st.volumes), n, x);
    var env := ServiceEnvironment(lando.host, up.project, st.appMount, up.id, up.serviceType, config.environment);
    AddedEnvironmentSpec([], EnvObject(env), x);
  }

  /**
   * The environment the constructor leaves reports the mount `setAppMount`
   * chose, unless the configuration sets `LANDO_PROJECT_MOUNT` itself, and
   * carries every configured variable with its configured value.
   */
  lemma ConstructedProjectMount(up: Upstream, config: ServiceConfig, lando: LandoContext, userName: string,
                                helpers: Helpers, key: string)
    ensures var st := Constructed(up, config, lando, userName, helpers);
      && (config.appMount.Some? ==> st.appMount == config.appMount.value.destination)
      && (config.appMount.None? ==> st.appMount == up.appMount)
      && (Lookup(config.environment, "LANDO_PROJECT_MOUNT").None? ==>
            "LANDO_PROJECT_MOUNT" + "=" + st.appMount in st.environment)
      && (Lookup(config.environment, key).Some? ==>
            key + "=" + Lookup(config.environment, key).value in st.environment)
  {
    var st := Constructed(up, config, lando, userName, helpers);
    var env := ServiceEnvironment(lando.host, up.project, st.appMount, up.id, up.serviceType, config.environment);
    assert st.environment == AddedEnvironment([], EnvObject(env));
    ServiceEnvironmentSpec(lando.host, up.project, st.appMount, up.id, up.serviceType, config.environment, key);
    EnvironmentCarries(env, key);
    EnvironmentCarries(env, "LANDO_PROJECT_MOUNT");
  }

  /** Every variable of an environment object reaches the run-state as `key=value`. */
  lemma EnvironmentCarries(env: Entries, key: string)
    ensures Lookup(env, key).Some? ==> key + "=" + Lookup(env, key).value in AddedEnvironment([], EnvObject(env))
  {
    LookupKeyValue(env, key);
    AddedEnvironmentSpec([], EnvObject(env), key + "=" + Lookup(env, key).GetOr(""));
  }

  /**
   * What `addLandoRunData` adds reaches every later `run`: once the data has
   * gone through without the label error, the run's `Env` holds exactly the
   * earlier strings and the data's `KEY=VALUE` strings, its `Binds` exactly the
   * earlier mounts and the data's normalised volumes, and its `Labels` every
   * label of the data with its new value.
   */
  lemma RunSeesRunData(s: RunState, data: LandoData, normalize: RawVolume -> (string, string), o: RunOverrides,
                       x: string, key: string)
    requires !data.labels.LabelList?
    ensures var after := s.(environment := AddedEnvironment(s.environment, data.environment),
                            labels := AddedLabels(s.labels, data.labels).value,
                            mounts := AddedMounts(s.mounts, data.volumes, normalize));
      var r := RunOptions(after, o);
      && (x in r.env <==> x in s.environment || x in EnvStrings(data.environment))
      && (x in r.binds <==> x in s.mounts || (data.volumes.VolumeList? && x in MountStrings(data.volumes.items, normalize)))
      && (data.labels.LabelObject? && key in data.labels.labels ==> key in r.labels && r.labels[key] == data.labels.labels[key])
      && (key in s.labels ==> key in r.labels)
  {
    if !data.environment.EnvOther? {
      UniqSpec(s.environment + EnvStrings(data.environment), x);
    }
    if data.volumes.VolumeList? {
      UniqSpec(s.mounts + MountStrings(data.volumes.items, normalize), x);
    }
  }

  /**
   * The order of the constructor's calls to the parent: the boot step before
   * the storage steps, the lash shell first in the build context, the
   * hostnames as the last `info`, and the raw overrides as the last service
   * data, after the data that carries the service's own environment.
   */
  lemma ConstructedOrder(up: Upstream, config: ServiceConfig, lando: LandoContext, userName: string, helpers: Helpers)
    ensures var st := Constructed(up, config, lando, userName, helpers);
      && st.steps[0] == BootStep() && st.steps[1..] == StorageSteps(config.storage + config.persistentStorage, userName)
      && st.contexts[0] == ContextEntry(PathJoin(up.scriptsDir, "lash.sh") + ":/bin/lash", None)
      && st.infoLog[|st.infoLog| - 1] == HostnamesInfo(Hostnames(config.hostnames, up.id, up.project))
      && |st.serviceData| >= 3
      && st.serviceData[|st.serviceData| - 1] == RawEntry(config.overrides)
      && st.serviceData[|st.serviceData| - 2].LandoEntry?
      && st.serviceData[|st.serviceData| - 2].data.environment ==
           EnvObject(ServiceEnvironment(lando.host, up.project, st.appMount, up.id, up.serviceType, config.environment))
      && st.installCalls == [] && st.installers == DefaultInstallers()
  {
  }

  class Service {
    const id: string
    const project: string
    const serviceType: string
    const userName: string
    const context: string
    const appRoot: string
    const tag: string
    const scriptsDir: string
    const isInteractive: bool
    const network: string
    const helpers: Helpers
    const hostnames: seq<string>
    const storage: seq<StorageSpec>
    const buildScript: Option<string>
    const command: Option<Command>
    const packages: Packages
    /** `Object.keys(this._data.groups)`: the parent's group table, which includes this builder's groups. */
    const groupNames: seq<string>

    /** `#run`: what every `run` call passes to the engine. */
    var environment: seq<string>
    var labels: map<string, string>
    var mounts: seq<string>

    /** `#appMount` and the public `appMount`. */
    var amDestination: string
    var amVolumes: seq<string>
    var amBinds: seq<string>
    var appMount: string

    /** `#installers`. */
    var installers: map<string, Installer>

    /** `volumes` (the compose service volumes) and `tlvolumes` (top-level volumes). */
    var volumes: seq<RawVolume>
    var tlvolumes: map<string, VolumeDecl>

    /** `npmrc` and `npmrcFile`. */
    var npmrc: string
    var npmrcFile: string

    /** Calls to the parent class, in order. */
    var contexts: seq<ContextEntry>
    var steps: seq<Step>
    var serviceData: seq<ServiceDataEntry>
    var composeData: seq<ComposeData>
    var infoLog: seq<InfoUpdate>

    /** Files written, and installer calls made, in order. */
    var files: seq<WrittenFile>
    var installCalls: seq<InstallCall>

    /** The run-state never holds the same environment string or bind twice. */
    predicate Valid()
      reads this
    {
      NoDup(environment) && NoDup(mounts)
    }

    /** The run-state and the service data, as one value. */
    function DataNow(): DataState
      reads this
    {
      DataState(environment, labels, mounts, serviceData)
    }

    /** What `run` reads from the service. */
    function CurrentRunState(): RunState
      reads this
    {
      RunState(tag, isInteractive, userName, appMount, environment, labels, mounts)
    }

    /** The state the methods below change, as one value. */
    function State(): ServiceState
      reads this
    {
      ServiceState(environment, labels, mounts, amDestination, amVolumes, amBinds, appMount, installers,
        volumes, tlvolumes, npmrc, npmrcFile, contexts, steps, serviceData, composeData, infoLog, files, installCalls)
    }

    // -------------------------------------------------------------------------
    // Construction
    // -------------------------------------------------------------------------

    /**
     * The constructor: the properties it fixes, then the state that
     * `Constructed` describes (see there, and the lemmas after it).
     */
    constructor (up: Upstream, config: ServiceConfig, lando: LandoContext, user: PackageData, helpers: Helpers)
      requires user.UserData?
      ensures id == up.id && project == up.project && serviceType == up.serviceType && userName == user.name
      ensures context == up.context && appRoot == up.appRoot && tag == up.tag && scriptsDir == up.scriptsDir
      ensures isInteractive == lando.isInteractive && network == lando.networkBridge && this.helpers == helpers
      ensures groupNames == up.groupNames && buildScript == config.buildApp && command == config.command
      ensures hostnames == Hostnames(config.hostnames, up.id, up.project)
      ensures storage == config.storage + config.persistentStorage
      ensures packages == PackagesFor(config, lando, user)
      ensures State() == Constructed(up, config, lando, user.name, helpers)
      ensures Valid()
    {
      id := up.id;
      project := up.project;
      serviceType := up.serviceType;
      userName := user.name;
      context := up.context;
      appRoot := up.appRoot;
      tag := up.tag;
      scriptsDir := up.scriptsDir;
      isInteractive := lando.isInteractive;
      network := lando.networkBridge;
      this.helpers := helpers;
      hostnames := Hostnames(config.hostnames, up.id, up.project);
      storage := config.storage + config.persistentStorage;
      buildScript := config.buildApp;
      command := config.command;
      packages := PackagesFor(config, lando, user);
      groupNames := up.groupNames;
      var st := Constructed(up, config, lando, user.name, helpers);
      environment := st.environment;
      labels := st.labels;
      mounts := st.mounts;
      amDestination := st.amDestination;
      amVolumes := st.amVolumes;
      amBinds := st.amBinds;
      appMount := st.appMount;
      installers := st.installers;
      volumes := st.volumes;
      tlvolumes := st.tlvolumes;
      npmrc := st.npmrc;
      npmrcFile := st.npmrcFile;
      contexts := st.contexts;
      steps := st.steps;
      serviceData := st.serviceData;
      composeData := st.composeData;
      infoLog := st.infoLog;
      files := st.files;
      installCalls := st.installCalls;
      ConstructedRunState(up, config, lando, user.name, helpers, "");
    }

    /**
     * `#setupBoot`: the lash shell and the boot scripts into the build context,
     * then the boot step. The constructor's state, `Constructed`, is built from
     * the same `BootContexts` and `BootStep`.
     */
    method SetupBoot()
      modifies this`contexts, this`steps
      ensures contexts == old(contexts) + BootContexts(scriptsDir)
      ensures steps == old(steps) + [BootStep()]
    {
      contexts := contexts + [ContextEntry(PathJoin(scriptsDir, "lash.sh") + ":/bin/lash", None)];
      var i := 0;
      while i < |BootScripts()|
        invariant 0 <= i <= |BootScripts()|
        invariant contexts == old(contexts) + BootContexts(scriptsDir)[..i + 1]
        invariant steps == old(steps)
      {
        AddLSF(PathJoin(scriptsDir, BootScripts()[i].0), BootScripts()[i].1, None);
        BootContextsStep(scriptsDir, i);
        i := i + 1;
      }
      assert BootContexts(scriptsDir)[..i + 1] == BootContexts(scriptsDir);
      steps := steps + [BootStep()];
    }

    /**
     * `#setupHooks`: a step per group of the parent's group table that passes the
     * weight test; as written, none does, which is why `Constructed` adds
     * no hook step (`HookGroupsSelectNothing`).
     */
    method SetupHooks()
      modifies this`steps
      ensures steps == old(steps) + HookSteps(HookGroups(groupNames))
      ensures steps == old(steps)
    {
      var hooks := HookGroups(groupNames);
      var i := 0;
      while i < |hooks|
        invariant 0 <= i <= |hooks|
        invariant steps == old(steps) + HookSteps(hooks[..i])
      {
        steps := steps + [HookStep(hooks[i])];
        assert HookSteps(hooks[..i + 1]) == HookSteps(hooks[..i]) + [HookStep(hooks[i])];
        i := i + 1;
      }
      assert hooks[..i] == hooks;
      HookGroupsSelectNothing(groupNames);
    }

    /**
     * `#setupStorage`: top-level volumes, service volumes, and the ownership
     * steps entry by entry. `Constructed` is built from the same
     * `TopLevelVolumes`, `ServiceVolumes` and `StorageSteps`.
     */
    method SetupStorage()
      modifies this`tlvolumes, this`volumes, this`steps
      ensures tlvolumes == TopLevelVolumes(storage)
      ensures volumes == old(volumes) + ServiceVolumes(storage)
      ensures steps == old(steps) + StorageSteps(storage, userName)
    {
      tlvolumes := TopLevelVolumes(storage);
      volumes := volumes + ServiceVolumes(storage);
      var i := 0;
      while i < |storage|
        invariant 0 <= i <= |storage|
        invariant steps == old(steps) + StorageSteps(storage[..i], userName)
        invariant tlvolumes == TopLevelVolumes(storage) && volumes == old(volumes) + ServiceVolumes(storage)
      {
        var s := storage[i];
        steps := steps + [OwnershipStep(s, userName)];
        if Truthy(s.permissions) {
          steps := steps + [PermissionStep(s)];
        }
        StorageStepsAppend(storage[..i], [s], userName);
        assert storage[..i + 1] == storage[..i] + [s];
        i := i + 1;
      }
      assert storage[..i] == storage;
    }

    // -------------------------------------------------------------------------
    // The run-state
    // -------------------------------------------------------------------------

    /** `#addRunEnvironment`. */
    method AddRunEnvironment(data: EnvInput)
      requires Valid()
      modifies this`environment
      ensures Valid()
      ensures environment == AddedEnvironment(old(environment), data)
    {
      if !data.EnvOther? {
        environment := Uniq(environment + EnvStrings(data));
        AddedEnvironmentSpec(old(environment), data, "");
      }
    }

    /** `#addRunLabels`: throws for an array. */
    method AddRunLabels(data: LabelInput) returns (err: Option<Failure>)
      modifies this`labels
      ensures AddedLabels(old(labels), data).Ok? ==> err.None? && labels == AddedLabels(old(labels), data).value
      ensures AddedLabels(old(labels), data).Err? ==> err == Some(AddedLabels(old(labels), data).error) && labels == old(labels)
    {
      match AddedLabels(labels, data)
      case Ok(m) =>
        labels := m;
        err := None;
      case Err(e) =>
        err := Some(e);
    }

    /** `#addRunVolumes`. */
    method AddRunVolumes(data: VolumeInput)
      requires Valid()
      modifies this`mounts
      ensures Valid()
      ensures mounts == AddedMounts(old(mounts), data, helpers.normalizeVolume)
    {
      if data.VolumeList? {
        mounts := Uniq(mounts + MountStrings(data.items, helpers.normalizeVolume));
        AddedMountsSpec(old(mounts), data, helpers.normalizeVolume, "");
      }
    }

    /** `addLandoRunData`: environment, then labels, then volumes; a label error stops it before the volumes. */
    method AddLandoRunData(data: LandoData) returns (err: Option<Failure>)
      requires Valid()
      modifies this`environment, this`labels, this`mounts
      ensures Valid()
      ensures environment == AddedEnvironment(old(environment), data.environment)
      ensures err.Some? <==> data.labels.LabelList?
      ensures err.Some? ==> err == Some(LabelArrayError(data.labels.items)) && labels == old(labels) && mounts == old(mounts)
      ensures err.None? ==> labels == AddedLabels(old(labels), data.labels).value
      ensures err.None? ==> mounts == AddedMounts(old(mounts), data.volumes, helpers.normalizeVolume)
    {
      AddRunEnvironment(data.environment);
      err := AddRunLabels(data.labels);
      if err.None? {
        AddRunVolumes(data.volumes);
      }
    }

    /** `addLandoServiceData`: the run-state first, then the parent's service data. */
    method AddLandoServiceData(data: LandoData) returns (err: Option<Failure>)
      requires Valid()
      modifies this`environment, this`labels, this`mounts, this`serviceData
      ensures Valid()
      ensures environment == AddedEnvironment(old(environment), data.environment)
      ensures err.Some? <==> data.labels.LabelList?
      ensures err.Some? ==> err == Some(LabelArrayError(data.labels.items))
      ensures err.Some? ==> labels == old(labels) && mounts == old(mounts) && serviceData == old(serviceData)
      ensures err.None? ==> labels == AddedLabels(old(labels), data.labels).value
      ensures err.None? ==> mounts == AddedMounts(old(mounts), data.volumes, helpers.normalizeVolume)
      ensures err.None? ==> serviceData == old(serviceData) + [LandoEntry(data)]
      ensures DataNow() == WithLandoData(old(DataNow()), data, helpers.normalizeVolume)
    {
      err := AddLandoRunData(data);
      if err.None? {
        serviceData := serviceData + [LandoEntry(data)];
      }
    }

    // -------------------------------------------------------------------------
    // Build-context helpers
    // -------------------------------------------------------------------------

    /** `addLSF`. */
    method AddLSF(source: string, dest: Option<string>, ctx: Option<string>)
      modifies this`contexts
      ensures contexts == old(contexts) + [LsfEntry(source, dest, ctx)]
    {
      contexts := contexts + [LsfEntry(source, dest, ctx)];
    }

    /** `addLashRC`. */
    method AddLashRC(file: string, priority: Option<string>)
      modifies this`contexts
      ensures contexts == old(contexts) + [LashRcEntry(file, priority)]
    {
      contexts := contexts + [LashRcEntry(file, priority)];
    }

    /** What `addHookFile(file, opts)` writes and where it puts the hook, or the error it throws. */
    function HookFilePlanFor(file: string, opts: HookOptions): Result<HookFilePlan> {
      var hook := opts.hook.GetOr("boot");
      var stage := opts.stage.GetOr("image");
      var priority := opts.priority.GetOr("100");
      if helpers.validPath(file) then Ok(HookFilePlan(None, HookPlacement(file, hook, stage, priority)))
      else match ScriptContents(file)
        case Err(e) => Err(e)
        case Ok(contents) =>
          var path := PathJoin(context, HookFileName(opts.id, hook, stage, priority));
          Ok(HookFilePlan(Some(WrittenFile(path, contents, true)), HookPlacement(path, hook, stage, priority)))
    }

    /**
     * `addHookFile`: inline script text is written, dedented, as an executable
     * file in the build context first; an image hook is added to the build
     * context and an app hook is mounted through the service data.
     */
    method AddHookFile(file: string, opts: HookOptions) returns (err: Option<Failure>)
      requires Valid()
      modifies this`files, this`contexts, this`environment, this`labels, this`mounts, this`serviceData
      ensures Valid()
      ensures environment == old(environment) && labels == old(labels)
      ensures HookFilePlanFor(file, opts).Err? ==>
        && err == Some(HookFilePlanFor(file, opts).error)
        && files == old(files) && contexts == old(contexts) && mounts == old(mounts) && serviceData == old(serviceData)
      ensures HookFilePlanFor(file, opts).Ok? ==>
        var plan := HookFilePlanFor(file, opts).value;
        && err.None?
        && files == old(files) + (if plan.written.Some? then [plan.written.value] else [])
        && contexts == old(contexts) + (if plan.placement.BuildContext? then [plan.placement.entry] else [])
        && serviceData == old(serviceData) +
             (if plan.placement.RuntimeMount? then [LandoEntry(VolumesData([Short(plan.placement.volume)]))] else [])
        && mounts == (if plan.placement.RuntimeMount?
                      then AddedMounts(old(mounts), VolumeList([Short(plan.placement.volume)]), helpers.normalizeVolume)
                      else old(mounts))
    {
      var planned := HookFilePlanFor(file, opts);
      if planned.Err? {
        return Some(planned.error);
      }
      var plan := planned.value;
      if plan.written.Some? {
        files := files + [plan.written.value];
      }
      match plan.placement
      case BuildContext(entry) =>
        contexts := contexts + [entry];
        err := None;
      case RuntimeMount(volume) =>
        err := AddLandoServiceData(VolumesData([Short(volume)]));
      case Nowhere =>
        err := None;
    }

    // -------------------------------------------------------------------------
    // Packages
    // -------------------------------------------------------------------------

    /** `addPackageInstaller`. */
    method AddPackageInstaller(pkg: string, installer: Installer)
      modifies this`installers
      ensures installers == old(installers)[pkg := installer]
    {
      installers := installers[pkg := installer];
    }

    /**
     * `addPackage`: the installer is looked up and called with the service and
     * the normalised arguments; it adds its data through `addLandoServiceData`.
     */
    method AddPackage(pkg: string, data: Option<PackageData>) returns (err: Option<Failure>)
      requires Valid()
      modifies this`installCalls, this`environment, this`labels, this`mounts, this`serviceData
      ensures Valid()
      ensures err == PackageError(installers, helpers.install, pkg, data)
      ensures PackageCall(installers, pkg, data).Ok? ==>
        var call := PackageCall(installers, pkg, data).value;
        && installCalls == old(installCalls) + [call]
        && DataNow() == WithLandoData(old(DataNow()), helpers.install(call).data, helpers.normalizeVolume)
      ensures PackageCall(installers, pkg, data).Err? ==> installCalls == old(installCalls) && DataNow() == old(DataNow())
    {
      match PackageCall(installers, pkg, data)
      case Err(e) =>
        err := Some(e);
      case Ok(call) =>
        installCalls := installCalls + [call];
        var run := helpers.install(call);
        err := AddLandoServiceData(run.data);
        if err.None? {
          err := run.outcome;
        }
    }

    /**
     * `installPackages`: every enabled package is attempted; the whole fails if
     * any does, and each installer call's data reaches the service in order.
     */
    method InstallPackages() returns (err: Option<Failure>)
      requires Valid()
      modifies this`installCalls, this`environment, this`labels, this`mounts, this`serviceData
      ensures Valid()
      ensures installCalls == old(installCalls) + InstallCalls(installers, packages, helpers.isDisabled)
      ensures DataNow() ==
        WithInstallRuns(old(DataNow()), InstallCalls(installers, packages, helpers.isDisabled), helpers.install, helpers.normalizeVolume)
      ensures err.Some? <==> InstallFails(installers, helpers.install, packages, helpers.isDisabled)
    {
      err := None;
      var i := 0;
      while i < |packages|
        invariant 0 <= i <= |packages|
        invariant Valid()
        invariant installCalls == old(installCalls) + InstallCalls(installers, packages[..i], helpers.isDisabled)
        invariant DataNow() ==
          WithInstallRuns(old(DataNow()), InstallCalls(installers, packages[..i], helpers.isDisabled), helpers.install, helpers.normalizeVolume)
        invariant err.Some? <==> InstallFails(installers, helpers.install, packages[..i], helpers.isDisabled)
      {
        var (pkg, data) := packages[i];
        assert packages[..i + 1][..i] == packages[..i];
        InstallCallsStep(installers, packages[..i + 1], helpers.isDisabled, old(DataNow()), helpers.install, helpers.normalizeVolume);
        if !helpers.isDisabled(data) {
          var e := AddPackage(pkg, data);
          if e.Some? {
            err := e;
          }
        }
        InstallFailsStep(installers, helpers.install, packages[..i + 1], helpers.isDisabled);
        i := i + 1;
      }
      assert packages[..i] == packages;
    }

    // -------------------------------------------------------------------------
    // Running containers
    // -------------------------------------------------------------------------

    /** `run`: the engine runs the command with the current run-state; an error is tagged with the service id. */
    method Run(engine: Engine, cmd: seq<string>, o: RunOverrides) returns (r: Result<RunSuccess>)
      modifies engine`runRequests
      ensures engine.runRequests == old(engine.runRequests) + [(cmd, RunOptions(CurrentRunState(), o))]
      ensures cmd in engine.refuseRun ==> r == Err(Tag(engine.failure, id))
      ensures cmd !in engine.refuseRun ==> r == Ok(RunSuccess(engine.runOutput, cmd, RunOptions(CurrentRunState(), o)))
    {
      var opts := RunOptions(CurrentRunState(), o);
      var out := engine.Run(cmd, opts);
      match out
      case Ok(output) =>
        r := Ok(RunSuccess(output, cmd, opts));
      case Err(e) =>
        r := Err(Tag(e, id));
    }

    /** `runHook`. */
    method RunHook(engine: Engine, hook: seq<string>, attach: Option<bool>, user: Option<string>)
      returns (r: Result<RunSuccess>)
      modifies engine`runRequests
      ensures engine.runRequests ==
        old(engine.runRequests) + [(HookCommand(hook), RunOptions(CurrentRunState(), HookOverrides(attach, user, userName)))]
      ensures r.Err? <==> HookCommand(hook) in engine.refuseRun
      ensures r.Err? ==> r.error == Tag(engine.failure, id)
    {
      r := Run(engine, HookCommand(hook), HookOverrides(attach, user, userName));
    }

    // -------------------------------------------------------------------------
    // Lifecycle
    // -------------------------------------------------------------------------

    /** The storage volumes `buildApp` creates, as engine requests. */
    function CreateRequests(specs: seq<StorageSpec>): (r: seq<VolumeRequest>)
      ensures |r| == |specs|
    {
      seq(|specs|, i requires 0 <= i < |specs| => VolumeRequest(specs[i].source, specs[i].labels))
    }

    /**
     * Whether the first part of `buildApp` fails on an engine that listed
     * `existing`: some storage entry is a volume, and listing the volumes fails
     * or the engine refuses one of the volumes to create.
     */
    predicate StorageCreationFails(engine: Engine, existing: seq<EngineVolume>) {
      && HasVolumes(storage)
      && (|| engine.listFailure.Some?
          || exists s :: s in VolumesToCreate(storage, StorageVolumes(existing)) && s.source in engine.refuseCreate)
    }

    /** The error the first part of `buildApp` passes on as it is: the listing's, or the engine's. */
    function StorageCreationError(engine: Engine): Failure {
      if engine.listFailure.Some? then engine.listFailure.value else engine.failure
    }

    /**
     * The first part of `buildApp`: when some storage entry is a volume, list the
     * engine's volumes and request every missing labelled one, all of them even
     * if one fails.
     */
    method CreateStorageVolumes(engine: Engine) returns (err: Option<Failure>)
      modifies engine`createRequests, engine`volumes
      ensures !HasVolumes(storage) ==> err.None? && engine.createRequests == old(engine.createRequests)
      ensures HasVolumes(storage) && engine.listFailure.Some? ==>
        err == engine.listFailure && engine.createRequests == old(engine.createRequests)
      ensures HasVolumes(storage) && engine.listFailure.None? ==>
        var toCreate := VolumesToCreate(storage, StorageVolumes(old(engine.volumes)));
        && engine.createRequests == old(engine.createRequests) + CreateRequests(toCreate)
        && (err.Some? <==> exists s :: s in toCreate && s.source in engine.refuseCreate)
        && (err.Some? ==> err.value == engine.failure)
      ensures err.Some? <==> StorageCreationFails(engine, old(engine.volumes))
      ensures err.Some? ==> err.value == StorageCreationError(engine)
    {
      err := None;
      if HasVolumes(storage) {
        var listed := engine.ListVolumes();
        if listed.Err? {
          return Some(listed.error);
        }
        var toCreate := VolumesToCreate(storage, StorageVolumes(listed.value));
        var i := 0;
        while i < |toCreate|
          invariant 0 <= i <= |toCreate|
          invariant engine.createRequests == old(engine.createRequests) + CreateRequests(toCreate[..i])
          invariant err.Some? <==> exists s :: s in toCreate[..i] && s.source in engine.refuseCreate
          invariant err.Some? ==> err.value == engine.failure
        {
          var e := engine.CreateVolume(toCreate[i].source, toCreate[i].labels);
          if e.Some? {
            err := e;
          }
          assert toCreate[..i + 1] == toCreate[..i] + [toCreate[i]];
          assert CreateRequests(toCreate[..i + 1]) == CreateRequests(toCreate[..i]) + [VolumeRequest(toCreate[i].source, toCreate[i].labels)];
          i := i + 1;
        }
        assert toCreate[..i] == toCreate;
      }
    }

    /** The user's build script, when there is one, can be turned into a hook file. */
    predicate BuildScriptPlaces() {
      !Truthy(buildScript) || HookFilePlanFor(buildScript.value, UserBuildHook).Ok?
    }

    /**
     * What the guarded part of `buildApp` does between the state before it and
     * the state after:
     * - the app is marked building, then built or failed;
     * - the root app hooks run first, detached and as root, with the run-state
     *   as it was;
     * - the user's build script, if any, is mounted as an app hook of group
     *   `user`, and the user app hooks then run with the defaults and the
     *   run-state that includes that mount;
     * - the build succeeds iff both hook runs and the build script succeed; a
     *   failure is the engine's or the script's error with the service id, and
     *   nothing runs after it.
     */
    twostate predicate AppHooksRan(engine: Engine, new err: Option<Failure>)
      reads this, engine
    {
      var root := HookCommand(["app", "internal-root"]);
      var user := HookCommand(["app", "user"]);
      var n := |old(engine.runRequests)|;
      && infoLog == old(infoLog) + [StateInfo("BUILDING"), StateInfo(if err.Some? then "BUILD FAILURE" else "BUILT")]
      && environment == old(environment) && labels == old(labels)
      && n < |engine.runRequests| && engine.runRequests[..n] == old(engine.runRequests)
      && engine.runRequests[n] ==
           (root, RunOptions(old(CurrentRunState()), HookOverrides(Some(false), Some("root"), userName)))
      && (err.None? <==> root !in engine.refuseRun && BuildScriptPlaces() && user !in engine.refuseRun)
      && (root in engine.refuseRun ==>
            && err == Some(Tag(engine.failure, id)) && |engine.runRequests| == n + 1
            && files == old(files) && contexts == old(contexts) && mounts == old(mounts)
            && serviceData == old(serviceData))
      && (root !in engine.refuseRun && !BuildScriptPlaces() ==>
            && err == Some(Tag(HookFilePlanFor(buildScript.value, UserBuildHook).error, id))
            && |engine.runRequests| == n + 1
            && files == old(files) && contexts == old(contexts) && mounts == old(mounts)
            && serviceData == old(serviceData))
      && (root !in engine.refuseRun && BuildScriptPlaces() ==>
            && |engine.runRequests| == n + 2
            && engine.runRequests[n + 1] == (user, RunOptions(CurrentRunState(), HookOverrides(None, None, userName)))
            && (user in engine.refuseRun ==> err == Some(Tag(engine.failure, id))))
      && (!Truthy(buildScript) ==>
            files == old(files) && contexts == old(contexts) && mounts == old(mounts) && serviceData == old(serviceData))
      && (root !in engine.refuseRun && Truthy(buildScript) && BuildScriptPlaces() ==>
            var plan := HookFilePlanFor(buildScript.value, UserBuildHook).value;
            && plan.placement.RuntimeMount?
            && files == old(files) + (if plan.written.Some? then [plan.written.value] else [])
            && contexts == old(contexts)
            && serviceData == old(serviceData) + [LandoEntry(VolumesData([Short(plan.placement.volume)]))]
            && mounts == AddedMounts(old(mounts), VolumeList([Short(plan.placement.volume)]), helpers.normalizeVolume))
    }

    /**
     * `buildApp`: create the missing storage volumes; a failure there is passed
     * on as it is and changes neither the app state nor runs anything. Then run
     * the guarded part, `BuildAppHooks`.
     */
    method BuildApp(engine: Engine) returns (err: Option<Failure>)
      requires Valid()
      modifies engine`createRequests, engine`volumes, engine`runRequests
      modifies this`infoLog, this`files, this`contexts, this`environment, this`labels, this`mounts, this`serviceData
      ensures Valid()
      ensures !HasVolumes(storage) ==> engine.createRequests == old(engine.createRequests)
      ensures HasVolumes(storage) && engine.listFailure.Some? ==> engine.createRequests == old(engine.createRequests)
      ensures HasVolumes(storage) && engine.listFailure.None? ==>
        engine.createRequests ==
          old(engine.createRequests) + CreateRequests(VolumesToCreate(storage, StorageVolumes(old(engine.volumes))))
      ensures StorageCreationFails(engine, old(engine.volumes)) ==>
        && err == Some(StorageCreationError(engine))
        && infoLog == old(infoLog) && engine.runRequests == old(engine.runRequests)
        && files == old(files) && contexts == old(contexts) && environment == old(environment)
        && labels == old(labels) && mounts == old(mounts) && serviceData == old(serviceData)
      ensures !StorageCreationFails(engine, old(engine.volumes)) ==> AppHooksRan(engine, err)
    {
      err := CreateStorageVolumes(engine);
      if err.Some? {
        return;
      }
      err := BuildAppHooks(engine);
    }

    /**
     * The guarded part of `buildApp`: mark the app building, run the root app
     * hooks, mount the user's build script if there is one, run the user app
     * hooks and mark it built; on any failure mark the build failed and pass
     * the failure on with the service id.
     */
    method BuildAppHooks(engine: Engine) returns (err: Option<Failure>)
      requires Valid()
      modifies engine`runRequests
      modifies this`infoLog, this`files, this`contexts, this`environment, this`labels, this`mounts, this`serviceData
      ensures Valid()
      ensures AppHooksRan(engine, err)
    {
      infoLog := infoLog + [StateInfo("BUILDING")];
      var root := RunHook(engine, ["app", "internal-root"], Some(false), Some("root"));
      if root.Err? {
        infoLog := infoLog + [StateInfo("BUILD FAILURE")];
        return Some(root.error);
      }
      if Truthy(buildScript) {
        var e := AddHookFile(buildScript.value, UserBuildHook);
        if e.Some? {
          infoLog := infoLog + [StateInfo("BUILD FAILURE")];
          return Some(Tag(e.value, id));
        }
      }
      var user := RunHook(engine, ["app", "user"], None, None);
      if user.Err? {
        infoLog := infoLog + [StateInfo("BUILD FAILURE")];
        return Some(user.error);
      }
      infoLog := infoLog + [StateInfo("BUILT")];
      err := None;
    }

    /**
     * `buildImage`: install the packages, let the parent build the image (its
     * outcome is `built`), then wrap the resolved command in the start script.
     */
    method BuildImage(built: Result<ImageInfo>) returns (r: Result<ImageInfo>)
      requires Valid()
      modifies this`installCalls, this`environment, this`labels, this`mounts, this`serviceData
      ensures Valid()
      ensures installCalls == old(installCalls) + InstallCalls(installers, packages, helpers.isDisabled)
      ensures
        var installed :=
          WithInstallRuns(old(DataNow()), InstallCalls(installers, packages, helpers.isDisabled), helpers.install, helpers.normalizeVolume);
        && (InstallFails(installers, helpers.install, packages, helpers.isDisabled) ==> r.Err? && DataNow() == installed)
        && (!InstallFails(installers, helpers.install, packages, helpers.isDisabled) && built.Err? ==>
              r == built && DataNow() == installed)
        && (!InstallFails(installers, helpers.install, packages, helpers.isDisabled) && built.Ok? ==>
              var start := StartCommand(id, command, built.value, helpers.parseArgv);
              && (start.Err? ==> r == Err(start.error) && DataNow() == installed)
              && (start.Ok? ==> r == built && DataNow() == installed.(serviceData := installed.serviceData + [LandoEntry(CommandData(start.value))])))
    {
      var e := InstallPackages();
      if e.Some? {
        return Err(e.value);
      }
      if built.Err? {
        return built;
      }
      var start := StartCommand(id, command, built.value, helpers.parseArgv);
      if start.Err? {
        return Err(start.error);
      }
      ghost var before := mounts;
      var _ := AddLandoServiceData(CommandData(start.value));
      assert AddedMounts(before, VolumeOther, helpers.normalizeVolume) == before;
      r := built;
    }

    /** `destroy`: remove this service's own non-global storage volumes; fails if any removal does. */
    method Destroy(engine: Engine) returns (err: Option<Failure>)
      modifies engine`removeRequests
      ensures !HasVolumes(storage) ==> err.None? && engine.removeRequests == old(engine.removeRequests)
      ensures HasVolumes(storage) && engine.listFailure.Some? ==>
        err == engine.listFailure && engine.removeRequests == old(engine.removeRequests)
      ensures HasVolumes(storage) && engine.listFailure.None? ==>
        var names := VolumesToRemove(StorageVolumes(engine.volumes), project, id);
        && engine.removeRequests == old(engine.removeRequests) + names
        && (err.Some? <==> exists n :: n in names && n in engine.refuseRemove)
        && (err.Some? ==> err.value == engine.failure)
    {
      err := None;
      if HasVolumes(storage) {
        var listed := engine.ListVolumes();
        if listed.Err? {
          return Some(listed.error);
        }
        var names := VolumesToRemove(StorageVolumes(listed.value), project, id);
        var i := 0;
        while i < |names|
          invariant 0 <= i <= |names|
          invariant engine.removeRequests == old(engine.removeRequests) + names[..i]
          invariant err.Some? <==> exists n :: n in names[..i] && n in engine.refuseRemove
          invariant err.Some? ==> err.value == engine.failure
        {
          var e := engine.RemoveVolume(names[i]);
          if e.Some? {
            err := e;
          }
          assert names[..i + 1] == names[..i] + [names[i]];
          i := i + 1;
        }
        assert names[..i] == names;
      }
    }

    // -------------------------------------------------------------------------
    // npm credentials and the app mount
    // -------------------------------------------------------------------------

    /** `setNPMRC`: write the npmrc file into the build context and mount it for the user and root. */
    method SetNPMRC(src: NpmrcSource)
      requires Valid()
      modifies this`files, this`npmrc, this`npmrcFile, this`environment, this`labels, this`mounts, this`serviceData
      ensures Valid()
      ensures npmrcFile == PathJoin(context, "npmrc") && npmrc == NpmrcContents(src)
      ensures files == old(files) + [WrittenFile(npmrcFile, npmrc, false)]
      ensures environment == old(environment) && labels == old(labels)
      ensures mounts == AddedMounts(old(mounts), VolumeList(ShortVolumes(NpmrcMounts(npmrcFile, userName))),
                                    helpers.normalizeVolume)
      ensures serviceData == old(serviceData) + [LandoEntry(VolumesData(ShortVolumes(NpmrcMounts(npmrcFile, userName))))]
    {
      var contents := NpmrcContents(src);
      var file := PathJoin(context, "npmrc");
      files := files + [WrittenFile(file, contents, false)];
      var _ := AddLandoServiceData(VolumesData(ShortVolumes(NpmrcMounts(file, userName))));
      npmrc := contents;
      npmrcFile := file;
    }

    /**
     * `setAppMount`: bind the app root, or each of its top-level paths with the
     * excluded ones on named volumes, declare those volumes, and hand the binds
     * to the service data.
     */
    method SetAppMount(cfg: AppMountConfig, listing: seq<string>)
      requires Valid()
      modifies this`amDestination, this`amVolumes, this`amBinds, this`appMount, this`composeData, this`infoLog
      modifies this`environment, this`labels, this`mounts, this`serviceData
      ensures Valid()
      ensures amDestination == cfg.destination && appMount == cfg.destination
      ensures amBinds == AppMountBinds(appRoot, cfg.destination, cfg.exclude, listing)
      ensures amVolumes == if |cfg.exclude| == 0 then old(amVolumes) else ExcludeVolumes(cfg.exclude)
      ensures composeData == old(composeData) +
        (if |amVolumes| > 0 then [ComposeData(map[], map v | v in amVolumes :: Plain)] else [])
      ensures environment == old(environment) && labels == old(labels)
      ensures mounts == AddedMounts(old(mounts), VolumeList(ShortVolumes(amBinds)), helpers.normalizeVolume)
      ensures serviceData == old(serviceData) + [LandoEntry(VolumesData(ShortVolumes(amBinds)))]
      ensures infoLog == old(infoLog) + [AppMountInfo(cfg.destination)]
    {
      amDestination := cfg.destination;
      if |cfg.exclude| == 0 {
        amBinds := [appRoot + ":" + cfg.destination];
      } else {
        amVolumes := ExcludeVolumes(cfg.exclude);
        amBinds := PathBinds(appRoot, amDestination, cfg.exclude, Kept(cfg.exclude, listing) + cfg.exclude);
      }
      if |amVolumes| > 0 {
        composeData := composeData + [ComposeData(map[], map v | v in amVolumes :: Plain)];
      }
      var _ := AddLandoServiceData(VolumesData(ShortVolumes(amBinds)));
      appMount := cfg.destination;
      infoLog := infoLog + [AppMountInfo(appMount)];
    }
  }

  /**
   * Installer calls keep the earlier environment strings, binds and service
   * data where they were, repeat no string or bind, and lose no label.
   */
  lemma {:induction false} InstallRunsKeep(st: DataState, calls: seq<InstallCall>, install: InstallCall -> InstallerRun,
                                           normalize: RawVolume -> (string, string), key: string)
    requires NoDup(st.environment) && NoDup(st.mounts)
    ensures var r := WithInstallRuns(st, calls, install, normalize);
      && NoDup(r.environment) && NoDup(r.mounts)
      && |st.environment| <= |r.environment| && r.environment[..|st.environment|] == st.environment
      && |st.mounts| <= |r.mounts| && r.mounts[..|st.mounts|] == st.mounts
      && |st.serviceData| <= |r.serviceData| && r.serviceData[..|st.serviceData|] == st.serviceData
      && (key in st.labels ==> key in r.labels)
    decreases |calls|
  {
    if calls != [] {
      var n := |calls| - 1;
      var p := WithInstallRuns(st, calls[..n], install, normalize);
      var d := install(calls[n]).data;
      InstallRunsKeep(st, calls[..n], install, normalize, key);
      AddedEnvironmentSpec(p.environment, d.environment, "");
      AddedMountsSpec(p.mounts, d.volumes, normalize, "");
      AddedLabelsSpec(p.labels, d.labels, key);
    }
  }

  /** After installer calls, an environment string is there iff it was before or some call's data brings it. */
  lemma {:induction false} InstallRunsEnvironment(st: DataState, calls: seq<InstallCall>, install: InstallCall -> InstallerRun,
                                                  normalize: RawVolume -> (string, string), x: string)
    requires NoDup(st.environment) && NoDup(st.mounts)
    ensures x in WithInstallRuns(st, calls, install, normalize).environment <==>
      x in st.environment || exists c :: c in calls && x in EnvStrings(install(c).data.environment)
    decreases |calls|
  {
    if calls != [] {
      var n := |calls| - 1;
      InstallRunsEnvironment(st, calls[..n], install, normalize, x);
      InstallRunsKeep(st, calls[..n], install, normalize, "");
      AddedEnvironmentSpec(WithInstallRuns(st, calls[..n], install, normalize).environment, install(calls[n]).data.environment, x);
      assert calls == calls[..n] + [calls[n]];
    }
  }

  /** After installer calls, a bind is there iff it was before or some call's data without a label array brings it. */
  lemma {:induction false} InstallRunsMounts(st: DataState, calls: seq<InstallCall>, install: InstallCall -> InstallerRun,
                                             normalize: RawVolume -> (string, string), x: string)
    requires NoDup(st.environment) && NoDup(st.mounts)
    ensures x in WithInstallRuns(st, calls, install, normalize).mounts <==>
      x in st.mounts || exists c :: c in calls && RunsMount(install(c).data, normalize, x)
    decreases |calls|
  {
    if calls != [] {
      var n := |calls| - 1;
      InstallRunsMounts(st, calls[..n], install, normalize, x);
      InstallRunsKeep(st, calls[..n], install, normalize, "");
      AddedMountsSpec(WithInstallRuns(st, calls[..n], install, normalize).mounts, install(calls[n]).data.volumes, normalize, x);
      assert calls == calls[..n] + [calls[n]];
    }
  }

  /** The service-data entries installer calls add are exactly the data of the calls without a label array. */
  lemma {:induction false} InstallRunsEntries(st: DataState, calls: seq<InstallCall>, install: InstallCall -> InstallerRun,
                                              normalize: RawVolume -> (string, string), e: ServiceDataEntry)
    requires NoDup(st.environment) && NoDup(st.mounts)
    ensures var r := WithInstallRuns(st, calls, install, normalize);
      |st.serviceData| <= |r.serviceData| &&
      (e in r.serviceData[|st.serviceData|..] <==>
         exists c :: c in calls && !install(c).data.labels.LabelList? && e == LandoEntry(install(c).data))
    decreases |calls|
  {
    InstallRunsKeep(st, calls, install, normalize, "");
    if calls != [] {
      var n := |calls| - 1;
      var p := WithInstallRuns(st, calls[..n], install, normalize);
      var d := install(calls[n]).data;
      InstallRunsEntries(st, calls[..n], install, normalize, e);
      InstallRunsKeep(st, calls[..n], install, normalize, "");
      assert calls == calls[..n] + [calls[n]];
      if !d.labels.LabelList? {
        assert WithInstallRuns(st, calls, install, normalize).serviceData[|st.serviceData|..] ==
          p.serviceData[|st.serviceData|..] + [LandoEntry(d)];
      }
    }
  }

  /** The installer calls of a package list with one more entry: those of the shorter list, then the new entry's. */
  lemma InstallCallsStep(installers: map<string, Installer>, pkgs: Packages, isDisabled: Option<PackageData> -> bool,
                         st: DataState, install: InstallCall -> InstallerRun, normalize: RawVolume -> (string, string))
    requires |pkgs| > 0
    ensures var n := |pkgs| - 1;
      var before := InstallCalls(installers, pkgs[..n], isDisabled);
      var call := PackageCall(installers, pkgs[n].0, pkgs[n].1);
      && (!isDisabled(pkgs[n].1) && call.Ok? ==>
            && InstallCalls(installers, pkgs, isDisabled) == before + [call.value]
            && WithInstallRuns(st, before + [call.value], install, normalize) ==
                 WithLandoData(WithInstallRuns(st, before, install, normalize), install(call.value).data, normalize))
      && (isDisabled(pkgs[n].1) || call.Err? ==> InstallCalls(installers, pkgs, isDisabled) == before)
  {
    var n := |pkgs| - 1;
    var before := InstallCalls(installers, pkgs[..n], isDisabled);
    var call := PackageCall(installers, pkgs[n].0, pkgs[n].1);
    if call.Ok? {
      assert (before + [call.value])[..|before|] == before;
    }
  }

  /** A package list with one more entry fails exactly when the shorter one does or the new entry does. */
  lemma InstallFailsStep(installers: map<string, Installer>, install: InstallCall -> InstallerRun, pkgs: Packages,
                         isDisabled: Option<PackageData> -> bool)
    requires |pkgs| > 0
    ensures InstallFails(installers, install, pkgs, isDisabled) <==>
      InstallFails(installers, install, pkgs[..|pkgs| - 1], isDisabled) ||
      (!isDisabled(pkgs[|pkgs| - 1].1) && PackageError(installers, install, pkgs[|pkgs| - 1].0, pkgs[|pkgs| - 1].1).Some?)
  {
    var n := |pkgs| - 1;
    if InstallFails(installers, install, pkgs, isDisabled) {
      var i :| 0 <= i < |pkgs| && !isDisabled(pkgs[i].1) && PackageError(installers, install, pkgs[i].0, pkgs[i].1).Some?;
      if i < n {
        assert pkgs[..n][i] == pkgs[i];
      }
    }
    if InstallFails(installers, install, pkgs[..n], isDisabled) {
      var i :| 0 <= i < n && !isDisabled(pkgs[..n][i].1) && PackageError(installers, install, pkgs[..n][i].0, pkgs[..n][i].1).Some?;
      assert pkgs[..n][i] == pkgs[i];
    }
  }

}
