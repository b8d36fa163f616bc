/**
 * `LandoLandoV4` of `plugins/lando-core/builders/_lando-v4.js`: the lowest
 * level v4 service. Its constructor turns the service options into one compose
 * fragment for the service (mounts, ports, environment, port labels, logging,
 * named volumes), an optional image pin, the normalised overrides, and the
 * `info` fields, and hands all of it to its parent class.
 */
module LandoBase {
  import opened Base

  /**
   * The constructor's options. An option with a non-empty default is `None`
   * when the caller leaves it undefined; options whose default is empty take
   * the empty value directly.
   */
  datatype Options = Options(
    name: string,
    serviceType: string,
    userConfRoot: string,
    version: string,
    config: Entries,                 // config file type -> file, in key order
    data: Option<string>,            // default `data_<name>`
    dataHome: Option<string>,        // default `home_<name>`
    entrypoint: Option<string>,      // default `/lando-entrypoint.sh`
    home: string,
    moreHttpPorts: seq<string>,
    info: map<string, Value>,
    legacy: seq<string>,
    meUser: Option<string>,          // default `www-data`
    pinPairs: Entries,               // version -> image
    ports: seq<string>,
    overrides: Value,
    refreshCerts: bool,
    remoteFiles: Entries,            // config file type -> path in the container
    scripts: seq<string>,
    sport: Option<string>,           // default `443`
    ssl: bool,
    sslExpose: Option<bool>,         // default true
    root: string)

  function DataVolume(o: Options): string { o.data.GetOr("data_" + o.name) }
  function HomeVolume(o: Options): string { o.dataHome.GetOr("home_" + o.name) }
  function Entrypoint(o: Options): string { o.entrypoint.GetOr("/lando-entrypoint.sh") }
  function MeUser(o: Options): string { o.meUser.GetOr("www-data") }
  function SslPort(o: Options): string { o.sport.GetOr("443") }

  /** The service's compose fragment. */
  datatype ServiceFragment = ServiceFragment(
    entrypoint: string,
    environment: Entries,
    labels: Entries,
    logging: Value,
    ports: seq<string>,
    volumes: seq<string>)

  /** One compose source handed to the parent, in order. */
  datatype ComposeSource =
    | Incoming(data: Value)                                     // passed in by the caller
    | Primary(service: string, fragment: ServiceFragment, namedVolumes: map<string, Value>)
    | PinnedImage(service: string, image: string)
    | Overrides(service: string, normalized: Value)

  /** The arguments of the `super` call, apart from the placeholder build context. */
  datatype SuperArgs = SuperArgs(id: string, info: map<string, Value>, compose: seq<ComposeSource>)

  // ---------------------------------------------------------------------------
  // What the constructor computes
  // ---------------------------------------------------------------------------

  /** The warning printed for a legacy version. */
  function LegacyWarning(o: Options): Option<string> {
    if o.version in o.legacy then
      Some(o.serviceType + " version " + o.version + " is a legacy version! We recommend upgrading.")
    else None
  }

  /** The four mounts every service gets, in order. */
  function FixedMounts(o: Options): seq<string> {
    var scriptsDir := PathJoin(o.userConfRoot, "scripts");
    [o.userConfRoot + ":/lando:cached",
     scriptsDir + ":/helpers",
     PathJoin(scriptsDir, "lando-entrypoint.sh") + ":/lando-entrypoint.sh",
     HomeVolume(o) + ":/var/www"]
  }

  /** The mounts switched on by `ssl`, `home` and `refreshCerts`, in that order. */
  function OptionalMounts(o: Options): seq<string> {
    var scriptsDir := PathJoin(o.userConfRoot, "scripts");
    (if o.ssl then [PathJoin(scriptsDir, "add-cert.sh") + ":/scripts/000-add-cert"] else [])
    + (if o.home != "" then [o.home + ":/user:cached"] else [])
    + (if o.refreshCerts then [PathJoin(scriptsDir, "refresh-certs.sh") + ":/scripts/999-refresh-certs"] else [])
  }

  /** The mount of one custom pre-run script. */
  function ScriptMount(root: string, script: string): string {
    Resolve(root, script) + ":" + PathJoin("/scripts", Basename(script))
  }

  /** The mounts of the custom pre-run scripts, in order. */
  function ScriptMounts(root: string, scripts: seq<string>): (r: seq<string>)
    ensures |r| == |scripts|
  {
    seq(|scripts|, i requires 0 <= i < |scripts| => ScriptMount(root, scripts[i]))
  }

  /** The mounts of the config files that have a remote location, in key order. */
  function ConfigMounts(root: string, config: Entries, remoteFiles: Entries): seq<string>
    decreases |config|
  {
    if config == [] then []
    else
      var last := config[|config| - 1];
      var remote := Lookup(remoteFiles, last.0);
      ConfigMounts(root, config[..|config| - 1], remoteFiles)
      + (if remote.Some? then [Resolve(root, last.1) + ":" + remote.value] else [])
  }

  lemma ScriptMountsStep(root: string, scripts: seq<string>, i: nat)
    requires i < |scripts|
    ensures ScriptMounts(root, scripts[..i + 1]) == ScriptMounts(root, scripts[..i]) + [ScriptMount(root, scripts[i])]
  {
    assert ScriptMounts(root, scripts[..i + 1])[i] == ScriptMount(root, scripts[i]);
  }

  lemma ConfigMountsStep(root: string, config: Entries, remoteFiles: Entries, j: nat)
    requires j < |config|
    ensures ConfigMounts(root, config[..j + 1], remoteFiles) ==
      ConfigMounts(root, config[..j], remoteFiles)
      + (if Lookup(remoteFiles, config[j].0).Some? then [Resolve(root, config[j].1) + ":" + Lookup(remoteFiles, config[j].0).value] else [])
  {
    assert config[..j + 1][..j] == config[..j];
  }

  /** The service's volume list. */
  function Volumes(o: Options): seq<string> {
    FixedMounts(o) + OptionalMounts(o) + ScriptMounts(o.root, o.scripts) + ConfigMounts(o.root, o.config, o.remoteFiles)
  }

  /** The service's ports: the configured ones, plus the SSL port when SSL is on and exposed. */
  function Ports(o: Options): seq<string> {
    if o.ssl && o.sslExpose.GetOr(true) then o.ports + [SslPort(o)] else o.ports
  }

  /** The `io.lando.http-ports` label. */
  function HttpPorts(o: Options): string {
    JoinWith(Uniq(["80", "443"] + o.moreHttpPorts), ",")
  }

  /** The `io.lando.https-ports` label. */
  function HttpsPorts(o: Options): string {
    JoinWith(Uniq(["443", SslPort(o)]), ",")
  }

  /** Docker's JSON log driver with at most three files of ten megabytes. */
  function Logging(): Value {
    Obj(map["driver" := Str("json-file"), "options" := Obj(map["max-file" := Str("3"), "max-size" := Str("10m")])])
  }

  /** The named volumes: the data volume and the home volume, each with no options. */
  function NamedVolumes(o: Options): map<string, Value> {
    map[DataVolume(o) := Obj(map[])][HomeVolume(o) := Obj(map[])]
  }

  /** The service fragment. */
  function Fragment(o: Options): ServiceFragment {
    ServiceFragment(
      Entrypoint(o),
      [("LANDO_SERVICE_NAME", o.name), ("LANDO_SERVICE_TYPE", o.serviceType)],
      [("io.lando.http-ports", HttpPorts(o)), ("io.lando.https-ports", HttpsPorts(o))],
      Logging(), Ports(o), Volumes(o))
  }

  /** The compose sources the constructor adds after the caller's. */
  function ComposeAdded(o: Options, normalizeOverrides: (Value, string) -> Value): seq<ComposeSource> {
    [Primary(o.name, Fragment(o), NamedVolumes(o))]
    + (if o.version in Keys(o.pinPairs) then [PinnedImage(o.name, Lookup(o.pinPairs, o.version).GetOr(o.version))] else [])
    + [Overrides(o.name, normalizeOverrides(o.overrides, o.root))]
  }

  /** The fields of an object with string values; the first entry with a key wins. */
  function ObjectFields(e: Entries): map<string, Value>
    decreases |e|
  {
    if e == [] then map[] else ObjectFields(e[1..])[e[0].0 := Str(e[0].1)]
  }

  /** The caller's `info` with the fields the constructor writes. */
  function InfoFor(o: Options): map<string, Value> {
    o.info["config" := Obj(ObjectFields(o.config))]["service" := Str(o.name)]["type" := Str(o.serviceType)]
      ["version" := Str(o.version)]["meUser" := Str(MeUser(o))]["hasCerts" := Bool(o.ssl)]
  }

  // ---------------------------------------------------------------------------
  // Properties of what the constructor computes
  // ---------------------------------------------------------------------------

  /** The volume list starts with the configuration root, the helper scripts, the entrypoint and the home volume. */
  lemma FixedMountsFirst(o: Options)
    ensures |Volumes(o)| >= 4
    ensures Volumes(o)[..4] ==
      [o.userConfRoot + ":/lando:cached",
       PathJoin(o.userConfRoot, "scripts") + ":/helpers",
       PathJoin(PathJoin(o.userConfRoot, "scripts"), "lando-entrypoint.sh") + ":/lando-entrypoint.sh",
       o.dataHome.GetOr("home_" + o.name) + ":/var/www"]
  {
    assert Volumes(o)[..4] == FixedMounts(o);
  }

  /** The last character of a string that ends in a non-empty suffix. */
  lemma LastOf(a: string, b: string)
    requires |b| > 0
    ensures (a + b)[|a + b| - 1] == b[|b| - 1]
  {
  }

  /**
   * Each optional mount is there exactly when its switch is on: the add-cert
   * script when `ssl` is set, the home directory when `home` is non-empty, the
   * refresh-certs script when `refreshCerts` is set.
   */
  lemma OptionalMountsSpec(o: Options)
    ensures var scriptsDir := PathJoin(o.userConfRoot, "scripts");
      && (PathJoin(scriptsDir, "add-cert.sh") + ":/scripts/000-add-cert" in OptionalMounts(o) <==> o.ssl)
      && (o.home + ":/user:cached" in OptionalMounts(o) <==> o.home != "")
      && (PathJoin(scriptsDir, "refresh-certs.sh") + ":/scripts/999-refresh-certs" in OptionalMounts(o) <==> o.refreshCerts)
      && |OptionalMounts(o)| == (if o.ssl then 1 else 0) + (if o.home != "" then 1 else 0) + (if o.refreshCerts then 1 else 0)
  {
    var scriptsDir := PathJoin(o.userConfRoot, "scripts");
    var cert := PathJoin(scriptsDir, "add-cert.sh") + ":/scripts/000-add-cert";
    var home := o.home + ":/user:cached";
    var refresh := PathJoin(scriptsDir, "refresh-certs.sh") + ":/scripts/999-refresh-certs";
    LastOf(PathJoin(scriptsDir, "add-cert.sh"), ":/scripts/000-add-cert");
    LastOf(o.home, ":/user:cached");
    LastOf(PathJoin(scriptsDir, "refresh-certs.sh"), ":/scripts/999-refresh-certs");
    assert cert[|cert| - 1] == 't' && home[|home| - 1] == 'd' && refresh[|refresh| - 1] == 's';
  }

  /**
   * The SSL port is appended to the configured ports exactly when SSL is on and
   * exposed; the configured ports are kept in front either way.
   */
  lemma PortsSpec(o: Options)
    ensures |Ports(o)| >= |o.ports| && Ports(o)[..|o.ports|] == o.ports
    ensures |Ports(o)| == |o.ports| + 1 <==> o.ssl && o.sslExpose.GetOr(true)
    ensures |Ports(o)| == |o.ports| + 1 ==> Ports(o)[|o.ports|] == o.sport.GetOr("443")
  {
  }

  /** The pre-run script mounts come in input order, each at `/scripts/<basename>`. */
  lemma ScriptMountsSpec(o: Options, i: nat)
    requires i < |o.scripts|
    ensures var at := 4 + |OptionalMounts(o)| + i;
      && at < |Volumes(o)|
      && Volumes(o)[at] == Resolve(o.root, o.scripts[i]) + ":" + ("/scripts" + "/" + Basename(o.scripts[i]))
  {
    assert |FixedMounts(o)| == 4;
    assert Volumes(o)[4 + |OptionalMounts(o)| + i] == ScriptMounts(o.root, o.scripts)[i];
  }

  /** A config file gets a mount exactly when its type has a remote location; nothing else does. */
  lemma {:induction false} ConfigMountsSpec(root: string, config: Entries, remoteFiles: Entries, x: string)
    ensures |ConfigMounts(root, config, remoteFiles)| <= |config|
    ensures x in ConfigMounts(root, config, remoteFiles) <==>
      exists i :: 0 <= i < |config| && Lookup(remoteFiles, config[i].0).Some? &&
        x == Resolve(root, config[i].1) + ":" + Lookup(remoteFiles, config[i].0).value
    decreases |config|
  {
    if config != [] {
      var n := |config| - 1;
      var init := config[..n];
      ConfigMountsSpec(root, init, remoteFiles, x);
      if x in ConfigMounts(root, config, remoteFiles) && x !in ConfigMounts(root, init, remoteFiles) {
        assert Lookup(remoteFiles, config[n].0).Some?;
      }
      if x in ConfigMounts(root, init, remoteFiles) {
        var i :| 0 <= i < |init| && Lookup(remoteFiles, init[i].0).Some? &&
          x == Resolve(root, init[i].1) + ":" + Lookup(remoteFiles, init[i].0).value;
        assert config[i] == init[i];
      }
      if exists i :: 0 <= i < |config| && Lookup(remoteFiles, config[i].0).Some? &&
           x == Resolve(root, config[i].1) + ":" + Lookup(remoteFiles, config[i].0).value {
        var i :| 0 <= i < |config| && Lookup(remoteFiles, config[i].0).Some? &&
          x == Resolve(root, config[i].1) + ":" + Lookup(remoteFiles, config[i].0).value;
        if i < n {
          assert init[i] == config[i];
        }
      }
    }
  }

  /**
   * `io.lando.http-ports` is `80,443` unless extra ports are configured;
   * `io.lando.https-ports` is `443`, followed by the SSL port when it differs.
   */
  lemma PortLabelValues(o: Options)
    ensures (forall i :: 0 <= i < |o.moreHttpPorts| ==> o.moreHttpPorts[i] in ["80", "443"]) ==>
      HttpPorts(o) == "80" + "," + "443"
    ensures o.sport.GetOr("443") == "443" ==> HttpsPorts(o) == "443"
    ensures o.sport.GetOr("443") != "443" ==> HttpsPorts(o) == "443" + "," + o.sport.GetOr("443")
  {
    if forall i :: 0 <= i < |o.moreHttpPorts| ==> o.moreHttpPorts[i] in ["80", "443"] {
      UniqAppend(["80", "443"], o.moreHttpPorts);
      AppendNewCovered(["80", "443"], o.moreHttpPorts);
    }
    var sport := o.sport.GetOr("443");
    UniqAppend(["443"], [sport]);
    if sport != "443" {
      assert Uniq(["443", sport]) == ["443", sport];
      assert ["443", sport][1..] == [sport];
      assert JoinWith(["443", sport], ",") == "443" + "," + JoinWith([sport], ",");
    }
  }

  /**
   * Each port label splits back, on commas, into the de-duplicated port list,
   * provided no port contains a comma.
   */
  lemma PortLabelsSplit(o: Options)
    requires forall i :: 0 <= i < |o.moreHttpPorts| ==> ',' !in o.moreHttpPorts[i]
    requires ',' !in o.sport.GetOr("443")
    ensures Split(HttpPorts(o), ',') == Uniq(["80", "443"] + o.moreHttpPorts)
    ensures Split(HttpsPorts(o), ',') == Uniq(["443", o.sport.GetOr("443")])
  {
    var http := ["80", "443"] + o.moreHttpPorts;
    var https := ["443", o.sport.GetOr("443")];
    UniqSpec(http, "80");
    UniqSpec(https, "443");
    forall i | 0 <= i < |Uniq(http)| ensures ',' !in Uniq(http)[i] {
      UniqSpec(http, Uniq(http)[i]);
      var k :| 0 <= k < |http| && http[k] == Uniq(http)[i];
      if k >= 2 {
        assert http[k] == o.moreHttpPorts[k - 2];
      }
    }
    forall i | 0 <= i < |Uniq(https)| ensures ',' !in Uniq(https)[i] {
      UniqSpec(https, Uniq(https)[i]);
    }
    JoinSplit(Uniq(http), ',');
    JoinSplit(Uniq(https), ',');
  }

  /**
   * The compose sources the constructor adds: the service fragment with the
   * data and home volumes first, the image pin only when the version is pinned,
   * and the normalised overrides last.
   */
  lemma ComposeOrder(o: Options, normalizeOverrides: (Value, string) -> Value)
    ensures var added := ComposeAdded(o, normalizeOverrides);
      && (|added| == 3 <==> o.version in Keys(o.pinPairs))
      && (|added| == 2 <==> o.version !in Keys(o.pinPairs))
      && added[0].Primary? && added[0].service == o.name
      && added[0].namedVolumes.Keys == {o.data.GetOr("data_" + o.name), o.dataHome.GetOr("home_" + o.name)}
      && added[0].fragment.volumes == Volumes(o) && added[0].fragment.ports == Ports(o)
      && (|added| == 3 ==> added[1] == PinnedImage(o.name, Lookup(o.pinPairs, o.version).GetOr(o.version)))
      && added[|added| - 1] == Overrides(o.name, normalizeOverrides(o.overrides, o.root))
  {
    if o.version in Keys(o.pinPairs) {
      var i :| 0 <= i < |o.pinPairs| && o.pinPairs[i].0 == o.version;
      LookupFound(o.pinPairs, i);
    }
  }

  /** Each configured file type is a field of the config object, with the first file given for it. */
  lemma {:induction false} ObjectFieldsSpec(e: Entries, key: string)
    ensures key in ObjectFields(e) <==> Lookup(e, key).Some?
    ensures key in ObjectFields(e) ==> ObjectFields(e)[key] == Str(Lookup(e, key).value)
    decreases |e|
  {
    if e != [] {
      ObjectFieldsSpec(e[1..], key);
    }
  }

  /**
   * `info` gets the config object, the service name, type, version, user and
   * whether it has certificates; every other field the caller passed is kept.
   */
  lemma InfoSpec(o: Options, key: string)
    ensures var info := InfoFor(o);
      && info.Keys == o.info.Keys + {"config", "service", "type", "version", "meUser", "hasCerts"}
      && info["config"] == Obj(ObjectFields(o.config))
      && info["service"] == Str(o.name) && info["type"] == Str(o.serviceType)
      && info["version"] == Str(o.version) && info["meUser"] == Str(o.meUser.GetOr("www-data"))
      && info["hasCerts"] == Bool(o.ssl)
      && (key in o.info && key !in {"config", "service", "type", "version", "meUser", "hasCerts"} ==>
            info[key] == o.info[key])
  {
  }

  // ---------------------------------------------------------------------------
  // The constructor
  // ---------------------------------------------------------------------------

  /**
   * The volume and port part of the constructor: the fixed mounts, the SSL
   * mount and port, the home and refresh-certs mounts, then a mount per
   * pre-run script and per config file with a remote location.
   */
  method MountsAndPorts(o: Options) returns (volumes: seq<string>, ports: seq<string>)
    ensures volumes == Volumes(o)
    ensures ports == Ports(o)
  {
    var scriptsDir := PathJoin(o.userConfRoot, "scripts");
    var entrypointScript := PathJoin(scriptsDir, "lando-entrypoint.sh");
    var addCertsScript := PathJoin(scriptsDir, "add-cert.sh");
    var refreshCertsScript := PathJoin(scriptsDir, "refresh-certs.sh");
    volumes := [o.userConfRoot + ":/lando:cached", scriptsDir + ":/helpers",
                entrypointScript + ":/lando-entrypoint.sh", HomeVolume(o) + ":/var/www"];
    ports := o.ports;
    if o.ssl {
      volumes := volumes + [addCertsScript + ":/scripts/000-add-cert"];
      if o.sslExpose.GetOr(true) {
        ports := ports + [SslPort(o)];
      }
    }
    if o.home != "" {
      volumes := volumes + [o.home + ":/user:cached"];
    }
    if o.refreshCerts {
      volumes := volumes + [refreshCertsScript + ":/scripts/999-refresh-certs"];
    }
    assert volumes == FixedMounts(o) + OptionalMounts(o);
    volumes := PushScriptMounts(volumes, o.root, o.scripts);
    volumes := PushConfigMounts(volumes, o.root, o.config, o.remoteFiles);
  }

  /** `_.forEach(scripts, ...)`: push the mount of each pre-run script, in order. */
  method PushScriptMounts(volumes0: seq<string>, root: string, scripts: seq<string>) returns (volumes: seq<string>)
    ensures volumes == volumes0 + ScriptMounts(root, scripts)
  {
    volumes := volumes0;
    var i := 0;
    while i < |scripts|
      invariant 0 <= i <= |scripts|
      invariant volumes == volumes0 + ScriptMounts(root, scripts[..i])
    {
      volumes := volumes + [ScriptMount(root, scripts[i])];
      ScriptMountsStep(root, scripts, i);
      i := i + 1;
    }
    assert scripts[..i] == scripts;
  }

  /** `_.forEach(config, ...)`: push a mount for each config file that has a remote location, in key order. */
  method PushConfigMounts(volumes0: seq<string>, root: string, config: Entries, remoteFiles: Entries)
    returns (volumes: seq<string>)
    ensures volumes == volumes0 + ConfigMounts(root, config, remoteFiles)
  {
    volumes := volumes0;
    var j := 0;
    while j < |config|
      invariant 0 <= j <= |config|
      invariant volumes == volumes0 + ConfigMounts(root, config[..j], remoteFiles)
    {
      var (kind, file) := config[j];
      var remote := Lookup(remoteFiles, kind);
      if remote.Some? {
        volumes := volumes + [Resolve(root, file) + ":" + remote.value];
      }
      ConfigMountsStep(root, config, remoteFiles, j);
      j := j + 1;
    }
    assert config[..j] == config;
  }

  /**
   * The constructor: warn about a legacy version, build the service fragment,
   * append the compose sources and fill in `info`, then pass everything to the
   * parent.
   */
  method Construct(id: string, o: Options, compose: seq<Value>, normalizeOverrides: (Value, string) -> Value)
    returns (warning: Option<string>, args: SuperArgs)
    ensures warning == LegacyWarning(o)
    ensures args.id == id && args.info == InfoFor(o)
    ensures args.compose == seq(|compose|, i requires 0 <= i < |compose| => Incoming(compose[i]))
                            + ComposeAdded(o, normalizeOverrides)
  {
    warning := None;
    if o.version in o.legacy {
      warning := Some(o.serviceType + " version " + o.version + " is a legacy version! We recommend upgrading.");
    }
    var volumes, ports := MountsAndPorts(o);
    var fragment := ServiceFragment(
      Entrypoint(o),
      [("LANDO_SERVICE_NAME", o.name), ("LANDO_SERVICE_TYPE", o.serviceType)],
      [("io.lando.http-ports", HttpPorts(o)), ("io.lando.https-ports", HttpsPorts(o))],
      Logging(), ports, volumes);
    var namedVols: map<string, Value> := map[];
    namedVols := namedVols[DataVolume(o) := Obj(map[])];
    namedVols := namedVols[HomeVolume(o) := Obj(map[])];

    var sources := seq(|compose|, k requires 0 <= k < |compose| => Incoming(compose[k]));
    sources := sources + [Primary(o.name, fragment, namedVols)];
    if o.version in Keys(o.pinPairs) {
      sources := sources + [PinnedImage(o.name, Lookup(o.pinPairs, o.version).GetOr(o.version))];
    }
    sources := sources + [Overrides(o.name, normalizeOverrides(o.overrides, o.root))];

    var info := o.info;
    info := info["config" := Obj(ObjectFields(o.config))];
    info := info["service" := Str(o.name)];
    info := info["type" := Str(o.serviceType)];
    info := info["version" := Str(o.version)];
    info := info["meUser" := Str(MeUser(o))];
    info := info["hasCerts" := Bool(o.ssl)];
    args := SuperArgs(id, info, sources);
  }
}
