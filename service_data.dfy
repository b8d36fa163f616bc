/**
 * The data `builders/lando-v4.js` hands to its parent with
 * `addLandoServiceData`, and the values its constructor, `setNPMRC` and
 * `setAppMount` compute for it: hostnames, the service environment and
 * labels, the npm credentials file and its mounts, and the app-mount binds.
 */
module ServiceData {
  import opened Base
  import opened Storage

  /** The shapes `#addRunEnvironment` distinguishes: an object, an array, anything else. */
  datatype EnvInput = EnvObject(entries: Entries) | EnvList(items: seq<string>) | EnvOther

  /** The shapes `#addRunLabels` distinguishes (undefined takes the `{}` default). */
  datatype LabelInput = LabelObject(labels: map<string, string>) | LabelList(items: seq<string>) | LabelOther

  /** The shapes `#addRunVolumes` distinguishes; undefined and non-arrays are both ignored. */
  datatype VolumeInput = VolumeList(items: seq<RawVolume>) | VolumeOther

  /** One `addLandoServiceData(data)` argument: what the run-state reads, plus the rest passed through. */
  datatype LandoData = LandoData(
    environment: EnvInput,
    labels: LabelInput,
    volumes: VolumeInput,
    command: Option<seq<string>>,
    extras: map<string, Value>)

  /** Data that carries only volumes. */
  function VolumesData(volumes: seq<RawVolume>): LandoData {
    LandoData(EnvOther, LabelOther, VolumeList(volumes), None, map[])
  }

  /** Data that carries only a command. */
  function CommandData(command: seq<string>): LandoData {
    LandoData(EnvOther, LabelOther, VolumeOther, Some(command), map[])
  }

  /** The environment strings an input contributes: `KEY=VALUE` for an object, the array itself, or nothing. */
  function EnvStrings(data: EnvInput): seq<string> {
    match data
    case EnvObject(entries) => KeyValueStrings(entries)
    case EnvList(items) => items
    case EnvOther => []
  }

  /** One entry of a `volumes` list shorthand: a plain `source:target` string. */
  function ShortVolumes(specs: seq<string>): (r: seq<RawVolume>)
    ensures |r| == |specs|
  {
    seq(|specs|, i requires 0 <= i < |specs| => Short(specs[i]))
  }

  // ---------------------------------------------------------------------------
  // The run-state: #addRunEnvironment, #addRunLabels, #addRunVolumes
  // ---------------------------------------------------------------------------

  /** The run environment after `#addRunEnvironment(data)`: unchanged unless `data` is an object or array. */
  function AddedEnvironment(env: seq<string>, data: EnvInput): seq<string> {
    if data.EnvOther? then env else Uniq(env + EnvStrings(data))
  }

  /**
   * Adding environment keeps every earlier string where it was, adds each new
   * string once, and never introduces a repetition.
   */
  lemma AddedEnvironmentSpec(env: seq<string>, data: EnvInput, x: string)
    requires NoDup(env)
    ensures NoDup(AddedEnvironment(env, data))
    ensures |env| <= |AddedEnvironment(env, data)| && AddedEnvironment(env, data)[..|env|] == env
    ensures x in AddedEnvironment(env, data) <==> x in env || x in EnvStrings(data)
  {
    if !data.EnvOther? {
      UniqExtend(env, EnvStrings(data), x);
    }
  }

  /**
   * The error `#addRunLabels` throws for an array. `Object.fromEntries` rejects
   * the first string, which is not an entry object; only an empty array gets
   * through it, and then the object it builds has no `map`.
   */
  function LabelArrayError(items: seq<string>): Failure {
    if items == [] then Failure("Object.fromEntries(...).map is not a function", None)
    else Failure("Iterator value " + items[0] + " is not an entry object", None)
  }

  /** The run labels after `#addRunLabels(data)`: merged for an object, an error for an array. */
  function AddedLabels(labels: map<string, string>, data: LabelInput): Result<map<string, string>> {
    match data
    case LabelObject(m) => Ok(labels + m)
    case LabelList(items) => Err(LabelArrayError(items))
    case LabelOther => Ok(labels)
  }

  /**
   * An array always fails; otherwise every label of `data` takes its new value,
   * every other label keeps its old one, and none disappears.
   */
  lemma AddedLabelsSpec(labels: map<string, string>, data: LabelInput, key: string)
    ensures AddedLabels(labels, data).Err? <==> data.LabelList?
    ensures data.LabelList? && data.items == [] ==>
      AddedLabels(labels, data).error.message == "Object.fromEntries(...).map is not a function"
    ensures data.LabelList? && data.items != [] ==>
      AddedLabels(labels, data).error.message == "Iterator value " + data.items[0] + " is not an entry object"
    ensures data.LabelObject? ==>
      var r := AddedLabels(labels, data).value;
      && r.Keys == labels.Keys + data.labels.Keys
      && (key in data.labels ==> r[key] == data.labels[key])
      && (key in labels && key !in data.labels ==> r[key] == labels[key])
    ensures data.LabelOther? ==> AddedLabels(labels, data) == Ok(labels)
  {
  }

  /** `${volume.source}:${volume.target}` of each volume, as the parent's volume normaliser sees it. */
  function MountStrings(vols: seq<RawVolume>, normalize: RawVolume -> (string, string)): (r: seq<string>)
    ensures |r| == |vols|
  {
    seq(|vols|, i requires 0 <= i < |vols| => normalize(vols[i]).0 + ":" + normalize(vols[i]).1)
  }

  /** The run mounts after `#addRunVolumes(data)`: unchanged unless `data` is an array. */
  function AddedMounts(mounts: seq<string>, data: VolumeInput, normalize: RawVolume -> (string, string)): seq<string> {
    if data.VolumeOther? then mounts else Uniq(mounts + MountStrings(data.items, normalize))
  }

  /** Adding volumes keeps every earlier mount in place and adds each new `source:target` once. */
  lemma AddedMountsSpec(mounts: seq<string>, data: VolumeInput, normalize: RawVolume -> (string, string), x: string)
    requires NoDup(mounts)
    ensures NoDup(AddedMounts(mounts, data, normalize))
    ensures |mounts| <= |AddedMounts(mounts, data, normalize)| && AddedMounts(mounts, data, normalize)[..|mounts|] == mounts
    ensures data.VolumeList? ==>
      (x in AddedMounts(mounts, data, normalize) <==> x in mounts || x in MountStrings(data.items, normalize))
    ensures data.VolumeOther? ==> AddedMounts(mounts, data, normalize) == mounts
  {
    if data.VolumeList? {
      UniqExtend(mounts, MountStrings(data.items, normalize), x);
    }
  }

  /** Adding the same environment twice is the same as adding it once. */
  lemma AddedEnvironmentTwice(env: seq<string>, data: EnvInput)
    ensures AddedEnvironment(AddedEnvironment(env, data), data) == AddedEnvironment(env, data)
  {
    if !data.EnvOther? {
      UniqMergeTwice(env, EnvStrings(data));
    }
  }

  /** Adding the same volumes twice is the same as adding them once. */
  lemma AddedMountsTwice(mounts: seq<string>, data: VolumeInput, normalize: RawVolume -> (string, string))
    ensures AddedMounts(AddedMounts(mounts, data, normalize), data, normalize) == AddedMounts(mounts, data, normalize)
  {
    if data.VolumeList? {
      UniqMergeTwice(mounts, MountStrings(data.items, normalize));
    }
  }

  // ---------------------------------------------------------------------------
  // Constructor: hostnames, environment, labels
  // ---------------------------------------------------------------------------

  /** The service's hostnames: the configured ones and `<id>.<project>.internal`, without repetitions. */
  function Hostnames(configured: seq<string>, id: string, project: string): seq<string> {
    Uniq(configured + [id + "." + project + ".internal"])
  }

  /**
   * The internal hostname is always among the hostnames, every configured one is
   * too, nothing else is, none repeats, and distinct configured hostnames keep
   * their order at the front.
   */
  lemma HostnamesSpec(configured: seq<string>, id: string, project: string, h: string)
    ensures id + "." + project + ".internal" in Hostnames(configured, id, project)
    ensures h in Hostnames(configured, id, project) <==> h in configured || h == id + "." + project + ".internal"
    ensures NoDup(Hostnames(configured, id, project))
    ensures NoDup(configured) ==>
      |configured| <= |Hostnames(configured, id, project)| && Hostnames(configured, id, project)[..|configured|] == configured
  {
    var internal := id + "." + project + ".internal";
    UniqSpec(configured + [internal], h);
    UniqSpec(configured + [internal], internal);
    if NoDup(configured) {
      UniqAppend(configured, [internal]);
      AppendNewPrefix(configured, [internal]);
    }
  }

  /** The host and Lando facts the service environment is built from. */
  datatype HostInfo = HostInfo(
    debuggy: bool,
    leia: Option<bool>,
    gid: string,
    uid: string,
    username: string,
    platform: string,
    landoId: string)

  /** The constructor's fixed service environment, before the configured one is spread over it. */
  function BaseEnvironment(host: HostInfo, project: string, appMount: string, id: string, serviceType: string): Entries {
    [("DEBUG", if host.debuggy then "1" else ""),
     ("LANDO", "ON"),
     ("LANDO_DEBUG", if host.debuggy then "1" else ""),
     ("LANDO_HOST_IP", "host.lando.internal"),
     ("LANDO_HOST_GID", host.gid),
     ("LANDO_HOST_OS", host.platform),
     ("LANDO_HOST_UID", host.uid),
     ("LANDO_HOST_USER", host.username),
     ("LANDO_LEIA", if host.leia == Some(false) then "0" else "1"),
     ("LANDO_PROJECT", project),
     ("LANDO_PROJECT_MOUNT", appMount),
     ("LANDO_SERVICE_API", "4"),
     ("LANDO_SERVICE_NAME", id),
     ("LANDO_SERVICE_TYPE", serviceType)]
  }

  /** The constructor's service environment: the fixed entries with the configured ones spread over them. */
  function ServiceEnvironment(host: HostInfo, project: string, appMount: string, id: string, serviceType: string,
                              configured: Entries): Entries {
    Spread(BaseEnvironment(host, project, appMount, id, serviceType), configured)
  }

  /**
   * A configured variable always wins; otherwise the service name, project,
   * mount root and API version are set, and `LANDO_LEIA` is `0` only when leia
   * is explicitly off.
   */
  lemma ServiceEnvironmentSpec(host: HostInfo, project: string, appMount: string, id: string, serviceType: string,
                               configured: Entries, key: string)
    ensures var env := ServiceEnvironment(host, project, appMount, id, serviceType, configured);
      && (Lookup(configured, key).Some? ==> Lookup(env, key) == Lookup(configured, key))
      && (Lookup(configured, "LANDO_SERVICE_NAME").None? ==> Lookup(env, "LANDO_SERVICE_NAME") == Some(id))
      && (Lookup(configured, "LANDO_PROJECT").None? ==> Lookup(env, "LANDO_PROJECT") == Some(project))
      && (Lookup(configured, "LANDO_PROJECT_MOUNT").None? ==> Lookup(env, "LANDO_PROJECT_MOUNT") == Some(appMount))
      && (Lookup(configured, "LANDO_SERVICE_API").None? ==> Lookup(env, "LANDO_SERVICE_API") == Some("4"))
      && (Lookup(configured, "LANDO_LEIA").None? ==>
            Lookup(env, "LANDO_LEIA") == Some(if host.leia == Some(false) then "0" else "1"))
  {
    var base := BaseEnvironment(host, project, appMount, id, serviceType);
    BaseEnvironmentLookups(host, project, appMount, id, serviceType);
    SpreadLookup(base, configured, key);
    SpreadLookup(base, configured, "LANDO_SERVICE_NAME");
    SpreadLookup(base, configured, "LANDO_PROJECT");
    SpreadLookup(base, configured, "LANDO_PROJECT_MOUNT");
    SpreadLookup(base, configured, "LANDO_SERVICE_API");
    SpreadLookup(base, configured, "LANDO_LEIA");
  }

  /** The fixed entries give the service name, project, mount root, API version and leia flag. */
  lemma BaseEnvironmentLookups(host: HostInfo, project: string, appMount: string, id: string, serviceType: string)
    ensures var base := BaseEnvironment(host, project, appMount, id, serviceType);
      && Lookup(base, "LANDO_PROJECT") == Some(project)
      && Lookup(base, "LANDO_PROJECT_MOUNT") == Some(appMount)
      && Lookup(base, "LANDO_SERVICE_API") == Some("4")
      && Lookup(base, "LANDO_SERVICE_NAME") == Some(id)
      && Lookup(base, "LANDO_LEIA") == Some(if host.leia == Some(false) then "0" else "1")
  {
    var base := BaseEnvironment(host, project, appMount, id, serviceType);
    LookupAt(base, 8, "LANDO_LEIA");
    LookupAt(base, 9, "LANDO_PROJECT");
    LookupAt(base, 10, "LANDO_PROJECT_MOUNT");
    LookupAt(base, 11, "LANDO_SERVICE_API");
    LookupAt(base, 12, "LANDO_SERVICE_NAME");
  }

  /** The constructor's labels: the app's, then the fixed container labels, then the configured ones. */
  function ServiceLabels(appLabels: map<string, string>, landoId: string, appRoot: string,
                         configured: map<string, string>): map<string, string> {
    appLabels + map["dev.lando.container" := "TRUE", "dev.lando.id" := landoId, "dev.lando.src" := appRoot]
    + configured
  }

  /** Configured labels win over the fixed ones, which win over the app's; no label is lost. */
  lemma ServiceLabelsSpec(appLabels: map<string, string>, landoId: string, appRoot: string,
                          configured: map<string, string>, key: string)
    ensures var r := ServiceLabels(appLabels, landoId, appRoot, configured);
      && r.Keys == appLabels.Keys + configured.Keys + {"dev.lando.container", "dev.lando.id", "dev.lando.src"}
      && (key in configured ==> r[key] == configured[key])
      && ("dev.lando.container" !in configured ==> r["dev.lando.container"] == "TRUE")
      && ("dev.lando.id" !in configured ==> r["dev.lando.id"] == landoId)
      && ("dev.lando.src" !in configured ==> r["dev.lando.src"] == appRoot)
      && ((key in appLabels && key !in configured &&
           key !in {"dev.lando.container", "dev.lando.id", "dev.lando.src"}) ==> r[key] == appLabels[key])
  {
  }

  // ---------------------------------------------------------------------------
  // setNPMRC
  // ---------------------------------------------------------------------------

  /** What `setNPMRC` reads: the settings object, or a path string naming no file. */
  datatype NpmrcSource = Settings(entries: Entries) | MissingPath(path: string)

  /** `Object.entries(data)`: for a string, one entry per character, keyed by its index. */
  function NpmrcEntries(src: NpmrcSource): Entries {
    match src
    case Settings(entries) => entries
    case MissingPath(p) => seq(|p|, i requires 0 <= i < |p| => (NatToString(i), [p[i]]))
  }

  /** The npmrc file contents: one `key=value` line per entry, joined by newlines after a final empty line. */
  function NpmrcContents(src: NpmrcSource): string {
    JoinWith(KeyValueStrings(NpmrcEntries(src)) + [""], "\n")
  }

  /** Each line followed by a newline. */
  function Terminated(lines: seq<string>): string
    decreases |lines|
  {
    if lines == [] then "" else lines[0] + "\n" + Terminated(lines[1..])
  }

  lemma {:induction false} JoinWithEmptyLast(lines: seq<string>)
    ensures JoinWith(lines + [""], "\n") == Terminated(lines)
    decreases |lines|
  {
    if lines != [] {
      assert (lines + [""])[1..] == lines[1..] + [""];
      JoinWithEmptyLast(lines[1..]);
    }
  }

  /** The npmrc file holds every entry on a line of its own, each line ending in a newline. */
  lemma NpmrcContentsSpec(src: NpmrcSource)
    ensures NpmrcContents(src) == Terminated(KeyValueStrings(NpmrcEntries(src)))
  {
    JoinWithEmptyLast(KeyValueStrings(NpmrcEntries(src)));
  }

  /** The two read-only mounts of the npmrc file: the user's home and root's. */
  function NpmrcMounts(file: string, userName: string): seq<string> {
    [file + ":/home/" + userName + "/.npmrc:ro", file + ":/root/.npmrc:ro"]
  }

  // ---------------------------------------------------------------------------
  // setAppMount
  // ---------------------------------------------------------------------------

  /** The named volumes that hide excluded paths: `app-mount-<path>`. */
  function ExcludeVolumes(exclude: seq<string>): (r: seq<string>)
    ensures |r| == |exclude|
  {
    seq(|exclude|, i requires 0 <= i < |exclude| => "app-mount-" + exclude[i])
  }

  /** The bind of one path below the mount root: a named volume if excluded, the host path otherwise. */
  function PathBind(appRoot: string, dest: string, exclude: seq<string>, p: string): string {
    if p in exclude then "app-mount-" + p + ":" + dest + "/" + p
    else appRoot + "/" + p + ":" + dest + "/" + p
  }

  /** Each path bound on its own, in order. */
  function PathBinds(appRoot: string, dest: string, exclude: seq<string>, paths: seq<string>): (r: seq<string>)
    ensures |r| == |paths|
  {
    seq(|paths|, i requires 0 <= i < |paths| => PathBind(appRoot, dest, exclude, paths[i]))
  }

  /** The listed paths that are not excluded, in listing order. */
  function Kept(exclude: seq<string>, listing: seq<string>): (r: seq<string>)
    ensures forall p :: p in r <==> p in listing && p !in exclude
  {
    Filter(listing, p => p !in exclude)
  }

  /**
   * The app-mount binds: the whole app root when nothing is excluded; otherwise
   * every listed path that is not excluded, then every excluded path, each bound
   * on its own.
   */
  function AppMountBinds(appRoot: string, dest: string, exclude: seq<string>, listing: seq<string>): seq<string> {
    if |exclude| == 0 then [appRoot + ":" + dest]
    else PathBinds(appRoot, dest, exclude, Kept(exclude, listing) + exclude)
  }

  /**
   * With excludes, the host paths that are not excluded come first, bound from
   * the app root in listing order, and each excluded path follows, bound from its
   * named volume in exclude order.
   */
  lemma AppMountBindsSpec(appRoot: string, dest: string, exclude: seq<string>, listing: seq<string>)
    ensures |exclude| == 0 ==> AppMountBinds(appRoot, dest, exclude, listing) == [appRoot + ":" + dest]
    ensures |exclude| > 0 ==>
      var kept := Kept(exclude, listing);
      var binds := AppMountBinds(appRoot, dest, exclude, listing);
      && |binds| == |kept| + |exclude|
      && (forall i :: 0 <= i < |kept| ==> binds[i] == appRoot + "/" + kept[i] + ":" + dest + "/" + kept[i])
      && (forall i :: 0 <= i < |exclude| ==>
            binds[|kept| + i] == "app-mount-" + exclude[i] + ":" + dest + "/" + exclude[i])
  {
    if |exclude| > 0 {
      var kept := Kept(exclude, listing);
      var paths := kept + exclude;
      var binds := PathBinds(appRoot, dest, exclude, paths);
      forall i | 0 <= i < |kept|
        ensures binds[i] == appRoot + "/" + kept[i] + ":" + dest + "/" + kept[i]
      {
        assert kept[i] in kept;
        assert paths[i] == kept[i];
      }
      forall i | 0 <= i < |exclude|
        ensures binds[|kept| + i] == "app-mount-" + exclude[i] + ":" + dest + "/" + exclude[i]
      {
        assert paths[|kept| + i] == exclude[i];
        assert exclude[i] in exclude;
      }
    }
  }
}
