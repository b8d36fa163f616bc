/**
 * Storage planning in `builders/lando-v4.js`: what `#setupStorage` derives
 * from the normalised storage entries (top-level volumes, service volumes,
 * ownership steps), how `getStorageVolumes` projects the engine's volume
 * list, and which volumes `buildApp` creates and `destroy` removes.
 */
module Storage {
  import opened Base
  import opened BuildGroups

  /** One normalised storage entry, as the storage normaliser returns it. */
  datatype StorageSpec = StorageSpec(
    kind: string,                 // `type`: "volume", "bind", ...
    source: string,
    target: string,
    owner: Option<string>,
    permissions: Option<string>,
    scope: string,
    labels: map<string, string>,
    destination: Option<string>,
    name: Option<string>,
    rest: map<string, string>)    // any other keys the normaliser sets

  /** An entry of a compose service's `volumes` list: shorthand string or long form. */
  datatype RawVolume =
    | Short(spec: string)
    | Long(kind: string, source: string, target: string, rest: map<string, string>)

  /** A top-level compose volume declaration: `{external: true}` or `{}`. */
  datatype VolumeDecl = External | Plain

  const StorageVolumeLabel := "dev.lando.storage-volume"

  /** `volume?.labels?.['dev.lando.storage-volume'] === 'TRUE'`. */
  predicate IsLabelled(labels: map<string, string>) {
    StorageVolumeLabel in labels && labels[StorageVolumeLabel] == "TRUE"
  }

  // ---------------------------------------------------------------------------
  // #setupStorage
  // ---------------------------------------------------------------------------

  /** The top-level volumes: every `volume`-typed source, declared external. */
  function TopLevelVolumes(storage: seq<StorageSpec>): (r: map<string, VolumeDecl>)
    ensures forall name :: name in r <==> exists i :: 0 <= i < |storage| && storage[i].kind == "volume" && storage[i].source == name
    ensures forall name :: name in r ==> r[name] == External
  {
    map i | 0 <= i < |storage| && storage[i].kind == "volume" :: storage[i].source := External
  }

  /** A storage entry as a service volume: `destination/labels/name/owner/permissions/scope` removed. */
  function Stripped(s: StorageSpec): RawVolume {
    Long(s.kind, s.source, s.target, s.rest)
  }

  predicate IsMount(s: StorageSpec) {
    s.kind == "volume" || s.kind == "bind"
  }

  /** The service volumes `#setupStorage` appends: each `volume`/`bind` entry, stripped, in order. */
  function ServiceVolumes(storage: seq<StorageSpec>): (r: seq<RawVolume>)
    ensures |r| <= |storage|
  {
    var kept := Filter(storage, IsMount);
    seq(|kept|, i requires 0 <= i < |kept| => Stripped(kept[i]))
  }

  /** The service volumes are exactly the stripped `volume` and `bind` entries. */
  lemma ServiceVolumesSpec(storage: seq<StorageSpec>, v: RawVolume)
    ensures v in ServiceVolumes(storage) <==> exists s :: s in storage && IsMount(s) && v == Stripped(s)
  {
    var kept := Filter(storage, IsMount);
    if v in ServiceVolumes(storage) {
      var i :| 0 <= i < |kept| && ServiceVolumes(storage)[i] == v;
      assert kept[i] in kept;
    }
    if exists s :: s in storage && IsMount(s) && v == Stripped(s) {
      var s :| s in storage && IsMount(s) && v == Stripped(s);
      assert s in kept;
      var i :| 0 <= i < |kept| && kept[i] == s;
      assert ServiceVolumes(storage)[i] == v;
    }
  }

  /** The recreate-and-chown step of one storage entry; the owner defaults to the service user. */
  function OwnershipStep(s: StorageSpec, userName: string): Step {
    var owner := s.owner.GetOr(userName);
    Step("storage", ["RUN rm -rf " + s.target + " && mkdir -p " + s.target
                     + " && chown -R " + owner + " " + s.target])
  }

  /** The chmod step of one storage entry. */
  function PermissionStep(s: StorageSpec): Step
    requires s.permissions.Some?
  {
    Step("storage", ["RUN chmod -R " + s.permissions.value + " " + s.target])
  }

  /** The steps for one storage entry: ownership, then permissions when they are truthy. */
  function EntrySteps(s: StorageSpec, userName: string): seq<Step> {
    [OwnershipStep(s, userName)] + if Truthy(s.permissions) then [PermissionStep(s)] else []
  }

  /** The steps of `#setupStorage`, entry by entry. */
  function StorageSteps(storage: seq<StorageSpec>, userName: string): seq<Step>
    decreases |storage|
  {
    if storage == [] then []
    else EntrySteps(storage[0], userName) + StorageSteps(storage[1..], userName)
  }

  /** The number of entries whose permissions are truthy. */
  function WithPermissions(storage: seq<StorageSpec>): nat
    decreases |storage|
  {
    if storage == [] then 0
    else (if Truthy(storage[0].permissions) then 1 else 0) + WithPermissions(storage[1..])
  }

  lemma {:induction false} StorageStepsAppend(a: seq<StorageSpec>, b: seq<StorageSpec>, userName: string)
    ensures StorageSteps(a + b, userName) == StorageSteps(a, userName) + StorageSteps(b, userName)
    decreases |a|
  {
    if a == [] {
      assert a + b == b;
    } else {
      assert (a + b)[0] == a[0] && (a + b)[1..] == a[1..] + b;
      StorageStepsAppend(a[1..], b, userName);
    }
  }

  /**
   * Every storage step belongs to the `storage` group, and there is one ownership
   * step per entry plus one chmod step per entry with truthy permissions.
   */
  lemma {:induction false} StorageStepsShape(storage: seq<StorageSpec>, userName: string)
    ensures |StorageSteps(storage, userName)| == |storage| + WithPermissions(storage)
    ensures forall i :: 0 <= i < |StorageSteps(storage, userName)| ==> StorageSteps(storage, userName)[i].group == "storage"
    decreases |storage|
  {
    if storage != [] {
      StorageStepsShape(storage[1..], userName);
    }
  }

  /** An entry without an owner is chowned to the service user, one with an owner to that owner. */
  lemma OwnerFallsBackToUser(s: StorageSpec, userName: string)
    ensures EntrySteps(s, userName)[0].instructions[0] ==
      "RUN rm -rf " + s.target + " && mkdir -p " + s.target + " && chown -R "
      + (if s.owner.Some? then s.owner.value else userName) + " " + s.target
    ensures |EntrySteps(s, userName)| == if Truthy(s.permissions) then 2 else 1
  {
  }

  // ---------------------------------------------------------------------------
  // getStorageVolumes
  // ---------------------------------------------------------------------------

  /** A volume as the engine lists it: its name and its labels, which may be missing. */
  datatype EngineVolume = EngineVolume(name: string, labels: Option<map<string, string>>)

  /** The record `getStorageVolumes` makes of one labelled engine volume. */
  datatype StorageVolume = StorageVolume(
    id: string,
    project: Option<string>,
    scope: string,
    service: Option<string>,
    source: string)

  /** `volume?.Labels?.[key]`. */
  function Label(v: EngineVolume, key: string): Option<string> {
    if v.labels.Some? && key in v.labels.value then Some(v.labels.value[key]) else None
  }

  predicate IsStorageVolume(v: EngineVolume) {
    Label(v, StorageVolumeLabel) == Some("TRUE")
  }

  /** The projection of one engine volume; a missing scope label counts as `service`. */
  function AsStorageVolume(v: EngineVolume): StorageVolume {
    StorageVolume(
      v.name,
      Label(v, "dev.lando.storage-project"),
      Label(v, "dev.lando.storage-scope").GetOr("service"),
      Label(v, "dev.lando.storage-service"),
      v.name)
  }

  /** `getStorageVolumes` on the engine's list: the labelled volumes, projected, in order. */
  function StorageVolumes(vols: seq<EngineVolume>): (r: seq<StorageVolume>)
    ensures |r| <= |vols|
  {
    var kept := Filter(vols, IsStorageVolume);
    seq(|kept|, i requires 0 <= i < |kept| => AsStorageVolume(kept[i]))
  }

  /**
   * The records are exactly the projections of the labelled engine volumes; each
   * carries the volume's name as id and source, and its scope label or `service`.
   */
  lemma StorageVolumesSpec(vols: seq<EngineVolume>, sv: StorageVolume)
    ensures sv in StorageVolumes(vols) <==> exists v :: v in vols && IsStorageVolume(v) && sv == AsStorageVolume(v)
    ensures sv in StorageVolumes(vols) ==> sv.id == sv.source
    ensures sv in StorageVolumes(vols) && sv.scope != "service" ==>
      exists v :: v in vols && IsStorageVolume(v) && v.name == sv.id && Label(v, "dev.lando.storage-scope") == Some(sv.scope)
  {
    var kept := Filter(vols, IsStorageVolume);
    if sv in StorageVolumes(vols) {
      var i :| 0 <= i < |kept| && StorageVolumes(vols)[i] == sv;
      assert kept[i] in kept;
    }
    if exists v :: v in vols && IsStorageVolume(v) && sv == AsStorageVolume(v) {
      var v :| v in vols && IsStorageVolume(v) && sv == AsStorageVolume(v);
      assert v in kept;
      var i :| 0 <= i < |kept| && kept[i] == v;
      assert StorageVolumes(vols)[i] == sv;
    }
  }

  function Sources(svs: seq<StorageVolume>): (r: seq<string>)
    ensures |r| == |svs|
  {
    seq(|svs|, i requires 0 <= i < |svs| => svs[i].source)
  }

  // ---------------------------------------------------------------------------
  // Volumes to create (buildApp) and to remove (destroy)
  // ---------------------------------------------------------------------------

  /** `buildApp` creates a storage entry when it is a labelled volume the engine does not list. */
  predicate NeedsCreating(s: StorageSpec, existing: seq<string>) {
    s.kind == "volume" && s.source !in existing && IsLabelled(s.labels)
  }

  function VolumesToCreate(storage: seq<StorageSpec>, existing: seq<StorageVolume>): seq<StorageSpec> {
    Filter(storage, s => NeedsCreating(s, Sources(existing)))
  }

  /**
   * Against the engine's list, `buildApp` creates exactly the labelled
   * `volume`-typed entries whose source no labelled engine volume is named.
   */
  lemma VolumesToCreateSpec(storage: seq<StorageSpec>, vols: seq<EngineVolume>, s: StorageSpec)
    ensures s in VolumesToCreate(storage, StorageVolumes(vols)) <==>
      && s in storage
      && s.kind == "volume"
      && IsLabelled(s.labels)
      && !exists v :: v in vols && IsStorageVolume(v) && v.name == s.source
  {
    var svs := StorageVolumes(vols);
    if exists v :: v in vols && IsStorageVolume(v) && v.name == s.source {
      var v :| v in vols && IsStorageVolume(v) && v.name == s.source;
      StorageVolumesSpec(vols, AsStorageVolume(v));
      var i :| 0 <= i < |svs| && svs[i] == AsStorageVolume(v);
      assert Sources(svs)[i] == s.source;
    }
    if s.source in Sources(svs) {
      var i :| 0 <= i < |svs| && Sources(svs)[i] == s.source;
      assert svs[i] in svs;
      StorageVolumesSpec(vols, svs[i]);
    }
  }

  /** `destroy` removes a volume of this project and service whose scope is not `global`. */
  predicate OwnedBy(sv: StorageVolume, project: string, id: string) {
    sv.project == Some(project) && sv.service == Some(id) && sv.scope != "global"
  }

  function VolumesToRemove(svs: seq<StorageVolume>, project: string, id: string): (r: seq<string>)
    ensures |r| <= |svs|
  {
    var kept := Filter(svs, sv => OwnedBy(sv, project, id));
    seq(|kept|, i requires 0 <= i < |kept| => kept[i].id)
  }

  /**
   * Against the engine's list, `destroy` removes exactly the labelled volumes whose
   * project and service labels name this service and whose scope label is not
   * `global`; a volume without a scope label is removed.
   */
  lemma VolumesToRemoveSpec(vols: seq<EngineVolume>, project: string, id: string, name: string)
    ensures name in VolumesToRemove(StorageVolumes(vols), project, id) <==>
      exists v :: v in vols && IsStorageVolume(v) && v.name == name
        && Label(v, "dev.lando.storage-project") == Some(project)
        && Label(v, "dev.lando.storage-service") == Some(id)
        && Label(v, "dev.lando.storage-scope") != Some("global")
  {
    var svs := StorageVolumes(vols);
    var kept := Filter(svs, sv => OwnedBy(sv, project, id));
    if name in VolumesToRemove(svs, project, id) {
      var i :| 0 <= i < |kept| && kept[i].id == name;
      assert kept[i] in kept;
      StorageVolumesSpec(vols, kept[i]);
    }
    if exists v :: v in vols && IsStorageVolume(v) && v.name == name
        && Label(v, "dev.lando.storage-project") == Some(project)
        && Label(v, "dev.lando.storage-service") == Some(id)
        && Label(v, "dev.lando.storage-scope") != Some("global") {
      var v :| v in vols && IsStorageVolume(v) && v.name == name
        && Label(v, "dev.lando.storage-project") == Some(project)
        && Label(v, "dev.lando.storage-service") == Some(id)
        && Label(v, "dev.lando.storage-scope") != Some("global");
      StorageVolumesSpec(vols, AsStorageVolume(v));
      assert AsStorageVolume(v) in kept;
      var i :| 0 <= i < |kept| && kept[i] == AsStorageVolume(v);
      assert VolumesToRemove(svs, project, id)[i] == name;
    }
  }

  /** Whether `buildApp` and `destroy` talk to the engine at all: some entry is `volume`-typed. */
  predicate HasVolumes(storage: seq<StorageSpec>) {
    exists i :: 0 <= i < |storage| && storage[i].kind == "volume"
  }
}
