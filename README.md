# Lando v4 service builders in Dafny

Lando describes each service of an application with a builder class. This
project models the two classes that make up the version 4 service:

- `LandoServiceV4` (`builders/lando-v4.js`) is the service a user configures.
  Its constructor fixes the user, hostnames, packages, storage and environment.
  Step by step it accumulates what later runs need: the build-context entries,
  the build steps of each build group, the run environment, labels and mounts,
  and the service data handed to Docker Compose. `buildApp`, `buildImage` and
  `destroy` drive the container engine through volume creation, hook runs and
  volume removal. `run` and `runHook` start one-off containers.
- `LandoLandoV4` (`plugins/lando-core/builders/_lando-v4.js`) is the lower
  builder. From its options it builds the primary compose service: fixed,
  optional, script and config mounts, ports, the `io.lando.http(s)-ports`
  labels and named volumes. It adds a pinned image when the version is pinned
  and always finishes with the overrides. It also fills in the service info.

The model has these modules:

- `Base`: JavaScript values and lodash helpers. `Uniq` is lodash `uniq`,
  `Spread` is object spread, `JoinWith`/`Split` are `join`/`split`, and
  `PathJoin`/`Basename`/`Dirname`/`Resolve` are the path functions.
- `BuildGroups`: the build-group table and the steps it accepts.
- `Hooks`: hook-file dedenting, naming and placement, and the boot scripts.
- `Storage`: storage projections, the engine's storage volumes, and which
  volumes are created or removed.
- `Execution`: run options, hook commands, start-command resolution and
  package installation.
- `ServiceData`: the run environment, labels and mounts, hostnames, the
  constructor's environment and labels, `.npmrc` contents and app-mount
  binds.
- `ContainerEngine`: a stand-in engine that records requests and answers
  with fixed outcomes.
- `ServiceV4`: the `Service` class, whose fields are the fields that
  `LandoServiceV4` updates in place.
- `LandoBase`: the `LandoLandoV4` constructor. It pushes onto local arrays,
  so it is a method proved against specification functions.

## Model

| member | source | states |
|---|---|---|
| Base.Filter | builders/lando-v4.js:172-174 | a filter keeps exactly the elements satisfying the predicate and never grows the list |
| Base.FilterAppend | builders/lando-v4.js:432-435 | filtering a concatenation filters each part separately |
| Base.UniqSpec | builders/lando-v4.js:116 | lodash `uniq` yields no repetitions and exactly the elements of its input |
| Base.UniqOfNoDup | builders/lando-v4.js:116 | `uniq` leaves a repetition-free list unchanged |
| Base.UniqAppend | builders/lando-v4.js:132-135 | `uniq(old ++ data)` with repetition-free `old` is `old` followed by each new element once, in first-occurrence order |
| Base.UniqExtend | builders/lando-v4.js:132-135 | merging keeps the old list as an unchanged prefix, stays repetition-free, and holds exactly the old and new elements |
| Base.UniqOfUniqAppend | builders/lando-v4.js:116 | merging into an already merged list equals merging everything at once |
| Base.UniqMergeTwice | builders/lando-v4.js:116 | merging the same data a second time changes nothing |
| Base.AppendNewFresh | builders/lando-v4.js:253 | elements that are all distinct and new are appended as they are |
| Base.SplitJoin | plugins/lando-core/builders/_lando-v4.js:135-136 | joining the pieces of a split gives back the string; no piece holds the separator |
| Base.JoinSplit | plugins/lando-core/builders/_lando-v4.js:135-136 | splitting a join of separator-free pieces gives back the pieces |
| Base.DirnameOfJoin | builders/lando-v4.js:256 | the directory of `path.join(dir, name)` is `dir` |
| Base.BasenameOfJoin | builders/lando-v4.js:369 | the base name of `path.join(dir, name)` is `name` |
| Base.SpreadLookup | builders/lando-v4.js:306-323 | after `{...base, ...over}` a key takes its value from `over` when present there, else from `base` |
| Base.LookupKeyValue | builders/lando-v4.js:114 | every key of an object appears in its entries as the string `key=value` |
| Base.LookupAt | builders/lando-v4.js:306-323 | the value of a key is that of its first entry |
| BuildGroups.GroupsFor | builders/lando-v4.js:12-43 | the groups are the module table plus `user`, weight 2000, run as the service user; the table entries are unchanged |
| BuildGroups.GroupNamesRegistered | builders/lando-v4.js:12-43 | the listed group names are exactly the keys of the group table |
| BuildGroups.GroupNamesDistinct | builders/lando-v4.js:12-43 | no group name is listed twice |
| BuildGroups.StorageGroupLast | builders/lando-v4.js:38-42 | `storage` weighs more than every other group |
| BuildGroups.UserGroupBeforeStorage | builders/lando-v4.js:228-232 | `user` weighs more than every group except `storage` |
| BuildGroups.GroupsRunAsRoot | builders/lando-v4.js:12-43 | every group except `user` runs as `root` |
| BuildGroups.HookGroupsSelectNothing | builders/lando-v4.js:161-168 | the `parseInt(group.weight) <= 100` filter over group names selects no group |
| BuildGroups.HookSteps | builders/lando-v4.js:162-167 | each selected hook yields its own mkdir/run-hooks step, in order |
| Hooks.FirstNonEmpty | builders/lando-v4.js:355 | the index of the first non-empty line, all earlier lines empty; none when every line is empty |
| Hooks.LeadingSpace | builders/lando-v4.js:357 | the length of the leading whitespace run, followed by no further whitespace |
| Hooks.DedentSpec | builders/lando-v4.js:353-358 | no content means an error; otherwise leading empty lines are dropped, every line loses the first content line's indentation, and the first line does not start with whitespace |
| Hooks.DedentRemovesCommonIndent | builders/lando-v4.js:353-358 | blank lines and then a common indentation in front of unindented text give back exactly that text |
| Hooks.FirstNonEmptyAfterBlanks | builders/lando-v4.js:355 | after `n` empty lines the first content line is at `n` |
| Hooks.LeadingSpaceOfIndented | builders/lando-v4.js:357 | whitespace followed by non-whitespace measures as the whitespace |
| Hooks.GeneratedHookPlacement | builders/lando-v4.js:361-377 | a generated hook file is named `<priority>-<id>.sh` or `<priority>-<stage>-<hook>.sh`; an image hook adds one context entry tagged `<hook>-1000-before`, an app hook one mount, and any other stage nothing |
| Hooks.LsfDestination | builders/lando-v4.js:402-405 | `addLSF` mounts a file at `/etc/lando/<dest>`, defaulting `dest` to the file's base name, in the `context` context |
| Hooks.BootContextTargets | builders/lando-v4.js:138-148 | boot adds `lash.sh` as `/bin/lash`, then each boot script under `/etc/lando` with its destination, in order |
| Storage.TopLevelVolumes | builders/lando-v4.js:172-174 | the top-level volumes are exactly the sources of the `volume` entries, each external |
| Storage.ServiceVolumesSpec | builders/lando-v4.js:177-185 | the service volumes are exactly the `volume` and `bind` entries with their storage-only fields removed |
| Storage.StorageStepsAppend | builders/lando-v4.js:188-202 | the storage steps of a concatenation are the steps of each part in order |
| Storage.StorageStepsShape | builders/lando-v4.js:188-202 | one step per entry plus one per truthy `permissions`, all in group `storage` |
| Storage.OwnerFallsBackToUser | builders/lando-v4.js:190-200 | an entry's first step recreates and chowns the target to `owner ?? user`; a chmod step follows only for truthy `permissions` |
| Storage.StorageVolumesSpec | builders/lando-v4.js:539-555 | the storage volumes are exactly the engine volumes labelled `dev.lando.storage-volume=TRUE`, projected with scope defaulting to `service` and `id == source` |
| Storage.VolumesToCreateSpec | builders/lando-v4.js:429-435 | a spec is created iff it is a labelled `volume` entry whose source no storage volume already has |
| Storage.VolumesToRemoveSpec | builders/lando-v4.js:513-517 | a volume is removed iff it is a storage volume of this project and service whose scope is not `global` |
| Execution.StartCommand | builders/lando-v4.js:490-501 | no command anywhere is the error `<id> has no command set!`; otherwise the command starts with `/etc/lando/start.sh` |
| Execution.CommandPrecedence | builders/lando-v4.js:490-501 | the configured command wins over `Config.Cmd`, which wins over `ContainerConfig.Cmd`; `""` and `[]` are kept |
| Execution.InstallerArgs | builders/lando-v4.js:396 | missing data gives no arguments, an array is spread, any other value is one argument |
| Execution.RunOutcome | builders/lando-v4.js:397-399 | an installer call ends with the label-array error of the data it adds, otherwise with its own outcome |
| Execution.PackageCall | builders/lando-v4.js:388-400 | an unknown or non-function installer is the error `Could not find a package installer function for <id>!`; otherwise that installer is called with the normalised arguments |
| Execution.SetPackageSpec | builders/lando-v4.js:274-283 | setting a package key holds the new value, keeps the other entries, and appends only a new key |
| Execution.InstallCallsSpec | builders/lando-v4.js:557-564 | a call is made iff some enabled package has a known installer producing it |
| ServiceData.AddedEnvironmentSpec | builders/lando-v4.js:112-117 | the environment keeps its old strings as a prefix, stays repetition-free, and holds exactly the old strings and the new `KEY=VALUE` strings |
| ServiceData.AddedEnvironmentTwice | builders/lando-v4.js:112-117 | adding the same environment twice is the same as adding it once |
| ServiceData.AddedLabelsSpec | builders/lando-v4.js:119-124 | an array is an error, the one `Object.fromEntries` raises on its first item or, when empty, the one `.map` raises; an object is merged with its values winning; any other value changes nothing |
| ServiceData.AddedMountsSpec | builders/lando-v4.js:126-136 | non-array input is ignored; otherwise the old mounts stay as a prefix, with each new `source:target` once |
| ServiceData.AddedMountsTwice | builders/lando-v4.js:126-136 | adding the same volumes twice is the same as adding them once |
| ServiceData.HostnamesSpec | builders/lando-v4.js:253 | the hostnames are the configured ones plus `<id>.<project>.internal`, each once |
| ServiceData.BaseEnvironmentLookups | builders/lando-v4.js:306-320 | the base environment carries the project, project mount, service API `4`, service name and leia flag |
| ServiceData.ServiceEnvironmentSpec | builders/lando-v4.js:306-323 | configured variables win; otherwise the Lando variables take their defaults |
| ServiceData.ServiceLabelsSpec | builders/lando-v4.js:326-330 | the labels are the app's, the three `dev.lando.*` ones and the configured ones, later sources winning |
| ServiceData.NpmrcContentsSpec | builders/lando-v4.js:615-616 | the `.npmrc` is the `key=value` lines of the data, each ended by a newline |
| ServiceData.AppMountBindsSpec | builders/lando-v4.js:637-656 | no excludes bind the app root at the destination; otherwise each kept entry is bound from the app root and each excluded one from its `app-mount-` volume |
| ServiceData.Kept | builders/lando-v4.js:649 | the kept entries are exactly the listed ones that are not excluded |
| ServiceV4.PackagesForSpec | builders/lando-v4.js:254-284 | the packages hold the user, the proxy package when the proxy is on, and every configured package not overwritten |
| ServiceV4.SecurityWithCaSpec | builders/lando-v4.js:255-256 | the security CAs gain the CA certificate and `<caDomain>.pem` beside it |
| ServiceV4.ConstructedRunState | builders/lando-v4.js:292-341 | after construction the run environment is the service environment as `KEY=VALUE` strings, and the run mounts are the app-mount, npmrc and configured volumes, all without repetitions |
| ServiceV4.ConstructedProjectMount | builders/lando-v4.js:221-322 | the project mount is the configured app-mount destination, and the run environment carries it unless configuration overrides it |
| ServiceV4.ConstructedOrder | builders/lando-v4.js:267-346 | the boot step precedes the storage steps, `lash` is the first context entry, the hostnames are the last info, the Lando service data then the overrides close the service data, and no package is installed yet |
| ServiceV4.InstallFailsStep | builders/lando-v4.js:557-564 | installation fails iff it fails on the earlier packages or the last enabled package has no installer or its installer fails |
| ServiceV4.InstallCallsStep | builders/lando-v4.js:557-564 | one more enabled package with an installer adds its call last, and its data reaches the service after the earlier calls' data; otherwise the calls are those of the shorter list |
| ServiceV4.InstallRunsKeep | builders/lando-v4.js:397-420 | installer data added through `addLandoServiceData` keeps the earlier environment, binds and service data as prefixes, never repeats a string or bind and never drops a label |
| ServiceV4.InstallRunsEnvironment | builders/lando-v4.js:112-117 | after the installer calls, an environment string is present iff it was before or some call's data brings it |
| ServiceV4.InstallRunsMounts | builders/lando-v4.js:126-136 | after the installer calls, a bind is present iff it was before or the data of some call without a label array brings it |
| ServiceV4.InstallRunsEntries | builders/lando-v4.js:409-414 | the service-data entries the installer calls add are exactly the data of the calls without a label array |
| ServiceV4.Service.constructor | builders/lando-v4.js:205-347 | the new service's whole state is the state the constructor computes, and the state invariant holds |
| ServiceV4.Service.SetupBoot | builders/lando-v4.js:138-159 | boot appends its context entries and the single boot step |
| ServiceV4.Service.SetupHooks | builders/lando-v4.js:161-168 | the steps gain one step per selected hook, which is none |
| ServiceV4.Service.SetupStorage | builders/lando-v4.js:170-203 | the top-level volumes, appended service volumes and appended storage steps are those of the storage entries |
| ServiceV4.Service.AddRunEnvironment | builders/lando-v4.js:112-117 | the run environment becomes the merged environment |
| ServiceV4.Service.AddRunLabels | builders/lando-v4.js:119-124 | the run labels become the merged labels, or the array error leaves them unchanged |
| ServiceV4.Service.AddRunVolumes | builders/lando-v4.js:126-136 | the run mounts become the merged mounts |
| ServiceV4.RunSeesRunData | builders/lando-v4.js:570-593 | after the run data is added, a later run sees exactly the old and the added environment strings and binds, every added label with its value and every old label |
| ServiceV4.Service.AddLandoRunData | builders/lando-v4.js:416-420 | environment, labels and volumes are added in that order; the label error stops before the volumes |
| ServiceV4.Service.AddLandoServiceData | builders/lando-v4.js:409-414 | the run data is added; a label array is the `LabelArrayError` after the environment; without error the data is appended to the service data |
| ServiceV4.Service.AddLSF | builders/lando-v4.js:402-405 | one context entry is appended |
| ServiceV4.Service.AddLashRC | builders/lando-v4.js:380-382 | one `/etc/lando/lash.d/<priority>-<basename>` entry is appended |
| ServiceV4.Service.AddHookFile | builders/lando-v4.js:349-378 | script text is written dedented first and a dedent error changes nothing; an image hook appends one context entry, an app hook one mount and service-data entry |
| ServiceV4.Service.AddPackageInstaller | builders/lando-v4.js:384-386 | the installer is registered under its id, replacing any earlier one |
| ServiceV4.Service.AddPackage | builders/lando-v4.js:388-400 | a missing installer is an error and nothing changes; otherwise one installer call is recorded, its data goes through `addLandoServiceData`, and the result is that call's label error or the installer's own outcome |
| ServiceV4.Service.InstallPackages | builders/lando-v4.js:557-564 | the installer calls of every enabled package are recorded, their data reaches the run-state and service data in package order, and the result fails iff some enabled package has no installer or its installer fails |
| ServiceV4.Service.Run | builders/lando-v4.js:570-608 | one engine run with the computed options; success carries the command and options, failure carries the service id |
| ServiceV4.Service.RunHook | builders/lando-v4.js:566-568 | one engine run of the hook command with the hook options; failure carries the service id |
| ServiceV4.Service.CreateStorageVolumes | builders/lando-v4.js:424-445 | without volume entries nothing happens; a failing list is the error; otherwise exactly the missing labelled volumes are requested, failing iff one is refused, with the engine's own error |
| ServiceV4.Service.BuildApp | builders/lando-v4.js:423-480 | exactly the missing volumes are requested; when listing or creating fails, that error comes back without the service id, nothing is logged, no hook runs and the service state is unchanged; otherwise the hook build runs as `AppHooksRan` states |
| ServiceV4.Service.BuildAppHooks | builders/lando-v4.js:446-479 | BUILDING, then BUILT or BUILD FAILURE; the internal-root hook runs first, detached, as root, on the run-state as it was; success iff neither hook is refused and the build script, if any, can be placed as a `user` app hook; a placed script is written, mounted and recorded as service data; then the user hook runs with the defaults on the state that mounts the script; a failure carries the service id and stops the runs |
| ServiceV4.Service.BuildImage | builders/lando-v4.js:482-505 | packages are installed first and their installers' data is added; an install or build failure is passed on; no command is an error; otherwise the start command is appended to the service data and the run-state is as the installers left it |
| ServiceV4.Service.Destroy | builders/lando-v4.js:508-529 | without volume entries nothing happens; a failing list is the error; otherwise exactly the volumes owned by this service are removed, failing iff one is refused, with the engine's error untouched |
| ServiceV4.Service.SetNPMRC | builders/lando-v4.js:610-630 | the npmrc is written into the context and mounted for the user and root, through run mounts and service data |
| ServiceV4.Service.SetAppMount | builders/lando-v4.js:633-678 | the destination, binds and exclude volumes are set; named volumes are added only when there are some; binds are mounted; the app mount is reported |
| LandoBase.LegacyWarning | plugins/lando-core/builders/_lando-v4.js:79-81 | a legacy version yields the upgrade warning, any other none |
| LandoBase.FixedMountsFirst | plugins/lando-core/builders/_lando-v4.js:95-100 | the volumes start with the four fixed mounts, in order |
| LandoBase.OptionalMountsSpec | plugins/lando-core/builders/_lando-v4.js:103-113 | the add-cert mount exists iff `ssl`, the home mount iff `home` is non-empty, and the refresh-certs mount iff `refreshCerts`; nothing else is optional |
| LandoBase.PortsSpec | plugins/lando-core/builders/_lando-v4.js:103-106 | the ports gain `sport` iff `ssl` and `sslExpose`, after the given ports |
| LandoBase.ScriptMountsSpec | plugins/lando-core/builders/_lando-v4.js:116-120 | each script, in order, mounts its resolved path at `/scripts/<basename>` |
| LandoBase.ConfigMountsSpec | plugins/lando-core/builders/_lando-v4.js:123-129 | a config file is mounted iff its type has a remote file, at that remote path |
| LandoBase.PortLabelValues | plugins/lando-core/builders/_lando-v4.js:134-137 | with no extra HTTP ports the HTTP label is `80,443`; the HTTPS label is `443`, or `443,<sport>` for another `sport` |
| LandoBase.PortLabelsSplit | plugins/lando-core/builders/_lando-v4.js:134-137 | splitting each label at commas gives the de-duplicated port list |
| LandoBase.ComposeOrder | plugins/lando-core/builders/_lando-v4.js:142-163 | the service fragment with the named data volumes comes first; a pinned image only when the version is pinned; the overrides last |
| LandoBase.ObjectFieldsSpec | plugins/lando-core/builders/_lando-v4.js:166 | the config object has exactly the configured keys with their first values |
| LandoBase.InfoSpec | plugins/lando-core/builders/_lando-v4.js:166-171 | info gains `config`, `service`, `type`, `version`, `meUser` and `hasCerts`; other incoming fields are kept |
| LandoBase.MountsAndPorts | plugins/lando-core/builders/_lando-v4.js:95-129 | the pushed volumes and ports are the specified volumes and ports |
| LandoBase.PushScriptMounts | plugins/lando-core/builders/_lando-v4.js:116-120 | the loop appends exactly the script mounts |
| LandoBase.PushConfigMounts | plugins/lando-core/builders/_lando-v4.js:123-129 | the loop appends exactly the config mounts |
| LandoBase.Construct | plugins/lando-core/builders/_lando-v4.js:21-212 | the parent receives the id, the completed info, and the incoming compose followed by the added fragments; the legacy warning is returned |

## Left out

- Filesystem I/O is not performed. This covers `write`, `fs.chmodSync`, `fs.existsSync` with `require` of the npmrc file, `fs.readdirSync` and `moveConfig`. Written files are recorded as values in the service's `files`. The directory listing of `setAppMount` is a parameter. `setNPMRC` takes either the already loaded settings or a string that names no existing file. `Object.entries` makes that string's characters its entries.
- The container engine, `super.buildImage` and `getBengine` belong to code outside this model. `ContainerEngine.Engine` records every request and answers with outcomes fixed at creation.
- `Promise.all` in `buildApp`, `destroy` and `installPackages` is modelled sequentially with every branch attempted. Only whether some branch fails is stated, not which error surfaces.
- ServiceV4.Service.InstallPackages: the package installer modules (`../packages/*`) are not part of this model. `Helpers.install` stands for them: it gives, per call, the data the installer hands to `addLandoServiceData` and whether it then throws. Other calls an installer may make on the service, such as `addSteps`, `addLSF` or `addHookFile`, are not modelled. So `AddPackage`, `InstallPackages` and `BuildImage` state the run-state and service data only as those calls leave them, and leave steps, contexts and files unchanged.
- Library helpers outside this model are function-typed parameters: `valid-path`, `normalizeVolumes` (per volume), `string-argv`, `is-disabled` and `utils.normalizeOverrides`. `normalize-storage`, `parse-v4-user`, `get-uid/gid/username`, the proxy hostnames and `generateCert` are inputs already evaluated.
- `path.join`, `path.basename`, `path.dirname` and `path.resolve` are plain string operations without normalisation. `Resolve` ignores the working directory.
- The parent classes `l337` and `_compose` are not part of this model. Their `addSteps`, `addContext`, `addServiceData`, `addComposeData` and `info` setter are logs in the `Service` class, with no merging or weight ordering.
- Labels are flat string maps, so lodash's deep `merge` is a map override.
- An array passed as labels is `LabelArrayError`: for a non-empty array, the error `Object.fromEntries` raises because the first item is not an entry; for an empty one, the error `.map` raises on the resulting object. The text of a non-string first item is not modelled.
- Template-literal instruction blocks (builders/lando-v4.js:149-158 and :189-200) are stored as trimmed single lines. Their backslash-newline continuations and indentation are collapsed, so `Groups.Step` instructions match the shell commands, not the exact text.
- Strings are sequences of code points. JavaScript's `.length` and `.slice` in `addHookFile` and `Object.entries` on the npmrc string count UTF-16 code units, so they differ for characters outside the Basic Multilingual Plane. For example, `"  x\n😀y"` is dedented differently.
- `forcePosixLineEndings` in `addHookFile`'s `write` is not modelled. A `WrittenFile`'s contents keep any `\r`.
- `_.set` for the named volumes treats the names as plain keys; names holding `.` or `[` are not modelled.
- The group table is per instance. `groups.user` at builders/lando-v4.js:228 is really shared module state.
- `BuildGroups.HookGroups`: `#setupHooks` filters group names by `parseInt(group.weight)`, which is `NaN` for a string. So it selects no group, and the model keeps that.
- `Hooks.Dedent` measures the indentation of the first content line, as the code does, not the shortest indentation.
- Debug logging, `console.error` coloring, `process.platform` and the placeholder `buildContext` JSON are left out. The legacy warning is returned as a value. The build context passed to the parent is not part of `SuperArgs`.
- `ServiceV4.Service.constructor`: its effect is stated through the pure function `Constructed`, which the constructor assigns field by field. Its properties are the `Constructed*` lemmas.
- Option values are restricted to the types the source uses them as: strings, booleans, string lists and string maps. The version is a string; an undefined `version` and the unused options `app`, `confDest`, `confSrc`, `patchesSupported`, `project` and `webroot` are not modelled.
- The incoming `info` object and the `ports` array that `LandoLandoV4` mutates are returned as new values, so aliasing with the caller is not modelled.
- `healthcheck`, `router`, `canExec`, `canHealthcheck` and `generateCert` are constructor assignments that nothing in the model reads, and they are left out.
