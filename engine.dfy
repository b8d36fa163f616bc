/**
 * The container engine `builders/lando-v4.js` reaches through `getBengine()`:
 * the volume list it reads, the volumes it creates and removes, and the
 * containers it runs. The engine's own behaviour is not part of this model;
 * this class records every request in order and answers with fixed outcomes
 * chosen when it is created, so the service's handling of both success and
 * failure can be stated.
 */
module ContainerEngine {
  import opened Base
  import opened Storage
  import opened Execution

  /** The result `run` returns on success, augmented with the command and options that produced it. */
  datatype RunSuccess = RunSuccess(output: string, command: seq<string>, opts: RunOpts)

  /** A `createVolume({Name, Labels})` request. */
  datatype VolumeRequest = VolumeRequest(name: string, labels: map<string, string>)

  class Engine {
    /** What `listVolumes()` reports under `Volumes`. */
    var volumes: seq<EngineVolume>
    /** Every `createVolume` request, in order. */
    var createRequests: seq<VolumeRequest>
    /** Every volume `remove({force: true})` request, by name, in order. */
    var removeRequests: seq<string>
    /** Every `run(command, runOpts)` request, in order. */
    var runRequests: seq<(seq<string>, RunOpts)>

    /** Fixed outcomes: a failing list, and the names and commands the engine refuses. */
    const listFailure: Option<Failure>
    const refuseCreate: set<string>
    const refuseRemove: set<string>
    const refuseRun: set<seq<string>>
    const failure: Failure
    const runOutput: string

    constructor (volumes: seq<EngineVolume>, listFailure: Option<Failure>, refuseCreate: set<string>,
                 refuseRemove: set<string>, refuseRun: set<seq<string>>, failure: Failure, runOutput: string)
      ensures this.volumes == volumes && this.listFailure == listFailure
      ensures this.refuseCreate == refuseCreate && this.refuseRemove == refuseRemove
      ensures this.refuseRun == refuseRun && this.failure == failure && this.runOutput == runOutput
      ensures createRequests == [] && removeRequests == [] && runRequests == []
    {
      this.volumes := volumes;
      this.listFailure := listFailure;
      this.refuseCreate := refuseCreate;
      this.refuseRemove := refuseRemove;
      this.refuseRun := refuseRun;
      this.failure := failure;
      this.runOutput := runOutput;
      createRequests := [];
      removeRequests := [];
      runRequests := [];
    }

    /** `listVolumes()`: the current volumes, or the configured failure. */
    method ListVolumes() returns (r: Result<seq<EngineVolume>>)
      ensures listFailure.Some? ==> r == Err(listFailure.value)
      ensures listFailure.None? ==> r == Ok(volumes)
    {
      if listFailure.Some? {
        r := Err(listFailure.value);
      } else {
        r := Ok(volumes);
      }
    }

    /** `createVolume({Name, Labels})`: recorded; a volume it does not refuse is listed from then on. */
    method CreateVolume(name: string, labels: map<string, string>) returns (err: Option<Failure>)
      modifies this`createRequests, this`volumes
      ensures createRequests == old(createRequests) + [VolumeRequest(name, labels)]
      ensures err.Some? <==> name in refuseCreate
      ensures err.Some? ==> err.value == failure && volumes == old(volumes)
      ensures err.None? ==> volumes == old(volumes) + [EngineVolume(name, Some(labels))]
    {
      createRequests := createRequests + [VolumeRequest(name, labels)];
      if name in refuseCreate {
        err := Some(failure);
      } else {
        volumes := volumes + [EngineVolume(name, Some(labels))];
        err := None;
      }
    }

    /** `getVolume(name).remove({force: true})`: recorded, failing for the names it refuses. */
    method RemoveVolume(name: string) returns (err: Option<Failure>)
      modifies this`removeRequests
      ensures removeRequests == old(removeRequests) + [name]
      ensures err.Some? <==> name in refuseRemove
      ensures err.Some? ==> err.value == failure
    {
      removeRequests := removeRequests + [name];
      err := if name in refuseRemove then Some(failure) else None;
    }

    /** `run(command, runOpts)`: recorded, failing for the commands it refuses. */
    method Run(command: seq<string>, opts: RunOpts) returns (r: Result<string>)
      modifies this`runRequests
      ensures runRequests == old(runRequests) + [(command, opts)]
      ensures command in refuseRun ==> r == Err(failure)
      ensures command !in refuseRun ==> r == Ok(runOutput)
    {
      runRequests := runRequests + [(command, opts)];
      r := if command in refuseRun then Err(failure) else Ok(runOutput);
    }
  }
}
