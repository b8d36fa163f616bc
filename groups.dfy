/**
 * The build-group table of `builders/lando-v4.js`, the log entries the
 * parent class receives through `addSteps` and `addContext`, and the fixed
 * steps the service contributes at construction (`#setupBoot`, `#setupHooks`).
 *
 * The parent class sorts steps by group weight when it renders them; that
 * code is not part of this model, so steps are only logged here.
 */
module BuildGroups {
  import opened Base

  /** A named bucket of build instructions: lower weights run earlier, as `user`. */
  datatype BuildGroup = BuildGroup(description: string, weight: int, user: string)

  /** One `addSteps({group, instructions})` call; the instruction block is kept as its lines. */
  datatype Step = Step(group: string, instructions: seq<string>)

  /** One `addContext(spec, group)` call; `group` is absent when the caller passes none. */
  datatype ContextEntry = ContextEntry(spec: string, group: Option<string>)

  /** The module-level group table, before the per-service `user` group is added. */
  function ModuleGroups(): map<string, BuildGroup> {
    map[
      "boot" := BuildGroup("Required packages that every subsequent group needs", 100, "root"),
      "system" := BuildGroup("System level packages", 200, "root"),
      "setup-user" := BuildGroup("Host/container user mapping considerations", 300, "root"),
      "tooling" := BuildGroup("Installation of tooling", 400, "root"),
      "config" := BuildGroup("Configuration file stuff", 500, "root"),
      "storage" := BuildGroup("Set ownership and permission of storage mounts", 9999, "root")
    ]
  }

  /** The group names in the order the table declares them, `user` last. */
  function GroupNames(): seq<string> {
    ["boot", "system", "setup-user", "tooling", "config", "storage", "user"]
  }

  /**
   * The table one service instance sees: the module table plus a `user` group
   * of weight 2000 that runs as the service's user.
   */
  function GroupsFor(userName: string): (g: map<string, BuildGroup>)
    ensures g.Keys == ModuleGroups().Keys + {"user"}
    ensures g["user"].weight == 2000 && g["user"].user == userName
    ensures forall name :: name in ModuleGroups() ==> g[name] == ModuleGroups()[name]
  {
    ModuleGroups()["user" := BuildGroup("Catch all group for things that should be run as the user", 2000, userName)]
  }

  /** `GroupNames` lists exactly the registered groups. */
  lemma GroupNamesRegistered(userName: string)
    ensures forall name :: name in GroupNames() <==> name in GroupsFor(userName)
  {
  }

  /** `GroupNames` lists each group once. */
  lemma GroupNamesDistinct()
    ensures NoDup(GroupNames())
  {
  }

  /** The `storage` group runs after every other group. */
  lemma StorageGroupLast(userName: string)
    ensures forall name :: name in GroupsFor(userName) && name != "storage" ==>
      GroupsFor(userName)[name].weight < GroupsFor(userName)["storage"].weight
  {
  }

  /** The `user` group runs after every group but `storage`. */
  lemma UserGroupBeforeStorage(userName: string)
    ensures forall name :: name in GroupsFor(userName) && name !in {"storage", "user"} ==>
      GroupsFor(userName)[name].weight < GroupsFor(userName)["user"].weight
  {
  }

  /** Every group except `user` runs as root. */
  lemma GroupsRunAsRoot(userName: string)
    ensures forall name :: name in GroupsFor(userName) && name != "user" ==>
      GroupsFor(userName)[name].user == "root"
  {
  }

  // ---------------------------------------------------------------------------
  // #setupHooks
  // ---------------------------------------------------------------------------

  /** A JavaScript number as `parseInt` returns it. */
  datatype JsNumber = Finite(n: int) | NaN

  /** `parseInt(v)` of a property that is a number or undefined. */
  function ParseInt(v: Option<int>): JsNumber {
    if v.None? then NaN else Finite(v.value)
  }

  /** `a <= b`: false whenever `a` is NaN. */
  predicate AtMost(a: JsNumber, b: int) {
    a.Finite? && a.n <= b
  }

  /** `name.weight` for a group NAME: a string has no `weight` property. */
  function WeightOfName(name: string): Option<int> {
    None
  }

  /** `group => parseInt(group.weight) <= 100`, where `weightOf` reads the `weight` property. */
  predicate IsLight(weightOf: string -> Option<int>, group: string) {
    AtMost(ParseInt(weightOf(group)), 100)
  }

  /**
   * The hooks `#setupHooks` selects: it runs its filter over `Object.keys` of
   * the table, so each element is a group NAME and its weight is undefined.
   */
  function HookGroups(names: seq<string>): seq<string> {
    Filter(names, name => IsLight(WeightOfName, name))
  }

  /** As written, no group name passes the weight test, so no hook directory steps are added. */
  lemma HookGroupsSelectNothing(names: seq<string>)
    ensures HookGroups(names) == []
  {
    FilterNone(names, name => IsLight(WeightOfName, name));
  }

  /** The step `#setupHooks` would add for one selected hook. */
  function HookStep(hook: string): Step {
    Step(hook, [
      "RUN mkdir -p /etc/lando/build/image/" + hook + ".d",
      "RUN /etc/lando/run-hooks.sh image " + hook
    ])
  }

  /** The steps of `#setupHooks` for the selected hooks, in order. */
  function HookSteps(hooks: seq<string>): (r: seq<Step>)
    ensures |r| == |hooks|
    ensures forall i :: 0 <= i < |hooks| ==> r[i] == HookStep(hooks[i])
  {
    seq(|hooks|, i requires 0 <= i < |hooks| => HookStep(hooks[i]))
  }

  // ---------------------------------------------------------------------------
  // #setupBoot
  // ---------------------------------------------------------------------------

  /** The number of instruction lines of the `boot` step. */
  const BootLineCount := 8

  /** Line `i` of the `boot` step's instructions. */
  function BootLine(i: nat): string
    requires i < BootLineCount
  {
    match i
    case 0 => "ENV DEBUG=1"
    case 1 => "ENV LANDO_DEBUG=1"
    case 2 => "ENV PATH=$PATH:/etc/lando/bin"
    case 3 => "RUN mkdir -p /etc/lando /etc/lando/env.d /etc/lando/build/image"
    case 4 => "RUN chmod 777 /etc/lando"
    case 5 => "RUN ln -sf /etc/lando/environment /etc/profile.d/lando.sh"
    case 6 => "RUN /etc/lando/boot.sh"
    case _ => "SHELL [\"/bin/bash\", \"-c\"]"
  }

  /** The one `boot` step of `#setupBoot`. */
  function BootStep(): Step {
    Step("boot", seq(BootLineCount, i requires 0 <= i < BootLineCount => BootLine(i)))
  }
}
